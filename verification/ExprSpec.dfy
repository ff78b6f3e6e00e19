/** What the code generated so far for an expression means: expression descriptors,
    the value each kind of descriptor stands for, and the invariant that ties a
    descriptor and its two jump lists to every run of the code. */
module ExprSpec {
  import opened LuaSyntax
  import opened LuaVm
  import opened JumpLists

  datatype Kind =
    | VNIL | VTRUE | VFALSE
    | VK(info: int) | VKFLT(nval: nat) | VKINT(ival: int)
    | VNONRELOC(info: int) | VLOCAL(info: int) | VUPVAL(info: int)
    | VJMP(info: int) | VRELOCABLE(info: int)

  /** A potentially delayed expression: its main value and the lists of jumps that
      leave it when it is already known to be true or false. */
  datatype ExpDesc = ExpDesc(k: Kind, t: int, f: int)

  /** A state of the code: the code itself, the jumps waiting for the next instruction,
      and the last position marked as a jump target. */
  datatype Snap = Snap(c: Code, hs: seq<int>, last: int)

  ghost predicate SnapOk(s: Snap) {
    && WellFormed(s.c, s.last)
    && (forall j :: j in s.hs ==> j in s.c.open)
    && (s.hs != [] ==> s.last == |s.c.ins|)
  }

  /** What an expression is compiled against: the state of the code before it (`s0`),
      the first register it may use, a lower register it may overwrite (or -1), the
      number of locals, the expression, and the contents of its true and false lists. */
  datatype Ctx = Ctx(s0: Snap, base: nat, w: int, nact: nat, x: Expr, ts: seq<int>, fs: seq<int>)

  // ----- main values

  /** A known value; a register; an instruction to be given its register; a test that
      jumps when true; or, when only its truth matters any more, that truth. */
  datatype Main = MConst(v: Value) | MReg(r: int) | MInstr(i: Instr) | MTest(i: Instr) | MCond(b: bool)

  /** With registers `R`, the main value is `v`. */
  ghost predicate Holds(S: Semantics, k: seq<Value>, m: Main, R: Regs, v: Value) {
    match m
    case MConst(c) => v == c
    case MReg(r) => v == Get(R, r)
    case MInstr(i) => SetsA(i) && v == ValueOf(S, k, i, R)
    case MTest(i) => TestMode(i) && v == Bool(Accepts(S, k, i, R))
    case MCond(b) => Truthy(v) == b
  }

  /** The length of the code without the instructions still to be relocated or negated. */
  function CoreLength(c: Code, e: ExpDesc): int {
    if e.k.VRELOCABLE? then |c.ins| - 1 else if e.k.VJMP? then |c.ins| - 2 else |c.ins|
  }

  ghost predicate KindOk(s: Snap, e: ExpDesc, base: int) {
    var n := |s.c.ins|;
    match e.k
    case VK(i) => 0 <= i < |s.c.k|
    case VNONRELOC(r) => 0 <= r < MAXREGS
    case VLOCAL(r) => 0 <= r < MAXREGS
    case VUPVAL(i) => 0 <= i < MAXUPVAL
    case VRELOCABLE(i) =>
      && 0 <= i == n - 1 && SetsA(s.c.ins[i]) && s.hs == [] && s.last <= i
      && (s.c.ins[i].OPCONCAT? ==> s.c.ins[i].B == base && base < s.c.ins[i].C)
    case VJMP(i) =>
      && 1 <= i == n - 1 && s.c.ins[i] == JMP(0, NO_JUMP) && s.c.ins[i - 1].COMPARE?
      && i in s.c.open && s.hs == [] && s.last <= i - 1
    case _ => true
  }

  /** The code that has run when the main value is about to be used. */
  function Core(c: Code, e: ExpDesc): Code
    requires 0 <= CoreLength(c, e)
  {
    Code(c.ins[..CoreLength(c, e)], c.k, if e.k.VJMP? then c.open - {e.k.info} else c.open)
  }

  function MainOf(S: Semantics, c: Code, e: ExpDesc): Main
    requires 0 <= CoreLength(c, e) && (e.k.VUPVAL? ==> 0 <= e.k.info)
  {
    match e.k
    case VNIL => MConst(Nil)
    case VTRUE => MConst(Bool(true))
    case VFALSE => MConst(Bool(false))
    case VK(i) => MConst(Kst(c.k, i))
    case VKFLT(x) => MConst(Flt(x))
    case VKINT(i) => MConst(Int(i))
    case VNONRELOC(r) => MReg(r)
    case VLOCAL(r) => MReg(r)
    case VUPVAL(i) => MConst(S.upvalue(i))
    case VRELOCABLE(_) => MInstr(c.ins[|c.ins| - 1])
    case VJMP(_) => MTest(c.ins[|c.ins| - 2])
  }

  // ----- runs

  /** The run reaches the current position. */
  predicate Arrives(out: Outcome, hs: seq<int>) {
    out.Fall? || (out.Jumped? && out.j in hs)
  }

  /** Registers below `base` keep their values, `w` excepted. */
  ghost predicate SameBelow(base: int, w: int, R: Regs, R2: Regs) {
    forall r :: 0 <= r < base && r != w ==> Get(R2, r) == Get(R, r)
  }

  /** The jump `j`, leaving with `R`, carries the value `v`: in the register its test
      would copy, or as the boolean the position in the list stands for. */
  predicate Carries(ins: seq<Instr>, j: int, R: Regs, v: Value) {
    if ProducesValue(ins, j) then Get(R, ins[j - 1].B) == v else v == Bool(Truthy(v))
  }

  /** Where a run of the core code may leave, and with what: through a true exit only when
      the expression is true, through a false exit only when it is false, both carrying
      its value; else at the end, where the main value is the value of the expression. */
  ghost predicate Result(S: Semantics, c: Code, hs: seq<int>, m: Main, x: Ctx, R: Regs, out: Outcome) {
    && !out.Stuck?
    && SameBelow(x.base, x.w, R, out.R)
    && var v := Eval(S, x.x, R);
       if out.Jumped? && out.j in x.ts then Truthy(v) && Carries(c.ins, out.j, out.R, v)
       else if out.Jumped? && out.j in x.fs then !Truthy(v) && Carries(c.ins, out.j, out.R, v)
       else Arrives(out, hs) && Holds(S, c.k, m, out.R, v)
  }

  /** One run from the start of the code: as before the expression if it left earlier,
      else a run of the expression from the registers it found. */
  ghost predicate FlowAt(S: Semantics, c: Code, hs: seq<int>, m: Main, x: Ctx, R0: Regs) {
    var out0 := Exec(S, x.s0.c, 0, R0);
    var out := Exec(S, c, 0, R0);
    if Arrives(out0, x.s0.hs) then Result(S, c, hs, m, x, out0.R, out) else out == out0
  }

  ghost predicate Flow(S: Semantics, c: Code, hs: seq<int>, m: Main, x: Ctx) {
    forall R0 :: FlowAt(S, c, hs, m, x, R0)
  }

  // ----- the open jumps

  /** The jumps that were open before the expression, other than those waiting for it. */
  ghost function Outer(x: Ctx): set<int> {
    x.s0.c.open - set j | j in x.s0.hs
  }

  ghost predicate Separate(s: Snap, x: Ctx) {
    && Disjoint(x.ts, x.fs) && Disjoint(x.ts, s.hs) && Disjoint(x.fs, s.hs)
    && (forall j :: j in x.ts || j in x.fs || j in s.hs ==> j !in Outer(x))
  }

  ghost predicate OpenOk(s: Snap, e: ExpDesc, x: Ctx) {
    && Separate(s, x)
    && (e.k.VJMP? ==> e.k.info !in x.ts && e.k.info !in x.fs && e.k.info !in Outer(x))
    && forall j :: j in s.c.open <==>
         j in Outer(x) || j in x.ts || j in x.fs || j in s.hs || (e.k.VJMP? && j == e.k.info)
  }

  /** The jump at `j` is untouched, and so is the test that controls it, if any. */
  predicate Keeps(ins: seq<Instr>, ins2: seq<Instr>, j: int) {
    && 0 <= j < |ins| && j < |ins2|
    && ins2[j] == ins[j]
    && (j > 0 ==> ins2[j - 1] == ins[j - 1] || (!TestMode(ins[j - 1]) && !TestMode(ins2[j - 1])))
  }

  /** The jumps that were open before the expression are untouched, with their tests. */
  ghost predicate OuterFrame(s: Snap, x: Ctx) {
    && x.s0.c.k <= s.c.k
    && forall j :: j in Outer(x) ==> Keeps(x.s0.c.ins, s.c.ins, j)
  }

  ghost predicate CtxOk(x: Ctx) {
    && SnapOk(x.s0)
    && x.nact <= x.base
    && LocalsBelow(x.x, x.nact)
  }

  ghost predicate Shape(s: Snap, e: ExpDesc, x: Ctx) {
    && SnapOk(s) && CtxOk(x)
    && KindOk(s, e, x.base)
    && IsList(s.c.ins, e.t, x.ts) && IsList(s.c.ins, e.f, x.fs)
    && OpenOk(s, e, x)
    && OuterFrame(s, x)
  }

  /** The invariant of expression compilation. */
  ghost predicate ExpOk(S: Semantics, s: Snap, e: ExpDesc, x: Ctx) {
    && Shape(s, e, x)
    && Flow(S, Core(s.c, e), s.hs, MainOf(S, s.c, e), x)
  }

  /** After an operand of `and` or `or`: the code goes on only when the operand has the
      truth value `b`, and leaves through a jump otherwise. */
  ghost predicate CondOk(S: Semantics, s: Snap, t: int, f: int, x: Ctx, b: bool) {
    && Shape(s, ExpDesc(VNIL, t, f), x)
    && Flow(S, s.c, s.hs, MCond(b), x)
  }

  // ----- running continued code

  function DischargedIns(s: Snap): seq<Instr> {
    Patched(s.c.ins, s.hs, |s.c.ins|, NO_REG, |s.c.ins|)
  }

  /** The state after the waiting jumps are sent to the current position. */
  function Discharged(s: Snap): Snap {
    Snap(Code(DischargedIns(s), s.c.k, s.c.open - set j | j in s.hs), [], s.last)
  }

  lemma EntryEnd(c: Code, last: int)
    requires WellFormed(c, last)
    ensures Entry(c.ins, |c.ins|)
  {
    if |c.ins| > 0 { assert WellFormedAt(c, last, |c.ins| - 1); }
  }

  predicate SameShape(i: Instr, i2: Instr) {
    TestMode(i2) == TestMode(i) && i2.LOADKX? == i.LOADKX?
  }

  lemma EntrySame(ins: seq<Instr>, ins2: seq<Instr>, p: int)
    requires |ins| <= |ins2| && forall q :: 0 <= q < |ins| ==> SameShape(ins[q], ins2[q])
    ensures Entry(ins, p) ==> Entry(ins2, p)
  {
    if 0 < p <= |ins| { assert SameShape(ins[p - 1], ins2[p - 1]); }
  }

  lemma DischargedAt(s: Snap, q: int)
    requires SnapOk(s) && 0 <= q < |s.c.ins|
    ensures var i, i2 := s.c.ins[q], Discharged(s).c.ins[q];
            && SameShape(i, i2)
            && (i.JMP? && q in s.hs ==> i2 == JumpTo(i, q, |s.c.ins|))
            && (i.TESTSET? && q + 1 in s.hs ==> i.A == NO_REG && i2 == TEST(i.B, i.C))
            && (!(i.JMP? && q in s.hs) && !(i.TESTSET? && q + 1 in s.hs) ==> i2 == i)
  {
    assert WellFormedAt(s.c, s.last, q);
    assert Discharged(s).c.ins[q] == PatchedAt(s.c.ins, s.hs, |s.c.ins|, NO_REG, |s.c.ins|, q);
  }

  lemma DischargedExtends(s: Snap)
    requires SnapOk(s)
    ensures Extends(s.c, Discharged(s).c)
  {
    forall q | 0 <= q < |s.c.ins| ensures ExtendsAt(s.c, Discharged(s).c, q) {
      DischargedAt(s, q);
    }
  }

  lemma DischargedOk(s: Snap)
    requires SnapOk(s)
    ensures SnapOk(Discharged(s))
  {
    var c2 := Discharged(s).c;
    EntryEnd(s.c, s.last);
    forall q | 0 <= q < |s.c.ins| ensures SameShape(s.c.ins[q], c2.ins[q]) { DischargedAt(s, q); }
    EntrySame(s.c.ins, c2.ins, |s.c.ins|);
    forall q | 0 <= q < |s.c.ins| ensures WellFormedAt(c2, s.last, q) {
      assert WellFormedAt(s.c, s.last, q);
      DischargedAt(s, q);
      if s.c.ins[q].JMP? { EntrySame(s.c.ins, c2.ins, Target(s.c.ins, q)); }
      EntrySame(s.c.ins, c2.ins, q + 2);
    }
    forall j | j in c2.open ensures 0 <= j < |c2.ins| && c2.ins[j].JMP? { DischargedAt(s, j); }
  }

  lemma DischargedExec(S: Semantics, s: Snap, R0: Regs)
    requires SnapOk(s)
    ensures var out := Exec(S, s.c, 0, R0);
            && !out.Stuck?
            && Exec(S, Discharged(s).c, 0, R0) == if Arrives(out, s.hs) then Fall(out.R) else out
  {
    var c2 := Discharged(s).c;
    DischargedExtends(s);
    Simulation(S, s.c, s.last, c2, 0, R0);
    OutcomeOpen(S, s.c, s.last, 0, R0);
    var out := Exec(S, s.c, 0, R0);
    if out.Jumped? {
      DischargedAt(s, out.j);
      if out.j > 0 { DischargedAt(s, out.j - 1); }
    }
  }

  /** A run leaves only through an open jump. */
  lemma {:induction false} OutcomeOpen(S: Semantics, c: Code, last: int, p: int, R: Regs)
    requires WellFormed(c, last) && Entry(c.ins, p)
    ensures Exec(S, c, p, R).Jumped? ==> Exec(S, c, p, R).j in c.open
    decreases |c.ins| - p
  {
    if p < |c.ins| {
      assert WellFormedAt(c, last, p);
      if TestMode(c.ins[p]) {
        assert WellFormedAt(c, last, p + 1);
        var i := c.ins[p];
        if !Accepts(S, c.k, i, R) {
          OutcomeOpen(S, c, last, p + 2, R);
        } else if p + 1 !in c.open {
          OutcomeOpen(S, c, last, Target(c.ins, p + 1),
                      if i.TESTSET? && i.A != NO_REG then R[i.A := Get(R, i.B)] else R);
        }
      } else if c.ins[p].JMP? {
        if p !in c.open { OutcomeOpen(S, c, last, Target(c.ins, p), R); }
      } else {
        PlainFrame(S, c, last, c, p, R);
        OutcomeOpen(S, c, last, PlainNext(c.ins, p), PlainRegs(S, c.k, c.ins, p, R));
      }
    }
  }

  /** `c2` is `c` followed by more instructions. */
  ghost predicate Appends(c: Code, c2: Code) {
    && |c.ins| <= |c2.ins| && c2.ins[..|c.ins|] == c.ins
    && c.k <= c2.k
    && forall j :: 0 <= j < |c.ins| ==> (j in c2.open <==> j in c.open)
  }

  lemma AppendExec(S: Semantics, c: Code, last: int, c2: Code, R0: Regs)
    requires WellFormed(c, last) && Appends(c, c2)
    ensures var out := Exec(S, c, 0, R0);
            && !out.Stuck?
            && Exec(S, c2, 0, R0) == if out.Fall? then Exec(S, c2, |c.ins|, out.R) else out
  {
    forall q | 0 <= q < |c.ins| ensures ExtendsAt(c, c2, q) {
      assert c2.ins[q] == c2.ins[..|c.ins|][q];
      assert WellFormedAt(c, last, q);
    }
    Simulation(S, c, last, c2, 0, R0);
    OutcomeOpen(S, c, last, 0, R0);
    var out := Exec(S, c, 0, R0);
    if out.Jumped? { assert c2.ins[out.j] == c2.ins[..|c.ins|][out.j]; }
  }

  /** Changes inside open jumps and their tests that do not close any of them do not
      change a run. */
  lemma RelinkedExec(S: Semantics, c: Code, last: int, c2: Code, R0: Regs)
    requires WellFormed(c, last) && Extends(c, c2)
    requires |c2.ins| == |c.ins| && c2.open == c.open
    ensures Exec(S, c2, 0, R0) == Exec(S, c, 0, R0) && !Exec(S, c, 0, R0).Stuck?
  {
    Simulation(S, c, last, c2, 0, R0);
    OutcomeOpen(S, c, last, 0, R0);
    var out := Exec(S, c, 0, R0);
    if out.Jumped? { assert ExtendsAt(c, c2, out.j); }
  }
}
