/** How each step of the expression compiler keeps the invariant of `ExprSpec`. */
module ExprLemmas {
  import opened LuaSyntax
  import opened LuaVm
  import opened JumpLists
  import opened ExprSpec

  function CoreSnap(s: Snap, e: ExpDesc): Snap
    requires 0 <= CoreLength(s.c, e)
  {
    Snap(Core(s.c, e), s.hs, s.last)
  }

  /** Without the instructions still to be fixed, the code is well formed too. */
  lemma CoreOk(s: Snap, e: ExpDesc, base: int)
    requires SnapOk(s) && KindOk(s, e, base)
    ensures SnapOk(CoreSnap(s, e))
  {
    var c := Core(s.c, e);
    EntryEnd(s.c, s.last);
    forall q | 0 <= q < |c.ins| ensures WellFormedAt(c, s.last, q) {
      assert WellFormedAt(s.c, s.last, q);
    }
    forall j | j in c.open ensures 0 <= j < |c.ins| && c.ins[j].JMP? {
      assert 0 <= j < |s.c.ins| && s.c.ins[j].JMP?;
      if e.k.VRELOCABLE? { assert SetsA(s.c.ins[e.k.info]); }
    }
  }

  /** `Shape` carries over to a later state that keeps the open jumps. */
  lemma ShapeStep(s: Snap, e: ExpDesc, x: Ctx, s2: Snap, e2: ExpDesc)
    requires Shape(s, e, x) && SnapOk(s2) && KindOk(s2, e2, x.base)
    requires e2.t == e.t && e2.f == e.f && s.c.k <= s2.c.k
    requires forall j :: j in Outer(x) || j in x.ts || j in x.fs ==> Keeps(s.c.ins, s2.c.ins, j)
    requires OpenOk(s2, e2, x)
    ensures Shape(s2, e2, x)
  {
    ListFrame(s.c.ins, s2.c.ins, e.t, x.ts);
    ListFrame(s.c.ins, s2.c.ins, e.f, x.fs);
    forall j | j in Outer(x) ensures Keeps(x.s0.c.ins, s2.c.ins, j) {
      assert Keeps(s.c.ins, s2.c.ins, j) && Keeps(x.s0.c.ins, s.c.ins, j);
    }
  }

  lemma DischargedKeeps(s: Snap, j: int)
    requires SnapOk(s) && j in s.c.open && j !in s.hs
    ensures Keeps(s.c.ins, DischargedIns(s), j)
  {
    DischargedAt(s, j);
    if j > 0 { DischargedAt(s, j - 1); }
  }

  // ----- growing the constant table

  lemma GrowOk(s: Snap, k2: seq<Value>)
    requires SnapOk(s) && s.c.k <= k2
    ensures SnapOk(s.(c := s.c.(k := k2)))
    ensures Extends(s.c, s.c.(k := k2))
  {
    var c2 := s.c.(k := k2);
    forall q | 0 <= q < |c2.ins| ensures WellFormedAt(c2, s.last, q) {
      assert WellFormedAt(s.c, s.last, q);
    }
  }

  /** New constants change nothing for an expression that is not pending in code. */
  lemma Grow(S: Semantics, s: Snap, e: ExpDesc, x: Ctx, k2: seq<Value>)
    requires ExpOk(S, s, e, x) && s.c.k <= k2
    requires !e.k.VRELOCABLE? && !e.k.VJMP?
    ensures ExpOk(S, s.(c := s.c.(k := k2)), e, x)
  {
    var s2 := s.(c := s.c.(k := k2));
    GrowOk(s, k2);
    ShapeStep(s, e, x, s2, e);
    assert Core(s.c, e) == s.c && Core(s2.c, e) == s2.c;
    forall R0 ensures FlowAt(S, s2.c, s2.hs, MainOf(S, s2.c, e), x, R0) {
      assert FlowAt(S, s.c, s.hs, MainOf(S, s.c, e), x, R0);
      RelinkedExec(S, s.c, s.last, s2.c, R0);
    }
  }

  // ----- sending the waiting jumps to the current position

  ghost predicate Exits(c: Code, hs: seq<int>, x: Ctx) {
    && (forall j :: j in x.ts || j in x.fs || j in Outer(x) ==> j in c.open && j !in hs)
  }

  lemma DischargedFlow(S: Semantics, s: Snap, m: Main, x: Ctx)
    requires SnapOk(s) && CtxOk(x) && Exits(s.c, s.hs, x)
    requires Flow(S, s.c, s.hs, m, x)
    ensures Flow(S, Discharged(s).c, [], m, x)
    ensures forall j :: j in Outer(x) || j in x.ts || j in x.fs ==> Keeps(s.c.ins, Discharged(s).c.ins, j)
  {
    var d := Discharged(s);
    forall j | j in Outer(x) || j in x.ts || j in x.fs ensures Keeps(s.c.ins, d.c.ins, j) {
      DischargedKeeps(s, j);
    }
    forall R0 ensures FlowAt(S, d.c, [], m, x, R0) {
      assert FlowAt(S, s.c, s.hs, m, x, R0);
      DischargedExec(S, s, R0);
      OutcomeOpen(S, x.s0.c, x.s0.last, 0, R0);
    }
  }

  // ----- putting the main value in a register

  ghost predicate LandsIn(out: Outcome, R: Regs, reg: int, v: Value) {
    && out.Fall?
    && Get(out.R, reg) == v
    && forall r :: r != reg ==> Get(out.R, r) == Get(R, r)
  }

  /** From position `n`, the code puts the main value `m` in `reg` and ends. */
  ghost predicate Loads(S: Semantics, c2: Code, n: int, m: Main, reg: int) {
    forall R, v :: Holds(S, c2.k, m, R, v) ==> LandsIn(Exec(S, c2, n, R), R, reg, v)
  }

  ghost predicate MayWrite(x: Ctx, reg: int) {
    0 <= reg < MAXREGS && (reg >= x.base || reg == x.w)
  }

  /** The code after the core of `e` puts its main value in `reg`. */
  lemma ToReg(S: Semantics, s: Snap, e: ExpDesc, x: Ctx, s2: Snap, reg: int)
    requires ExpOk(S, s, e, x) && !e.k.VJMP? && MayWrite(x, reg)
    requires SnapOk(s2) && s2.hs == [] && s2.c.k == s.c.k
    requires var d := Discharged(CoreSnap(s, e)).c;
             Appends(d, s2.c) && s2.c.open == d.open && Loads(S, s2.c, |d.ins|, MainOf(S, s.c, e), reg)
    ensures ExpOk(S, s2, ExpDesc(VNONRELOC(reg), e.t, e.f), x)
  {
    var e2 := ExpDesc(VNONRELOC(reg), e.t, e.f);
    var cs := CoreSnap(s, e);
    var d := Discharged(cs);
    CoreOk(s, e, x.base);
    DischargedOk(cs);
    DischargedFlow(S, cs, MainOf(S, s.c, e), x);
    forall j | j in Outer(x) || j in x.ts || j in x.fs ensures Keeps(s.c.ins, s2.c.ins, j) {
      assert Keeps(cs.c.ins, d.c.ins, j);
      assert s2.c.ins[j] == s2.c.ins[..|d.c.ins|][j];
      if j > 0 { assert s2.c.ins[j - 1] == s2.c.ins[..|d.c.ins|][j - 1]; }
    }
    ShapeStep(s, e, x, s2, e2);
    assert Core(s2.c, e2) == s2.c;
    forall R0 ensures FlowAt(S, s2.c, s2.hs, MReg(reg), x, R0) {
      assert FlowAt(S, d.c, [], MainOf(S, s.c, e), x, R0);
      ToRegAt(S, d, MainOf(S, s.c, e), x, s2, reg, R0);
    }
  }

  lemma ToRegAt(S: Semantics, d: Snap, m: Main, x: Ctx, s2: Snap, reg: int, R0: Regs)
    requires SnapOk(d) && d.hs == [] && CtxOk(x) && Exits(d.c, [], x) && MayWrite(x, reg)
    requires s2.hs == [] && Appends(d.c, s2.c) && s2.c.k == d.c.k && Loads(S, s2.c, |d.c.ins|, m, reg)
    requires FlowAt(S, d.c, [], m, x, R0)
    ensures FlowAt(S, s2.c, s2.hs, MReg(reg), x, R0)
  {
    AppendExec(S, d.c, d.last, s2.c, R0);
    var out0, out := Exec(S, x.s0.c, 0, R0), Exec(S, d.c, 0, R0);
    if Arrives(out0, x.s0.hs) {
      var v := Eval(S, x.x, out0.R);
      if out.Fall? {
        assert Holds(S, s2.c.k, m, out.R, v);
      } else {
        assert 0 <= out.j < |d.c.ins| && forall q :: 0 <= q < |d.c.ins| ==> s2.c.ins[..|d.c.ins|][q] == s2.c.ins[q];
        assert Carries(s2.c.ins, out.j, out.R, v) == Carries(d.c.ins, out.j, out.R, v);
      }
    }
  }

  ghost predicate PlainOperands(k: seq<Value>, i: Instr) {
    && (SetsA(i) || i.LOADNIL? || (i.LOADBOOL? && i.C == 0))
    && (i.LOADK? ==> 0 <= i.Bx < |k|)
    && (i.LOADNIL? ==> 0 <= i.B)
    && (i.ARITH? ==> RKInRange(k, i.B) && RKInRange(k, i.C))
  }

  function Emit(d: Snap, tail: seq<Instr>): Snap {
    Snap(Code(d.c.ins + tail, d.c.k, d.c.open), [], d.last)
  }

  lemma EmitPlainOk(d: Snap, i: Instr)
    requires SnapOk(d) && d.hs == [] && PlainOperands(d.c.k, i)
    ensures SnapOk(Emit(d, [i])) && Appends(d.c, Emit(d, [i]).c)
  {
    EmitKeepsOk(d, [i]);
    var c2 := Emit(d, [i]).c;
    assert WellFormedAt(c2, d.last, |d.c.ins|);
  }

  /** Instructions already there stay well formed when others follow. */
  lemma EmitKeepsOk(d: Snap, tail: seq<Instr>)
    requires SnapOk(d) && d.hs == []
    ensures var c2 := Emit(d, tail).c;
            && Appends(d.c, c2)
            && (forall j :: j in c2.open ==> 0 <= j < |c2.ins| && c2.ins[j].JMP?)
            && (forall q :: 0 <= q < |d.c.ins| ==> WellFormedAt(c2, d.last, q))
  {
    var c2 := Emit(d, tail).c;
    forall q | 0 <= q < |d.c.ins| ensures WellFormedAt(c2, d.last, q) {
      assert WellFormedAt(d.c, d.last, q);
    }
  }

  lemma LoadsPlain(S: Semantics, d: Snap, i: Instr, m: Main, reg: int)
    requires PlainOperands(d.c.k, i) && i.A == reg
    requires i.LOADNIL? ==> i.B == 0 && m == MConst(Nil)
    requires i.LOADBOOL? ==> m == MConst(Bool(i.B != 0))
    requires SetsA(i) ==> forall R, v :: Holds(S, d.c.k, m, R, v) ==> ValueOf(S, d.c.k, i, R) == v
    ensures Loads(S, Emit(d, [i]).c, |d.c.ins|, m, reg)
  {
    var c2 := Emit(d, [i]).c;
    var n := |d.c.ins|;
    forall R, v | Holds(S, c2.k, m, R, v) ensures LandsIn(Exec(S, c2, n, R), R, reg, v) {
      assert c2.ins[n] == i && Plain(c2.ins, n);
      assert Exec(S, c2, n, R) == Exec(S, c2, n + 1, PlainRegs(S, c2.k, c2.ins, n, R));
    }
  }

  /** The two-word form of a constant load. */
  lemma LoadsExtra(S: Semantics, d: Snap, reg: int, kx: int)
    requires SnapOk(d) && d.hs == [] && 0 <= kx < |d.c.k|
    ensures var s2 := Emit(d, [LOADKX(reg), EXTRAARG(kx)]);
            SnapOk(s2) && Appends(d.c, s2.c) && Loads(S, s2.c, |d.c.ins|, MConst(Kst(d.c.k, kx)), reg)
  {
    var tail := [LOADKX(reg), EXTRAARG(kx)];
    var c2 := Emit(d, tail).c;
    var n := |d.c.ins|;
    EmitKeepsOk(d, tail);
    assert c2.ins[n] == LOADKX(reg) && c2.ins[n + 1] == EXTRAARG(kx);
    assert WellFormedAt(c2, d.last, n) && WellFormedAt(c2, d.last, n + 1);
    forall R, v | Holds(S, c2.k, MConst(Kst(d.c.k, kx)), R, v) ensures LandsIn(Exec(S, c2, n, R), R, reg, v) {
      assert Exec(S, c2, n, R) == Exec(S, c2, n + 2, R[reg := Kst(c2.k, kx)]);
    }
  }

  // ----- merging a LOADNIL into the previous one

  predicate NilRangesConnect(pfrom: int, pl: int, from: int, l: int) {
    (pfrom <= from <= pl + 1) || (from <= pfrom <= l + 1)
  }

  ghost predicate Widens(s: Snap, s2: Snap, reg: int, prev: Instr, wide: Instr) {
    && 0 <= s.last < |s.c.ins| && s.c.ins[|s.c.ins| - 1] == prev
    && s2 == s.(c := s.c.(ins := s.c.ins[|s.c.ins| - 1 := wide]))
    && Wider(prev, wide, reg)
  }

  lemma LastNil(S: Semantics, c: Code, R: Regs)
    requires |c.ins| > 0 && c.ins[|c.ins| - 1].LOADNIL?
    ensures var i := c.ins[|c.ins| - 1];
            Exec(S, c, |c.ins| - 1, R) == Fall(SetNil(R, i.A, i.A + i.B))
  {
    var n := |c.ins| - 1;
    assert Plain(c.ins, n) && PlainNext(c.ins, n) == n + 1;
    assert Exec(S, c, n + 1, PlainRegs(S, c.k, c.ins, n, R)).Fall?;
  }

  /** The outcome once a final LOADNIL has run too. */
  function ThenNil(out: Outcome, i: Instr): Outcome
    requires i.LOADNIL?
  {
    if out.Fall? then Fall(SetNil(out.R, i.A, i.A + i.B)) else out
  }

  ghost predicate NilAdded(out: Outcome, out2: Outcome, reg: int) {
    if out.Fall? then LandsIn(out2, out.R, reg, Nil) else out2 == out
  }

  ghost predicate Wider(prev: Instr, wide: Instr, reg: int) {
    && prev.LOADNIL? && wide.LOADNIL? && prev.B >= 0
    && NilRangesConnect(prev.A, prev.A + prev.B, reg, reg)
    && wide.A == (if prev.A < reg then prev.A else reg)
    && wide.A + wide.B == (if prev.A + prev.B > reg then prev.A + prev.B else reg)
  }

  lemma WiderNil(out: Outcome, prev: Instr, wide: Instr, reg: int)
    requires Wider(prev, wide, reg)
    ensures NilAdded(ThenNil(out, prev), ThenNil(out, wide), reg)
  {
  }

  lemma RunLastNil(S: Semantics, cut: Code, last: int, c: Code, R0: Regs)
    requires WellFormed(cut, last) && Appends(cut, c) && |c.ins| == |cut.ins| + 1
    requires c.ins[|cut.ins|].LOADNIL?
    ensures !Exec(S, cut, 0, R0).Stuck?
    ensures Exec(S, c, 0, R0) == ThenNil(Exec(S, cut, 0, R0), c.ins[|cut.ins|])
  {
    AppendExec(S, cut, last, c, R0);
    LastNilAfter(S, c, Exec(S, cut, 0, R0), Exec(S, c, 0, R0));
  }

  lemma LastNilAfter(S: Semantics, c: Code, out: Outcome, out2: Outcome)
    requires |c.ins| > 0 && c.ins[|c.ins| - 1].LOADNIL? && !out.Stuck?
    requires out2 == if out.Fall? then Exec(S, c, |c.ins| - 1, out.R) else out
    ensures out2 == ThenNil(out, c.ins[|c.ins| - 1])
  {
    if out.Fall? { LastNil(S, c, out.R); }
  }

  lemma MergeNilRun(S: Semantics, s: Snap, s2: Snap, reg: int, prev: Instr, wide: Instr, R0: Regs)
    requires SnapOk(s) && Widens(s, s2, reg, prev, wide)
    ensures NilAdded(Exec(S, s.c, 0, R0), Exec(S, s2.c, 0, R0), reg)
  {
    var cut := s.c.(ins := s.c.ins[..|s.c.ins| - 1]);
    MergeNilOk(s, wide);
    var out := Exec(S, cut, 0, R0);
    assert Exec(S, s.c, 0, R0) == ThenNil(out, prev) by { RunLastNil(S, cut, s.last, s.c, R0); }
    assert Exec(S, s2.c, 0, R0) == ThenNil(out, wide) by { RunLastNil(S, cut, s.last, s2.c, R0); }
    WiderNil(out, prev, wide, reg);
  }

  /** Widening the last instruction, when it already sets adjacent registers to nil and
      nothing jumps to the current position, is emitting another one. */
  lemma MergeNil(S: Semantics, s: Snap, e: ExpDesc, x: Ctx, s2: Snap, reg: int, prev: Instr, wide: Instr)
    requires ExpOk(S, s, e, x) && e.k.VNIL? && MayWrite(x, reg)
    requires Widens(s, s2, reg, prev, wide)
    ensures ExpOk(S, s2, ExpDesc(VNONRELOC(reg), e.t, e.f), x)
  {
    var e2 := ExpDesc(VNONRELOC(reg), e.t, e.f);
    MergeNilOk(s, wide);
    ShapeStep(s, e, x, s2, e2);
    assert Core(s.c, e) == s.c && Core(s2.c, e2) == s2.c;
    forall R0 ensures FlowAt(S, s2.c, s2.hs, MReg(reg), x, R0) {
      assert FlowAt(S, s.c, s.hs, MConst(Nil), x, R0);
      MergeNilRun(S, s, s2, reg, prev, wide, R0);
      OutcomeOpen(S, x.s0.c, x.s0.last, 0, R0);
    }
  }

  lemma MergeNilOk(s: Snap, wide: Instr)
    requires SnapOk(s) && |s.c.ins| > s.last && wide.LOADNIL? && wide.B >= 0 && s.c.ins[|s.c.ins| - 1].LOADNIL?
    ensures var n := |s.c.ins|;
            var cut := s.c.(ins := s.c.ins[..n - 1]);
            var s2 := s.(c := s.c.(ins := s.c.ins[n - 1 := wide]));
            && SnapOk(s2) && s.hs == []
            && WellFormed(cut, s.last) && Appends(cut, s.c) && Appends(cut, s2.c)
            && forall j :: j in s.c.open ==> Keeps(s.c.ins, s2.c.ins, j)
  {
    var n := |s.c.ins|;
    var cut := s.c.(ins := s.c.ins[..n - 1]);
    var s2 := s.(c := s.c.(ins := s.c.ins[n - 1 := wide]));
    forall q | 0 <= q < n - 1 ensures WellFormedAt(cut, s.last, q) && WellFormedAt(s2.c, s.last, q) {
      assert WellFormedAt(s.c, s.last, q);
    }
    assert s.hs == [];
  }

  // ----- conditional jumps

  /** The test jumps exactly when the main value does not have the truth value `b`, and
      a jump it takes carries that value; where it does not jump, `m2` is the main value. */
  ghost predicate TestsMain(S: Semantics, k: seq<Value>, m: Main, t: Instr, b: bool, m2: Main) {
    && TestMode(t)
    && (t.TESTSET? ==> t.A == NO_REG)
    && (t.COMPARE? ==> RKInRange(k, t.B) && RKInRange(k, t.C))
    && forall R, v :: Holds(S, k, m, R, v) ==>
         && Accepts(S, k, t, R) == (Truthy(v) != b)
         && (if t.TESTSET? then Get(R, t.B) == v else Truthy(v) != b ==> v == Bool(Truthy(v)))
         && (Truthy(v) == b ==> Holds(S, k, m2, R, v))
  }

  /** The state after a test and its open jump. */
  function EmitTest(d: Snap, t: Instr): Snap {
    Snap(Code(d.c.ins + [t, JMP(0, NO_JUMP)], d.c.k, d.c.open + {|d.c.ins| + 1}), [], d.last)
  }

  lemma EmitTestOk(d: Snap, t: Instr)
    requires SnapOk(d) && d.hs == [] && TestMode(t) && (t.TESTSET? ==> t.A == NO_REG)
    requires t.COMPARE? ==> RKInRange(d.c.k, t.B) && RKInRange(d.c.k, t.C)
    ensures SnapOk(EmitTest(d, t)) && Appends(d.c, EmitTest(d, t).c)
  {
    var n := |d.c.ins|;
    var c2 := EmitTest(d, t).c;
    forall q | 0 <= q < |c2.ins| ensures WellFormedAt(c2, d.last, q) {
      if q < n { assert WellFormedAt(d.c, d.last, q); }
    }
  }

  lemma EmitTestExec(S: Semantics, d: Snap, t: Instr, R0: Regs)
    requires SnapOk(d) && d.hs == [] && TestMode(t) && (t.TESTSET? ==> t.A == NO_REG)
    requires t.COMPARE? ==> RKInRange(d.c.k, t.B) && RKInRange(d.c.k, t.C)
    ensures var out, n := Exec(S, d.c, 0, R0), |d.c.ins|;
            && !out.Stuck?
            && Exec(S, EmitTest(d, t).c, 0, R0) ==
               if out.Fall? then (if Accepts(S, d.c.k, t, out.R) then Jumped(n + 1, out.R) else Fall(out.R))
               else out
  {
    var n := |d.c.ins|;
    var c2 := EmitTest(d, t).c;
    EmitTestOk(d, t);
    AppendExec(S, d.c, d.last, c2, R0);
    var out := Exec(S, d.c, 0, R0);
    if out.Fall? {
      assert c2.ins[n] == t && c2.ins[n + 1] == JMP(0, NO_JUMP) && !Plain(c2.ins, n);
      if Accepts(S, d.c.k, t, out.R) {
        assert Exec(S, c2, n, out.R) == Leave(S, c2, n + 1, out.R);
      } else {
        assert Exec(S, c2, n, out.R) == Exec(S, c2, n + 2, out.R);
      }
    }
  }

  /** The context once the new jump `pc` joins the list of the exits taken when the
      expression does not have the truth value `b`. */
  function WithExit(x: Ctx, pc: int, b: bool): Ctx {
    if b then x.(fs := x.fs + [pc]) else x.(ts := x.ts + [pc])
  }

  /** Testing the main value leaves code that goes on only when it is `b`. */
  lemma TestKeeps(s: Snap, e: ExpDesc, x: Ctx, t: Instr)
    requires Shape(s, e, x)
    ensures var s2 := EmitTest(Discharged(CoreSnap(s, e)), t);
      forall j :: j in Outer(x) || j in x.ts || j in x.fs ==> Keeps(s.c.ins, s2.c.ins, j)
  {
    var cs := CoreSnap(s, e);
    var d := Discharged(cs);
    CoreOk(s, e, x.base);
    DischargedOk(cs);
    forall j | j in Outer(x) || j in x.ts || j in x.fs ensures Keeps(s.c.ins, EmitTest(d, t).c.ins, j) {
      assert Keeps(cs.c.ins, d.c.ins, j);
    }
  }

  lemma TestFlow(S: Semantics, s: Snap, e: ExpDesc, x: Ctx, t: Instr, b: bool, m2: Main)
    requires ExpOk(S, s, e, x)
    requires TestsMain(S, s.c.k, MainOf(S, s.c, e), t, b, m2)
    ensures var d := Discharged(CoreSnap(s, e));
            var s2 := EmitTest(d, t);
            && SnapOk(s2)
            && Flow(S, s2.c, [], m2, WithExit(x, |d.c.ins| + 1, b))
            && forall j :: j in Outer(x) || j in x.ts || j in x.fs ==> Keeps(s.c.ins, s2.c.ins, j)
  {
    var cs := CoreSnap(s, e);
    var d := Discharged(cs);
    var s2 := EmitTest(d, t);
    CoreOk(s, e, x.base);
    DischargedOk(cs);
    EmitTestOk(d, t);
    DischargedFlow(S, cs, MainOf(S, s.c, e), x);
    TestKeeps(s, e, x, t);
    var x2 := WithExit(x, |d.c.ins| + 1, b);
    forall R0 ensures FlowAt(S, s2.c, [], m2, x2, R0) {
      assert FlowAt(S, d.c, [], MainOf(S, s.c, e), x, R0);
      TestFlowAt(S, d, MainOf(S, s.c, e), x, t, b, m2, R0);
    }
  }

  lemma TestFlowAt(S: Semantics, d: Snap, m: Main, x: Ctx, t: Instr, b: bool, m2: Main, R0: Regs)
    requires SnapOk(d) && d.hs == [] && CtxOk(x) && Exits(d.c, [], x)
    requires FlowAt(S, d.c, [], m, x, R0) && TestsMain(S, d.c.k, m, t, b, m2)
    ensures FlowAt(S, EmitTest(d, t).c, [], m2, WithExit(x, |d.c.ins| + 1, b), R0)
  {
    var x2 := WithExit(x, |d.c.ins| + 1, b);
    var s2 := EmitTest(d, t);
    EmitTestExec(S, d, t, R0);
    var out0, out := Exec(S, x.s0.c, 0, R0), Exec(S, d.c, 0, R0);
    assert Outer(x2) == Outer(x);
    if Arrives(out0, x.s0.hs) {
      var v := Eval(S, x.x, out0.R);
      if out.Fall? {
        assert Holds(S, d.c.k, m, out.R, v);
        assert |d.c.ins| + 1 !in d.c.open;
        assert s2.c.ins[|d.c.ins|] == t;
      } else {
        assert 0 <= out.j < |d.c.ins|;
        assert Carries(s2.c.ins, out.j, out.R, v) == Carries(d.c.ins, out.j, out.R, v);
      }
    }
  }

  // ----- relinking, and moving a list to the current position

  /** Only links of open jumps differ. */
  ghost predicate Relinked(c: Code, c2: Code) {
    && |c2.ins| == |c.ins| && c2.k == c.k && c2.open == c.open
    && forall q :: 0 <= q < |c.ins| ==>
         c2.ins[q] == c.ins[q] || (q in c.open && c.ins[q].JMP? && c2.ins[q].JMP?)
  }

  lemma RelinkedOk(s: Snap, c2: Code)
    requires SnapOk(s) && Relinked(s.c, c2)
    ensures SnapOk(s.(c := c2)) && Extends(s.c, c2)
    ensures forall j :: 0 <= j < |s.c.ins| && c2.ins[j] == s.c.ins[j] ==> Keeps(s.c.ins, c2.ins, j)
  {
    forall q | 0 <= q < |s.c.ins| ensures SameShape(s.c.ins[q], c2.ins[q]) { }
    forall q | 0 <= q < |s.c.ins| ensures WellFormedAt(c2, s.last, q) && ExtendsAt(s.c, c2, q) {
      assert WellFormedAt(s.c, s.last, q);
      if s.c.ins[q].JMP? && q !in s.c.open { EntrySame(s.c.ins, c2.ins, Target(s.c.ins, q)); }
      EntrySame(s.c.ins, c2.ins, q + 2);
    }
  }

  lemma RelinkedFlow(S: Semantics, s: Snap, c2: Code, hs: seq<int>, m: Main, x: Ctx)
    requires SnapOk(s) && Relinked(s.c, c2) && CtxOk(x)
    requires Flow(S, s.c, hs, m, x)
    requires forall j :: j in x.ts || j in x.fs ==> j in s.c.open
    ensures Flow(S, c2, hs, m, x)
  {
    RelinkedOk(s, c2);
    forall j, R, v | j in x.ts || j in x.fs
      ensures Carries(c2.ins, j, R, v) == Carries(s.c.ins, j, R, v)
    {
      assert 0 <= j < |s.c.ins|;
    }
    forall R0 ensures FlowAt(S, c2, hs, m, x, R0) {
      assert FlowAt(S, s.c, hs, m, x, R0);
      RelinkedExec(S, s.c, s.last, c2, R0);
    }
  }

  /** Once only the truth of the expression matters, its exits of that truth value may
      join the jumps to the current position. */
  lemma ExitsToHere(S: Semantics, c: Code, hs: seq<int>, x: Ctx, b: bool, hs2: seq<int>)
    requires Flow(S, c, hs, MCond(b), x)
    requires forall j :: j in hs2 <==> j in hs || j in (if b then x.ts else x.fs)
    requires Disjoint(x.ts, x.fs)
    ensures Flow(S, c, hs2, MCond(b), if b then x.(ts := []) else x.(fs := []))
  {
    var x2 := if b then x.(ts := []) else x.(fs := []);
    forall R0 ensures FlowAt(S, c, hs2, MCond(b), x2, R0) {
      assert FlowAt(S, c, hs, MCond(b), x, R0);
    }
  }

  // ----- the final value in a register

  /** What follows the code of an expression whose jumps are about to be patched: nothing,
      when every test in its lists produces the value; else the two boolean loads, with a
      jump around them unless the expression ends in a comparison. */
  ghost predicate TailForm(s: Snap, m: Main, x: Ctx, reg: int, tail: seq<Instr>, pf: int, pt: int, hs2: seq<int>) {
    var n := |s.c.ins|;
    || (tail == [] && m == MReg(reg)
        && (forall j :: j in x.ts || j in x.fs ==> ProducesValue(s.c.ins, j))
        && (forall j :: j in hs2 <==> j in s.hs))
    || (|tail| == 3 && tail[0].JMP? && tail[1..] == [LOADBOOL(reg, 0, 1), LOADBOOL(reg, 1, 0)]
        && m == MReg(reg) && pf == n + 1 && pt == n + 2
        && (forall j :: j in hs2 <==> j in s.hs || j == n))
    || (tail == [LOADBOOL(reg, 0, 1), LOADBOOL(reg, 1, 0)]
        && m == MConst(Bool(false)) && pf == n && pt == n + 1 && s.hs == [] && hs2 == [])
  }

  function Final(s: Snap, x: Ctx, reg: int, tail: seq<Instr>, pf: int, pt: int, hs2: seq<int>): Snap {
    var ins := s.c.ins + tail;
    var end := |ins|;
    Snap(Code(Patched(Patched(ins, x.fs, end, reg, pf), x.ts, end, reg, pt), s.c.k,
              s.c.open + (if |tail| == 3 then {|s.c.ins|} else {}) - (set j | j in x.ts) - (set j | j in x.fs)),
         hs2, end)
  }

  /** One instruction of the patched code. */
  lemma FinalAt(s: Snap, x: Ctx, reg: int, tail: seq<Instr>, pf: int, pt: int, hs2: seq<int>, q: int)
    requires 0 <= q < |s.c.ins| + |tail| && Disjoint(x.ts, x.fs)
    requires forall j :: j in x.ts || j in x.fs ==> 0 <= j < |s.c.ins| && s.c.ins[j].JMP?
    ensures var ins := s.c.ins + tail;
            var i, i2 := ins[q], Final(s, x, reg, tail, pf, pt, hs2).c.ins[q];
            && SameShape(i, i2)
            && (i.JMP? && q in x.fs ==> i2 == JumpTo(i, q, if ProducesValue(ins, q) then |ins| else pf))
            && (i.JMP? && q in x.ts ==> i2 == JumpTo(i, q, if ProducesValue(ins, q) then |ins| else pt))
            && (i.TESTSET? && (q + 1 in x.fs || q + 1 in x.ts) ==> i2 == PatchTest(i, reg))
            && (!(i.JMP? && (q in x.fs || q in x.ts)) && !(i.TESTSET? && (q + 1 in x.fs || q + 1 in x.ts)) ==> i2 == i)
  {
    var ins := s.c.ins + tail;
    var p := Patched(ins, x.fs, |ins|, reg, pf);
    assert p[q] == PatchedAt(ins, x.fs, |ins|, reg, pf, q);
    assert Final(s, x, reg, tail, pf, pt, hs2).c.ins[q] == PatchedAt(p, x.ts, |ins|, reg, pt, q);
    if q > 0 { assert p[q - 1] == PatchedAt(ins, x.fs, |ins|, reg, pf, q - 1); }
  }

  lemma FinalExtends(s: Snap, m: Main, x: Ctx, reg: int, tail: seq<Instr>, pf: int, pt: int, hs2: seq<int>)
    requires SnapOk(s) && Exits(s.c, s.hs, x) && Disjoint(x.ts, x.fs) && 0 <= reg < MAXREGS
    requires TailForm(s, m, x, reg, tail, pf, pt, hs2)
    ensures Extends(s.c, Final(s, x, reg, tail, pf, pt, hs2).c)
  {
    var c2 := Final(s, x, reg, tail, pf, pt, hs2).c;
    var ins := s.c.ins + tail;
    forall q | 0 <= q < |s.c.ins| ensures ExtendsAt(s.c, c2, q) {
      assert WellFormedAt(s.c, s.last, q);
      FinalAt(s, x, reg, tail, pf, pt, hs2, q);
      assert ins[q] == s.c.ins[q];
    }
  }

  /** Every entry position of the code stays one, and so is every position after it. */
  lemma FinalEntry(s: Snap, m: Main, x: Ctx, reg: int, tail: seq<Instr>, pf: int, pt: int, hs2: seq<int>, p: int)
    requires SnapOk(s) && Exits(s.c, s.hs, x) && Disjoint(x.ts, x.fs)
    requires TailForm(s, m, x, reg, tail, pf, pt, hs2)
    requires Entry(s.c.ins, p) || |s.c.ins| <= p <= |s.c.ins| + |tail|
    ensures Entry(Final(s, x, reg, tail, pf, pt, hs2).c.ins, p)
  {
    EntryEnd(s.c, s.last);
    var ins := s.c.ins + tail;
    if p > 0 {
      FinalAt(s, x, reg, tail, pf, pt, hs2, p - 1);
      assert p - 1 < |s.c.ins| ==> ins[p - 1] == s.c.ins[p - 1];
    }
  }

  lemma FinalJumpOk(s: Snap, m: Main, x: Ctx, reg: int, tail: seq<Instr>, pf: int, pt: int, hs2: seq<int>, q: int)
    requires SnapOk(s) && Exits(s.c, s.hs, x) && Disjoint(x.ts, x.fs) && 0 <= reg < MAXREGS
    requires TailForm(s, m, x, reg, tail, pf, pt, hs2) && 0 <= q < |s.c.ins| && s.c.ins[q].JMP?
    ensures WellFormedAt(Final(s, x, reg, tail, pf, pt, hs2).c, |s.c.ins| + |tail|, q)
  {
    var s2 := Final(s, x, reg, tail, pf, pt, hs2);
    var ins := s.c.ins + tail;
    assert ins[q] == s.c.ins[q] && WellFormedAt(s.c, s.last, q);
    FinalAt(s, x, reg, tail, pf, pt, hs2, q);
    if q !in s.c.open {
      FinalEntry(s, m, x, reg, tail, pf, pt, hs2, Target(s.c.ins, q));
    } else if q in x.ts || q in x.fs {
      assert ProducesValue(ins, q) == ProducesValue(s.c.ins, q);
      FinalEntry(s, m, x, reg, tail, pf, pt, hs2, Target(s2.c.ins, q));
    }
  }

  lemma FinalAtOk(s: Snap, m: Main, x: Ctx, reg: int, tail: seq<Instr>, pf: int, pt: int, hs2: seq<int>, q: int)
    requires SnapOk(s) && Exits(s.c, s.hs, x) && Disjoint(x.ts, x.fs) && 0 <= reg < MAXREGS
    requires TailForm(s, m, x, reg, tail, pf, pt, hs2) && 0 <= q < |s.c.ins|
    ensures WellFormedAt(Final(s, x, reg, tail, pf, pt, hs2).c, |s.c.ins| + |tail|, q)
  {
    var s2 := Final(s, x, reg, tail, pf, pt, hs2);
    var i, n, ins := s.c.ins[q], |s.c.ins|, s.c.ins + tail;
    assert ins[q] == i && WellFormedAt(s.c, s.last, q);
    FinalAt(s, x, reg, tail, pf, pt, hs2, q);
    if i.JMP? {
      FinalJumpOk(s, m, x, reg, tail, pf, pt, hs2, q);
    } else if TestMode(i) {
      assert q + 1 < n && ins[q + 1] == s.c.ins[q + 1] && s.c.ins[q + 1].JMP?;
      FinalAt(s, x, reg, tail, pf, pt, hs2, q + 1);
    } else {
      FinalPlainOk(s, m, x, reg, tail, pf, pt, hs2, q);
    }
  }

  lemma FinalPlainOk(s: Snap, m: Main, x: Ctx, reg: int, tail: seq<Instr>, pf: int, pt: int, hs2: seq<int>, q: int)
    requires SnapOk(s) && Exits(s.c, s.hs, x) && Disjoint(x.ts, x.fs) && 0 <= reg < MAXREGS
    requires TailForm(s, m, x, reg, tail, pf, pt, hs2) && 0 <= q < |s.c.ins|
    requires !s.c.ins[q].JMP? && !TestMode(s.c.ins[q])
    ensures WellFormedAt(Final(s, x, reg, tail, pf, pt, hs2).c, |s.c.ins| + |tail|, q)
  {
    var i := s.c.ins[q];
    assert (s.c.ins + tail)[q] == i && WellFormedAt(s.c, s.last, q);
    FinalAt(s, x, reg, tail, pf, pt, hs2, q);
    if i.LOADKX? {
      FinalAt(s, x, reg, tail, pf, pt, hs2, q + 1);
    } else if i.EXTRAARG? {
      FinalAt(s, x, reg, tail, pf, pt, hs2, q - 1);
    } else if i.LOADBOOL? && i.C != 0 {
      FinalEntry(s, m, x, reg, tail, pf, pt, hs2, q + 2);
    }
  }

  /** The jump over the loads is open, and the first load skips the second. */
  lemma FinalTailOk(s: Snap, m: Main, x: Ctx, reg: int, tail: seq<Instr>, pf: int, pt: int, hs2: seq<int>, q: int)
    requires SnapOk(s) && Exits(s.c, s.hs, x) && Disjoint(x.ts, x.fs) && 0 <= reg < MAXREGS
    requires TailForm(s, m, x, reg, tail, pf, pt, hs2) && |s.c.ins| <= q < |s.c.ins| + |tail|
    ensures WellFormedAt(Final(s, x, reg, tail, pf, pt, hs2).c, |s.c.ins| + |tail|, q)
  {
    var n := |s.c.ins|;
    FinalAt(s, x, reg, tail, pf, pt, hs2, q);
    FinalEntry(s, m, x, reg, tail, pf, pt, hs2, n + |tail|);
    assert (s.c.ins + tail)[q] == tail[q - n];
    if |tail| == 3 && q > n { assert tail[q - n] == tail[1..][q - n - 1]; }
  }

  lemma FinalOk(s: Snap, m: Main, x: Ctx, reg: int, tail: seq<Instr>, pf: int, pt: int, hs2: seq<int>)
    requires SnapOk(s) && Exits(s.c, s.hs, x) && Disjoint(x.ts, x.fs) && 0 <= reg < MAXREGS
    requires TailForm(s, m, x, reg, tail, pf, pt, hs2)
    ensures SnapOk(Final(s, x, reg, tail, pf, pt, hs2))
  {
    var s2 := Final(s, x, reg, tail, pf, pt, hs2);
    var n, end, ins := |s.c.ins|, |s.c.ins| + |tail|, s.c.ins + tail;
    forall q | 0 <= q < end ensures WellFormedAt(s2.c, end, q) {
      if q < n {
        FinalAtOk(s, m, x, reg, tail, pf, pt, hs2, q);
      } else {
        FinalTailOk(s, m, x, reg, tail, pf, pt, hs2, q);
      }
    }
    forall j | j in s2.c.open ensures 0 <= j < end && s2.c.ins[j].JMP? {
      FinalAt(s, x, reg, tail, pf, pt, hs2, j);
    }
  }

  /** Running the tail of the patched code: from its start, and from its two loads. */
  lemma FinalTailExec(S: Semantics, s: Snap, m: Main, x: Ctx, reg: int, tail: seq<Instr>, pf: int, pt: int,
                      hs2: seq<int>, R: Regs)
    requires SnapOk(s) && Exits(s.c, s.hs, x) && Disjoint(x.ts, x.fs)
    requires TailForm(s, m, x, reg, tail, pf, pt, hs2)
    ensures var s2, n, end := Final(s, x, reg, tail, pf, pt, hs2), |s.c.ins|, |s.c.ins| + |tail|;
            && (|tail| == 0 ==> Exec(S, s2.c, n, R) == Fall(R))
            && (|tail| == 3 ==> Exec(S, s2.c, n, R) == Jumped(n, R))
            && (|tail| > 0 ==> Exec(S, s2.c, pf, R) == Fall(R[reg := Bool(false)]))
            && (|tail| > 0 ==> Exec(S, s2.c, pt, R) == Fall(R[reg := Bool(true)]))
  {
    var s2, n, ins := Final(s, x, reg, tail, pf, pt, hs2), |s.c.ins|, s.c.ins + tail;
    if |tail| > 0 {
      FinalAt(s, x, reg, tail, pf, pt, hs2, pf);
      FinalAt(s, x, reg, tail, pf, pt, hs2, pt);
      FinalAt(s, x, reg, tail, pf, pt, hs2, n);
      assert tail[|tail| - 2] == LOADBOOL(reg, 0, 1) && tail[|tail| - 1] == LOADBOOL(reg, 1, 0);
      assert ins[pf] == LOADBOOL(reg, 0, 1) && ins[pt] == LOADBOOL(reg, 1, 0);
      assert s2.c.ins[pf] == LOADBOOL(reg, 0, 1) && s2.c.ins[pt] == LOADBOOL(reg, 1, 0);
      assert Plain(s2.c.ins, pf) && PlainNext(s2.c.ins, pf) == |s2.c.ins|;
      assert Plain(s2.c.ins, pt) && PlainNext(s2.c.ins, pt) == |s2.c.ins|;
      if |tail| == 3 {
        assert ins[n].JMP? && n !in x.ts && n !in x.fs;
        assert n in s2.c.open;
      }
    }
  }

  /** A patched exit: its destination and what its test has become. */
  lemma FinalExitAt(s: Snap, m: Main, x: Ctx, reg: int, tail: seq<Instr>, pf: int, pt: int, hs2: seq<int>, j: int)
    requires SnapOk(s) && Exits(s.c, s.hs, x) && Disjoint(x.ts, x.fs) && 0 <= reg < MAXREGS
    requires TailForm(s, m, x, reg, tail, pf, pt, hs2)
    requires j in x.ts || j in x.fs
    ensures var s2, ins := Final(s, x, reg, tail, pf, pt, hs2), s.c.ins + tail;
            && 0 <= j < |s.c.ins| && s2.c.ins[j].JMP? && j !in s2.c.open
            && (if ProducesValue(s.c.ins, j)
                then Target(s2.c.ins, j) == |ins| && s2.c.ins[j - 1] == PatchTest(s.c.ins[j - 1], reg)
                else |tail| > 0 && Target(s2.c.ins, j) == (if j in x.fs then pf else pt)
                     && (j > 0 ==> !s2.c.ins[j - 1].TESTSET?))
  {
    var s2, ins := Final(s, x, reg, tail, pf, pt, hs2), s.c.ins + tail;
    assert WellFormedAt(s.c, s.last, j);
    FinalAt(s, x, reg, tail, pf, pt, hs2, j);
    assert ins[j] == s.c.ins[j] && ProducesValue(ins, j) == ProducesValue(s.c.ins, j);
    if j > 0 {
      assert WellFormedAt(s.c, s.last, j - 1);
      FinalAt(s, x, reg, tail, pf, pt, hs2, j - 1);
      assert ins[j - 1] == s.c.ins[j - 1];
    }
  }

  /** Where a run continues after leaving through one of the patched lists: at the end,
      with the value the exit carries in `reg`. */
  lemma FinalExitExec(S: Semantics, s: Snap, m: Main, x: Ctx, reg: int, tail: seq<Instr>, pf: int, pt: int,
                      hs2: seq<int>, j: int, R: Regs, v: Value)
    requires SnapOk(s) && Exits(s.c, s.hs, x) && Disjoint(x.ts, x.fs) && 0 <= reg < MAXREGS
    requires TailForm(s, m, x, reg, tail, pf, pt, hs2)
    requires j in x.ts || j in x.fs
    requires Truthy(v) == (j in x.ts) && Carries(s.c.ins, j, R, v)
    ensures LandsIn(Continue(S, Final(s, x, reg, tail, pf, pt, hs2).c, |s.c.ins|, Jumped(j, R)), R, reg, v)
  {
    FinalExitAt(s, m, x, reg, tail, pf, pt, hs2, j);
    var c2 := Final(s, x, reg, tail, pf, pt, hs2).c;
    if ProducesValue(s.c.ins, j) {
      assert Exec(S, c2, |c2.ins|, AtTarget(c2, j, R)).Fall?;
    } else {
      FinalTailExec(S, s, m, x, reg, tail, pf, pt, hs2, R);
      assert AtTarget(c2, j, R) == R;
    }
  }

  lemma FinalFlowAt(S: Semantics, s: Snap, m: Main, x: Ctx, reg: int, tail: seq<Instr>, pf: int, pt: int,
                    hs2: seq<int>, R0: Regs)
    requires SnapOk(s) && CtxOk(x) && Exits(s.c, s.hs, x) && Separate(s, x) && MayWrite(x, reg)
    requires TailForm(s, m, x, reg, tail, pf, pt, hs2)
    requires FlowAt(S, s.c, s.hs, m, x, R0)
    ensures FlowAt(S, Final(s, x, reg, tail, pf, pt, hs2).c, hs2, MReg(reg), x.(ts := [], fs := []), R0)
  {
    var s2, x2 := Final(s, x, reg, tail, pf, pt, hs2), x.(ts := [], fs := []);
    FinalExtends(s, m, x, reg, tail, pf, pt, hs2);
    Simulation(S, s.c, s.last, s2.c, 0, R0);
    OutcomeOpen(S, s.c, s.last, 0, R0);
    OutcomeOpen(S, x.s0.c, x.s0.last, 0, R0);
    var out0, out := Exec(S, x.s0.c, 0, R0), Exec(S, s.c, 0, R0);
    if out.Fall? { FinalTailExec(S, s, m, x, reg, tail, pf, pt, hs2, out.R); }
    if out.Jumped? { FinalAt(s, x, reg, tail, pf, pt, hs2, out.j); }
    if Arrives(out0, x.s0.hs) {
      var v := Eval(S, x.x, out0.R);
      if out.Jumped? && (out.j in x.ts || out.j in x.fs) {
        FinalExitExec(S, s, m, x, reg, tail, pf, pt, hs2, out.j, out.R, v);
      }
    }
  }

  /** All the code of the expression is there and its main value is `m`; its exits are
      still open. */
  ghost predicate Ready(S: Semantics, s: Snap, m: Main, x: Ctx) {
    && SnapOk(s) && CtxOk(x) && Separate(s, x) && OuterFrame(s, x)
    && (forall j :: j in s.c.open <==> j in Outer(x) || j in x.ts || j in x.fs || j in s.hs)
    && Flow(S, s.c, s.hs, m, x)
  }

  /** Patching the two lists after the main value puts the value of the expression in
      `reg`, whichever way the expression was left. */
  lemma FinalFlow(S: Semantics, s: Snap, m: Main, x: Ctx, reg: int, tail: seq<Instr>, pf: int, pt: int, hs2: seq<int>)
    requires Ready(S, s, m, x) && MayWrite(x, reg)
    requires TailForm(s, m, x, reg, tail, pf, pt, hs2)
    ensures ExpOk(S, Final(s, x, reg, tail, pf, pt, hs2), ExpDesc(VNONRELOC(reg), NO_JUMP, NO_JUMP),
                  x.(ts := [], fs := []))
  {
    var s2, x2 := Final(s, x, reg, tail, pf, pt, hs2), x.(ts := [], fs := []);
    var e2 := ExpDesc(VNONRELOC(reg), NO_JUMP, NO_JUMP);
    FinalOk(s, m, x, reg, tail, pf, pt, hs2);
    assert Outer(x2) == Outer(x);
    forall j | j in Outer(x2) ensures Keeps(x.s0.c.ins, s2.c.ins, j) {
      assert Keeps(x.s0.c.ins, s.c.ins, j);
      FinalAt(s, x, reg, tail, pf, pt, hs2, j);
      if j > 0 { FinalAt(s, x, reg, tail, pf, pt, hs2, j - 1); }
      assert (s.c.ins + tail)[j] == s.c.ins[j];
    }
    assert Core(s2.c, e2) == s2.c;
    forall R0 ensures FlowAt(S, s2.c, hs2, MReg(reg), x2, R0) {
      assert FlowAt(S, s.c, s.hs, m, x, R0);
      FinalFlowAt(S, s, m, x, reg, tail, pf, pt, hs2, R0);
    }
  }

  // ----- expressions that need no code yet

  /** A constant, a local variable or an upvalue, just read. */
  ghost predicate Denotes(S: Semantics, k: seq<Value>, e: ExpDesc, y: Expr) {
    match e.k
    case VNIL => y == Const(Nil)
    case VTRUE => y == Const(Bool(true))
    case VFALSE => y == Const(Bool(false))
    case VK(i) => y == Const(Kst(k, i))
    case VKFLT(x) => y == Const(Flt(x))
    case VKINT(i) => y == Const(Int(i))
    case VNONRELOC(r) => 0 <= r && y == Local(r)
    case VLOCAL(r) => 0 <= r && y == Local(r)
    case VUPVAL(i) => 0 <= i && y == Upval(i)
    case _ => false
  }

  /** `s2` is the state `x` starts from, with perhaps more constants. */
  lemma Fresh(S: Semantics, s2: Snap, e: ExpDesc, x: Ctx)
    requires SnapOk(s2) && CtxOk(x) && KindOk(s2, e, x.base) && Denotes(S, s2.c.k, e, x.x)
    requires x.s0.c.k <= s2.c.k && s2 == x.s0.(c := x.s0.c.(k := s2.c.k))
    requires x.ts == [] && x.fs == [] && e.t == NO_JUMP && e.f == NO_JUMP
    ensures ExpOk(S, s2, e, x)
  {
    var s := x.s0;
    assert Core(s2.c, e) == s2.c;
    GrowOk(s, s2.c.k);
    forall j | j in Outer(x) ensures Keeps(s.c.ins, s2.c.ins, j) { assert 0 <= j < |s.c.ins|; }
    forall R0 ensures FlowAt(S, s2.c, s2.hs, MainOf(S, s2.c, e), x, R0) {
      RelinkedExec(S, s.c, s.last, s2.c, R0);
      OutcomeOpen(S, s.c, s.last, 0, R0);
    }
  }

  // ----- a value about to be computed by one more instruction

  /** Emitting an instruction whose register is still to be chosen leaves the code
      before it as the core. */
  lemma PendShape(S: Semantics, s: Snap, e: ExpDesc, x: Ctx, i: Instr, m: Main)
    requires Shape(s, e, x) && !e.k.VRELOCABLE? && !e.k.VJMP?
    requires SetsA(i) && PlainOperands(s.c.k, i) && (i.OPCONCAT? ==> i.B == x.base && x.base < i.C)
    requires Flow(S, s.c, s.hs, m, x)
    ensures var s2, e2 := Emit(Discharged(s), [i]), ExpDesc(VRELOCABLE(|s.c.ins|), e.t, e.f);
            Shape(s2, e2, x) && s2.hs == [] && Flow(S, Core(s2.c, e2), [], m, x)
  {
    var d := Discharged(s);
    var s2 := Emit(d, [i]);
    var e2 := ExpDesc(VRELOCABLE(|s.c.ins|), e.t, e.f);
    DischargedOk(s);
    EmitPlainOk(d, i);
    DischargedFlow(S, s, m, x);
    forall j | j in Outer(x) || j in x.ts || j in x.fs ensures Keeps(s.c.ins, s2.c.ins, j) {
      assert Keeps(s.c.ins, d.c.ins, j);
    }
    ShapeStep(s, e, x, s2, e2);
    assert Core(s2.c, e2).ins == d.c.ins;
    assert Core(s2.c, e2) == d.c;
  }

  /** Emitting the instruction delays the value it computes. */
  lemma PendInstr(S: Semantics, s: Snap, e: ExpDesc, x: Ctx, i: Instr)
    requires Shape(s, e, x) && !e.k.VRELOCABLE? && !e.k.VJMP?
    requires SetsA(i) && PlainOperands(s.c.k, i) && (i.OPCONCAT? ==> i.B == x.base && x.base < i.C)
    requires Flow(S, s.c, s.hs, MInstr(i), x)
    ensures ExpOk(S, Emit(Discharged(s), [i]), ExpDesc(VRELOCABLE(|s.c.ins|), e.t, e.f), x)
  {
    PendShape(S, s, e, x, i, MInstr(i));
  }

  /** Emitting a comparison and its open jump delays its result. */
  lemma PendTest(S: Semantics, s: Snap, e: ExpDesc, x: Ctx, t: Instr)
    requires Shape(s, e, x) && !e.k.VRELOCABLE? && !e.k.VJMP?
    requires t.COMPARE? && RKInRange(s.c.k, t.B) && RKInRange(s.c.k, t.C)
    requires Flow(S, s.c, s.hs, MTest(t), x)
    ensures ExpOk(S, EmitTest(Discharged(s), t), ExpDesc(VJMP(|s.c.ins| + 1), e.t, e.f), x)
  {
    var d := Discharged(s);
    var s2 := EmitTest(d, t);
    var e2 := ExpDesc(VJMP(|s.c.ins| + 1), e.t, e.f);
    DischargedOk(s);
    EmitTestOk(d, t);
    DischargedFlow(S, s, MTest(t), x);
    forall j | j in Outer(x) || j in x.ts || j in x.fs ensures Keeps(s.c.ins, s2.c.ins, j) {
      assert Keeps(s.c.ins, d.c.ins, j);
    }
    assert |s.c.ins| + 1 !in d.c.open && |s.c.ins| + 1 !in s.c.open;
    ShapeStep(s, e, x, s2, e2);
    assert Core(s2.c, e2).ins == d.c.ins;
    assert Core(s2.c, e2) == d.c;
  }

  /** The main value may be described in another way that it entails. */
  lemma Weaken(S: Semantics, c: Code, hs: seq<int>, m: Main, m2: Main, x: Ctx)
    requires Flow(S, c, hs, m, x)
    requires forall R, v :: Holds(S, c.k, m, R, v) ==> Holds(S, c.k, m2, R, v)
    ensures Flow(S, c, hs, m2, x)
  {
    forall R0 ensures FlowAt(S, c, hs, m2, x, R0) {
      assert FlowAt(S, c, hs, m, x, R0);
    }
  }

  // ----- operators

  /** A unary operator whose operand has been computed and has no pending exits. */
  lemma UnaryFlow(S: Semantics, c: Code, hs: seq<int>, m: Main, x: Ctx, op: UnOpr, m2: Main)
    requires Flow(S, c, hs, m, x) && x.ts == [] && x.fs == []
    requires forall R, v :: Holds(S, c.k, m, R, v) ==> Holds(S, c.k, m2, R, UnValue(S, op, v))
    ensures Flow(S, c, hs, m2, x.(x := Un(op, x.x)))
  {
    var x2 := x.(x := Un(op, x.x));
    forall R0 ensures FlowAt(S, c, hs, m2, x2, R0) {
      assert FlowAt(S, c, hs, m, x, R0);
    }
  }

  /** With the first operand already in place as `y1`, the value of the second yields
      the value of the operator. */
  lemma InPlace(S: Semantics, c: Code, hs: seq<int>, m2: Main, x2: Ctx, y1: Expr, op: BinOpr, m: Main)
    requires Flow(S, c, hs, m2, x2) && x2.ts == [] && x2.fs == [] && x2.w == -1
    requires LocalsBelow(y1, x2.base)
    requires forall R, vb :: Holds(S, c.k, m2, R, vb) ==> Holds(S, c.k, m, R, BinValue(S, op, Eval(S, y1, R), vb))
    ensures Flow(S, c, hs, m, x2.(x := Bin(op, y1, x2.x)))
  {
    var x3 := x2.(x := Bin(op, y1, x2.x));
    forall R0 ensures FlowAt(S, c, hs, m, x3, R0) {
      assert FlowAt(S, c, hs, m2, x2, R0);
      var out0, out := Exec(S, x2.s0.c, 0, R0), Exec(S, c, 0, R0);
      if Arrives(out0, x2.s0.hs) {
        EvalFrame(S, y1, x2.base, out0.R, out.R);
        assert Holds(S, c.k, m2, out.R, Eval(S, x2.x, out0.R));
      }
    }
  }

  /** The second operand (`x2`), then code for the first (`x1`, a constant or a register
      that the second left alone). */
  lemma SecondThenFirst(S: Semantics, s2: Snap, m2: Main, x2: Ctx, s3: Snap, m1: Main, x1: Ctx, op: BinOpr, m: Main)
    requires Flow(S, s2.c, s2.hs, m2, x2) && x2.ts == [] && x2.fs == [] && x2.w == -1
    requires Flow(S, s3.c, s3.hs, m1, x1) && x1.ts == [] && x1.fs == [] && x1.w == -1 && x1.s0 == s2
    requires SnapOk(x2.s0) && SnapOk(s2) && Exits(s2.c, s2.hs, x2)
    requires x2.base <= x1.base && LocalsBelow(x1.x, x2.base)
    requires m2.MConst? || (m2.MReg? && 0 <= m2.r < x1.base)
    requires forall R, va, vb :: Holds(S, s3.c.k, m1, R, va) && Holds(S, s3.c.k, m2, R, vb)
               ==> Holds(S, s3.c.k, m, R, BinValue(S, op, va, vb))
    ensures Flow(S, s3.c, s3.hs, m, x2.(x := Bin(op, x1.x, x2.x)))
  {
    var x3 := x2.(x := Bin(op, x1.x, x2.x));
    forall R0 ensures FlowAt(S, s3.c, s3.hs, m, x3, R0) {
      assert FlowAt(S, s2.c, s2.hs, m2, x2, R0);
      assert FlowAt(S, s3.c, s3.hs, m1, x1, R0);
      OutcomeOpen(S, x2.s0.c, x2.s0.last, 0, R0);
      var out0, out2, out3 := Exec(S, x2.s0.c, 0, R0), Exec(S, s2.c, 0, R0), Exec(S, s3.c, 0, R0);
      if Arrives(out0, x2.s0.hs) {
        EvalFrame(S, x1.x, x2.base, out0.R, out2.R);
        assert Holds(S, s3.c.k, m1, out3.R, Eval(S, x1.x, out2.R));
        assert Holds(S, s3.c.k, m2, out3.R, Eval(S, x2.x, out0.R));
      }
    }
  }

  /** The operand `y1` stands for the value an expression compiled before left there. */
  lemma Substitute(S: Semantics, s1: Snap, e1: ExpDesc, x1: Ctx, c: Code, hs: seq<int>, m: Main, x2: Ctx, y1: Expr, op: BinOpr)
    requires ExpOk(S, s1, e1, x1) && x1.ts == [] && x1.fs == [] && x1.w == -1
    requires Denotes(S, s1.c.k, e1, y1) && !e1.k.VUPVAL?
    requires x2.s0 == s1 && x1.base <= x2.base && x2.w == -1 && LocalsBelow(x2.x, x1.nact)
    requires Flow(S, c, hs, m, x2.(x := Bin(op, y1, x2.x))) && x2.ts == [] && x2.fs == []
    ensures Flow(S, c, hs, m, x1.(x := Bin(op, x1.x, x2.x)))
  {
    var x3, x4 := x2.(x := Bin(op, y1, x2.x)), x1.(x := Bin(op, x1.x, x2.x));
    assert Core(s1.c, e1) == s1.c;
    forall R0 ensures FlowAt(S, c, hs, m, x4, R0) {
      assert FlowAt(S, s1.c, s1.hs, MainOf(S, s1.c, e1), x1, R0);
      assert FlowAt(S, c, hs, m, x3, R0);
      OutcomeOpen(S, x1.s0.c, x1.s0.last, 0, R0);
      var out0, out1 := Exec(S, x1.s0.c, 0, R0), Exec(S, s1.c, 0, R0);
      if Arrives(out0, x1.s0.hs) {
        EvalFrame(S, x2.x, x1.nact, out0.R, out1.R);
        assert Holds(S, s1.c.k, MainOf(S, s1.c, e1), out1.R, Eval(S, x1.x, out0.R));
        assert Eval(S, y1, out1.R) == Eval(S, x1.x, out0.R);
      }
    }
  }

  /** Shapes compose: an expression compiled after another that left no exits. */
  lemma SequenceShape(s1: Snap, e1: ExpDesc, x1: Ctx, s2: Snap, e2: ExpDesc, x2: Ctx, x3: Ctx, e3: ExpDesc)
    requires Shape(s1, e1, x1) && x1.ts == [] && x1.fs == [] && !e1.k.VJMP?
    requires Shape(s2, e2, x2) && x2.s0 == s1
    requires x3 == x1.(x := x3.x, ts := x2.ts, fs := x2.fs) && LocalsBelow(x3.x, x3.nact)
    requires e3 == ExpDesc(e3.k, e2.t, e2.f) && KindOk(s2, e3, x3.base) && OpenOk(s2, e3, x2)
    ensures Shape(s2, e3, x3)
  {
    assert Outer(x3) == Outer(x1);
    assert forall j :: j in Outer(x2) <==> j in Outer(x1);
    forall j | j in Outer(x3) ensures Keeps(x3.s0.c.ins, s2.c.ins, j) {
      assert Keeps(x1.s0.c.ins, s1.c.ins, j) && Keeps(s1.c.ins, s2.c.ins, j);
    }
  }

  // ----- and, or

  /** The second operand of `and` (`b`) or `or` (`!b`), compiled where the first one goes
      on: the exits of the first are exits of the whole. */
  lemma Junction(S: Semantics, s1: Snap, t1: int, f1: int, x1: Ctx, s2: Snap, e2: ExpDesc, x2: Ctx, b: bool)
    requires CondOk(S, s1, t1, f1, x1, b) && (if b then x1.ts else x1.fs) == []
    requires ExpOk(S, s2, e2, x2) && x2.s0 == s1 && x2.base == x1.base && x2.nact == x1.nact
    requires x1.w == -1 && x2.w == -1
    ensures var x3 := x1.(x := Bin(if b then AND else OR, x1.x, x2.x), ts := x2.ts + x1.ts, fs := x2.fs + x1.fs);
            && Flow(S, Core(s2.c, e2), s2.hs, MainOf(S, s2.c, e2), x3)
            && (forall j :: j in x1.ts || j in x1.fs ==> j in Outer(x2))
  {
    var x3 := x1.(x := Bin(if b then AND else OR, x1.x, x2.x), ts := x2.ts + x1.ts, fs := x2.fs + x1.fs);
    var c, m := Core(s2.c, e2), MainOf(S, s2.c, e2);
    forall j | j in x1.ts || j in x1.fs ensures j in Outer(x2) { assert j in s1.c.open && j !in s1.hs; }
    forall R0 ensures FlowAt(S, c, s2.hs, m, x3, R0) {
      JunctionAt(S, s1, t1, f1, x1, s2, e2, x2, b, R0);
    }
  }

  lemma JunctionAt(S: Semantics, s1: Snap, t1: int, f1: int, x1: Ctx, s2: Snap, e2: ExpDesc, x2: Ctx, b: bool, R0: Regs)
    requires CondOk(S, s1, t1, f1, x1, b) && (if b then x1.ts else x1.fs) == []
    requires ExpOk(S, s2, e2, x2) && x2.s0 == s1 && x2.base == x1.base && x2.nact == x1.nact
    requires x1.w == -1 && x2.w == -1
    requires forall j :: j in x1.ts || j in x1.fs ==> j in Outer(x2)
    ensures var x3 := x1.(x := Bin(if b then AND else OR, x1.x, x2.x), ts := x2.ts + x1.ts, fs := x2.fs + x1.fs);
            FlowAt(S, Core(s2.c, e2), s2.hs, MainOf(S, s2.c, e2), x3, R0)
  {
    assert FlowAt(S, s1.c, s1.hs, MCond(b), x1, R0);
    assert FlowAt(S, Core(s2.c, e2), s2.hs, MainOf(S, s2.c, e2), x2, R0);
    OutcomeOpen(S, x1.s0.c, x1.s0.last, 0, R0);
    var out0, out1 := Exec(S, x1.s0.c, 0, R0), Exec(S, s1.c, 0, R0);
    if Arrives(out0, x1.s0.hs) {
      var out2 := Exec(S, Core(s2.c, e2), 0, R0);
      if Arrives(out1, s1.hs) {
        JunctionGoesOn(S, Core(s2.c, e2), s2.hs, MainOf(S, s2.c, e2), x1, x2, b, out0.R, out1.R, out2);
      } else {
        assert out1.j in x1.ts || out1.j in x1.fs;
        JunctionLeaves(S, s1, x1, s2, e2, x2, b, out0.R, out1);
      }
    }
  }

  lemma JunctionGoesOn(S: Semantics, c: Code, hs: seq<int>, m: Main, x1: Ctx, x2: Ctx, b: bool, R: Regs, R1: Regs, out: Outcome)
    requires SameBelow(x1.base, -1, R, R1) && Truthy(Eval(S, x1.x, R)) == b
    requires x2.base == x1.base && x1.nact <= x1.base && x1.w == -1 && x2.w == -1
    requires LocalsBelow(x2.x, x1.nact)
    requires Result(S, c, hs, m, x2, R1, out)
    requires out.Jumped? ==> (out.j in x2.ts || out.j in x2.fs || out.j in hs)
                             && out.j !in x1.ts && out.j !in x1.fs
    ensures var x3 := x1.(x := Bin(if b then AND else OR, x1.x, x2.x), ts := x2.ts + x1.ts, fs := x2.fs + x1.fs);
            Result(S, c, hs, m, x3, R, out)
  {
    EvalFrame(S, x2.x, x1.nact, R, R1);
  }

  lemma JunctionLeaves(S: Semantics, s1: Snap, x1: Ctx, s2: Snap, e2: ExpDesc, x2: Ctx, b: bool, R: Regs, out: Outcome)
    requires out.Jumped? && (out.j in x1.ts || out.j in x1.fs) && (if b then x1.ts else x1.fs) == []
    requires Result(S, s1.c, s1.hs, MCond(b), x1, R, out)
    requires Shape(s2, e2, x2) && x2.s0 == s1 && out.j in Outer(x2)
    ensures var x3 := x1.(x := Bin(if b then AND else OR, x1.x, x2.x), ts := x2.ts + x1.ts, fs := x2.fs + x1.fs);
            Result(S, Core(s2.c, e2), s2.hs, MainOf(S, s2.c, e2), x3, R, out)
  {
    var c := Core(s2.c, e2);
    assert Keeps(s1.c.ins, s2.c.ins, out.j);
    assert out.j !in x2.ts && out.j !in x2.fs;
    CoreOk(s2, e2, x2.base);
    assert out.j in c.open;
    assert Carries(c.ins, out.j, out.R, Eval(S, x1.x, R));
  }

  // ----- not

  /** Dropping the values of a list's tests changes no run. */
  lemma DevaluedOk(s: Snap, t: seq<int>)
    requires SnapOk(s) && forall j :: j in t ==> j in s.c.open
    ensures var c2 := s.c.(ins := Devalued(s.c.ins, t));
            && SnapOk(s.(c := c2)) && Extends(s.c, c2)
            && forall q :: 0 <= q < |s.c.ins| ==>
                 && SameShape(s.c.ins[q], c2.ins[q])
                 && (c2.ins[q] == s.c.ins[q] || (s.c.ins[q].TESTSET? && q + 1 in t && c2.ins[q].TEST?))
  {
    var c2 := s.c.(ins := Devalued(s.c.ins, t));
    forall q | 0 <= q < |s.c.ins|
      ensures SameShape(s.c.ins[q], c2.ins[q])
      ensures c2.ins[q] == DevaluedAt(s.c.ins, t, q)
      ensures ExtendsAt(s.c, c2, q)
    {
      assert c2.ins[q] == DevaluedAt(s.c.ins, t, q);
      assert WellFormedAt(s.c, s.last, q);
    }
    forall q | 0 <= q < |s.c.ins| ensures WellFormedAt(c2, s.last, q) {
      assert WellFormedAt(s.c, s.last, q);
      if s.c.ins[q].JMP? && q !in s.c.open { EntrySame(s.c.ins, c2.ins, Target(s.c.ins, q)); }
      EntrySame(s.c.ins, c2.ins, q + 2);
    }
  }

  /** What `not` turns the main value into. */
  ghost predicate Negates(S: Semantics, k: seq<Value>, m: Main, m2: Main) {
    forall R, v :: Holds(S, k, m, R, v) ==> Holds(S, k, m2, R, UnValue(S, NOT, v))
  }

  /** Negating the main value, exchanging the two lists and dropping the values of their
      tests negates the expression. */
  lemma NegateFlow(S: Semantics, s: Snap, m: Main, x: Ctx, c2: Code, m2: Main)
    requires SnapOk(s) && CtxOk(x) && Exits(s.c, s.hs, x) && Disjoint(x.ts, x.fs)
    requires Flow(S, s.c, s.hs, m, x) && Negates(S, s.c.k, m, m2)
    requires Extends(s.c, c2) && |c2.ins| == |s.c.ins| && c2.open == s.c.open && c2.k == s.c.k
    requires forall j :: j in x.ts || j in x.fs ==> !ProducesValue(c2.ins, j)
    ensures Flow(S, c2, s.hs, m2, x.(x := Un(NOT, x.x), ts := x.fs, fs := x.ts))
  {
    var x2 := x.(x := Un(NOT, x.x), ts := x.fs, fs := x.ts);
    forall R0 ensures FlowAt(S, c2, s.hs, m2, x2, R0) {
      assert FlowAt(S, s.c, s.hs, m, x, R0);
      RelinkedExec(S, s.c, s.last, c2, R0);
      var out0, out := Exec(S, x.s0.c, 0, R0), Exec(S, s.c, 0, R0);
      if Arrives(out0, x.s0.hs) {
        var v := Eval(S, x.x, out0.R);
        if !(out.Jumped? && (out.j in x.ts || out.j in x.fs)) {
          assert Holds(S, s.c.k, m, out.R, v);
        }
      }
    }
  }

  lemma DischargedNil(s: Snap)
    requires s.hs == []
    ensures Discharged(s) == s
  {
    assert DischargedIns(s) == s.c.ins;
  }

  lemma ReadyNow(S: Semantics, s: Snap, e: ExpDesc, x: Ctx)
    requires ExpOk(S, s, e, x) && !e.k.VJMP? && !e.k.VRELOCABLE?
    ensures Ready(S, s, MainOf(S, s.c, e), x)
  {
    assert Core(s.c, e) == s.c;
  }

  /** A comparison whose jump joins the true exits: falling through means false. */
  lemma JumpFlow(S: Semantics, s: Snap, e: ExpDesc, x: Ctx)
    requires ExpOk(S, s, e, x) && e.k.VJMP?
    ensures Flow(S, s.c, [], MConst(Bool(false)), x.(ts := x.ts + [e.k.info]))
  {
    CoreOk(s, e, x.base);
    DischargedNil(CoreSnap(s, e));
    var t := s.c.ins[e.k.info - 1];
    assert WellFormedAt(s.c, s.last, e.k.info - 1);
    assert EmitTest(CoreSnap(s, e), t) == s by {
      assert s.c.ins == s.c.ins[..e.k.info - 1] + [t, JMP(0, NO_JUMP)];
    }
    TestFlow(S, s, e, x, t, false, MConst(Bool(false)));
  }

  lemma ReadyJump(S: Semantics, s: Snap, e: ExpDesc, x: Ctx, c2: Code)
    requires ExpOk(S, s, e, x) && e.k.VJMP? && Relinked(s.c, c2)
    requires forall j :: j in Outer(x) ==> Keeps(s.c.ins, c2.ins, j)
    ensures Ready(S, s.(c := c2), MConst(Bool(false)), x.(ts := x.ts + [e.k.info]))
  {
    var x2 := x.(ts := x.ts + [e.k.info]);
    JumpFlow(S, s, e, x);
    assert Outer(x2) == Outer(x);
    RelinkedFlow(S, s, c2, [], MConst(Bool(false)), x2);
    RelinkedOk(s, c2);
    forall j | j in Outer(x2) ensures Keeps(x.s0.c.ins, c2.ins, j) {
      assert Keeps(x.s0.c.ins, s.c.ins, j) && Keeps(s.c.ins, c2.ins, j);
    }
  }

  /** Patching one list leaves the jumps of the other where they were. */
  lemma PatchedKeepsList(ins: seq<Instr>, h: int, t: seq<int>, s: seq<int>, vt: int, reg: int, dt: int)
    requires IsList(ins, h, t) && Disjoint(t, s)
    requires forall j :: j in s ==> 0 <= j < |ins| && ins[j].JMP?
    ensures IsList(Patched(ins, s, vt, reg, dt), h, t)
    ensures forall j :: j in t ==> ProducesValue(Patched(ins, s, vt, reg, dt), j) == ProducesValue(ins, j)
  {
    var p := Patched(ins, s, vt, reg, dt);
    ListElements(ins, h, t);
    forall j | j in t ensures p[j] == ins[j] && ProducesValue(p, j) == ProducesValue(ins, j) {
      assert p[j] == PatchedAt(ins, s, vt, reg, dt, j);
      if j > 0 { assert p[j - 1] == PatchedAt(ins, s, vt, reg, dt, j - 1); }
    }
    ListFrame(ins, p, h, t);
  }

  // ----- operands of and / or

  /** The main value has been tested: the code goes on when it is `b`, and the jumps
      `pcs` (one, or none when the value is known) leave it otherwise. */
  ghost predicate Tested(S: Semantics, s: Snap, t: int, f: int, x: Ctx, pcs: seq<int>, b: bool) {
    && SnapOk(s) && CtxOk(x) && OuterFrame(s, x) && Separate(s, x)
    && IsList(s.c.ins, t, x.ts) && IsList(s.c.ins, f, x.fs)
    && (forall j :: j in pcs ==> j !in x.ts && j !in x.fs && j !in s.hs && j !in Outer(x))
    && (forall j :: j in s.c.open <==> j in Outer(x) || j in x.ts || j in x.fs || j in s.hs || j in pcs)
    && Flow(S, s.c, s.hs, MCond(b), WithExits(x, pcs, b))
  }

  function WithExits(x: Ctx, pcs: seq<int>, b: bool): Ctx {
    if b then x.(fs := x.fs + pcs) else x.(ts := x.ts + pcs)
  }

  lemma TestedOpen(s: Snap, e: ExpDesc, x: Ctx, t: Instr)
    requires Shape(s, e, x)
    ensures var d := Discharged(CoreSnap(s, e));
            var s2, pc := EmitTest(d, t), |d.c.ins| + 1;
            && Separate(s2, x)
            && pc !in x.ts && pc !in x.fs && pc !in Outer(x)
            && forall j :: j in s2.c.open <==> j in Outer(x) || j in x.ts || j in x.fs || j == pc
  {
    var cs := CoreSnap(s, e);
    CoreOk(s, e, x.base);
    assert |cs.c.ins| + 1 !in cs.c.open;
    assert forall j :: j in cs.c.open <==> j in Outer(x) || j in x.ts || j in x.fs || j in cs.hs;
  }

  lemma TestedByTest(S: Semantics, s: Snap, e: ExpDesc, x: Ctx, t: Instr, b: bool)
    requires ExpOk(S, s, e, x)
    requires TestsMain(S, s.c.k, MainOf(S, s.c, e), t, b, MCond(b))
    ensures var d := Discharged(CoreSnap(s, e));
            Tested(S, EmitTest(d, t), e.t, e.f, x, [|d.c.ins| + 1], b)
  {
    var d := Discharged(CoreSnap(s, e));
    var s2 := EmitTest(d, t);
    TestFlow(S, s, e, x, t, b, MCond(b));
    TestedOpen(s, e, x, t);
    ListFrame(s.c.ins, s2.c.ins, e.t, x.ts);
    ListFrame(s.c.ins, s2.c.ins, e.f, x.fs);
    forall j | j in Outer(x) ensures Keeps(x.s0.c.ins, s2.c.ins, j) {
      assert Keeps(x.s0.c.ins, s.c.ins, j) && Keeps(s.c.ins, s2.c.ins, j);
    }
    assert WithExits(x, [|d.c.ins| + 1], b) == WithExit(x, |d.c.ins| + 1, b);
  }

  /** A constant needs no test. */
  lemma TestedConstant(S: Semantics, s: Snap, e: ExpDesc, x: Ctx, b: bool)
    requires ExpOk(S, s, e, x)
    requires MainOf(S, s.c, e).MConst? && Truthy(MainOf(S, s.c, e).v) == b
    requires !e.k.VJMP? && !e.k.VRELOCABLE?
    ensures Tested(S, s, e.t, e.f, x, [], b)
  {
    assert Core(s.c, e) == s.c;
    assert WithExits(x, [], b) == x;
    Weaken(S, s.c, s.hs, MainOf(S, s.c, e), MCond(b), x);
  }

  /** The exits of truth value `b` become jumps to here and the new jump joins the others. */
  lemma TestedSplit(S: Semantics, s: Snap, t: int, f: int, x: Ctx, pcs: seq<int>, b: bool, s2: Snap, l: int)
    requires Tested(S, s, t, f, x, pcs, b) && SnapOk(s2)
    requires Relinked(s.c, s2.c)
    requires forall j :: j in Outer(x) ==> s2.c.ins[j] == s.c.ins[j]
    requires s2.hs == s.hs + (if b then x.ts else x.fs)
    requires IsList(s2.c.ins, l, (if b then x.fs else x.ts) + pcs)
    ensures var x2 := if b then x.(ts := [], fs := x.fs + pcs) else x.(ts := x.ts + pcs, fs := []);
            CondOk(S, s2, if b then NO_JUMP else l, if b then l else NO_JUMP, x2, b)
  {
    var x1 := WithExits(x, pcs, b);
    var x2 := if b then x.(ts := [], fs := x.fs + pcs) else x.(ts := x.ts + pcs, fs := []);
    RelinkedFlow(S, s, s2.c, s.hs, MCond(b), x1);
    ExitsToHere(S, s2.c, s.hs, x1, b, s2.hs);
    assert x2 == if b then x1.(ts := []) else x1.(fs := []);
    assert Outer(x2) == Outer(x);
    RelinkedOk(s, s2.c);
    forall j | j in Outer(x2) ensures Keeps(x.s0.c.ins, s2.c.ins, j) {
      assert Keeps(x.s0.c.ins, s.c.ins, j) && Keeps(s.c.ins, s2.c.ins, j);
    }
  }

  /** The state of `not` before its lists are exchanged. */
  ghost predicate ToNegate(S: Semantics, s: Snap, e: ExpDesc, x: Ctx, m: Main) {
    && Shape(s, e, x)
    && Flow(S, Core(s.c, e), s.hs, m, x)
    && Negates(S, s.c.k, m, MainOf(S, s.c, e))
  }

  lemma CoreDevalued(s: Snap, e: ExpDesc, base: int, t: seq<int>)
    requires SnapOk(s) && KindOk(s, e, base)
    requires forall j :: j in t ==> j in s.c.open && j < CoreLength(s.c, e)
    ensures var c2 := s.c.(ins := Devalued(s.c.ins, t));
            && KindOk(s.(c := c2), e, base) && CoreLength(c2, e) == CoreLength(s.c, e)
            && Core(c2, e) == Core(s.c, e).(ins := Devalued(Core(s.c, e).ins, t))
            && forall S :: MainOf(S, c2, e) == MainOf(S, s.c, e)
  {
    var c2 := s.c.(ins := Devalued(s.c.ins, t));
    var n := CoreLength(s.c, e);
    forall q | n <= q < |s.c.ins| ensures c2.ins[q] == s.c.ins[q] {
      assert c2.ins[q] == DevaluedAt(s.c.ins, t, q);
    }
    forall q | 0 <= q < n ensures c2.ins[q] == Devalued(Core(s.c, e).ins, t)[q] {
      assert c2.ins[q] == DevaluedAt(s.c.ins, t, q);
      assert Devalued(Core(s.c, e).ins, t)[q] == DevaluedAt(Core(s.c, e).ins, t, q);
    }
  }

  lemma DevaluedTwice(ins: seq<Instr>, t: seq<int>, f: seq<int>)
    ensures Devalued(Devalued(ins, t), f) == Devalued(ins, t + f)
  {
    var p := Devalued(ins, t);
    forall q | 0 <= q < |ins| ensures Devalued(p, f)[q] == Devalued(ins, t + f)[q] {
      assert p[q] == DevaluedAt(ins, t, q);
      assert Devalued(p, f)[q] == DevaluedAt(p, f, q);
      assert Devalued(ins, t + f)[q] == DevaluedAt(ins, t + f, q);
    }
  }

  lemma NegateDoneFlow(S: Semantics, cs: Snap, m: Main, m2: Main, x: Ctx, t: seq<int>)
    requires SnapOk(cs) && CtxOk(x) && Exits(cs.c, cs.hs, x) && Disjoint(x.ts, x.fs)
    requires Flow(S, cs.c, cs.hs, m, x) && Negates(S, cs.c.k, m, m2)
    requires t == x.ts + x.fs && forall j :: j in t ==> j in cs.c.open
    ensures Flow(S, cs.c.(ins := Devalued(cs.c.ins, t)), cs.hs, m2, x.(x := Un(NOT, x.x), ts := x.fs, fs := x.ts))
  {
    DevaluedOk(cs, t);
    var c2 := cs.c.(ins := Devalued(cs.c.ins, t));
    forall j | j in t ensures !ProducesValue(c2.ins, j) {
      if 0 < j <= |c2.ins| { assert c2.ins[j - 1] == DevaluedAt(cs.c.ins, t, j - 1); }
    }
    NegateFlow(S, cs, m, x, c2, m2);
  }

  /** Exchanging the lists of `e` and dropping the values of their tests completes `not`. */
  lemma NegateDone(S: Semantics, s: Snap, e: ExpDesc, x: Ctx, m: Main, s2: Snap)
    requires ToNegate(S, s, e, x, m)
    requires s2 == s.(c := s.c.(ins := Devalued(s.c.ins, x.ts + x.fs)))
    ensures ExpOk(S, s2, ExpDesc(e.k, e.f, e.t), x.(x := Un(NOT, x.x), ts := x.fs, fs := x.ts))
  {
    var e2 := ExpDesc(e.k, e.f, e.t);
    var t := x.ts + x.fs;
    CoreOk(s, e, x.base);
    var cs := CoreSnap(s, e);
    assert forall j :: j in t ==> j in cs.c.open && 0 <= j < |cs.c.ins|;
    CoreDevalued(s, e, x.base, t);
    DevaluedOk(s, t);
    NegateKeeps(s, e, x, t, s2);
    NegateDoneFlow(S, cs, m, MainOf(S, s.c, e), x, t);
    assert Core(s2.c, e2) == Core(s2.c, e);
    assert MainOf(S, s2.c, e2) == MainOf(S, s.c, e) by {
      assert MainOf(S, s2.c, e) == MainOf(S, s.c, e);
    }
  }

  lemma NegateKeeps(s: Snap, e: ExpDesc, x: Ctx, t: seq<int>, s2: Snap)
    requires Shape(s, e, x) && t == x.ts + x.fs
    requires s2 == s.(c := s.c.(ins := Devalued(s.c.ins, t))) && SnapOk(s2) && KindOk(s2, e, x.base)
    ensures Shape(s2, ExpDesc(e.k, e.f, e.t), x.(x := Un(NOT, x.x), ts := x.fs, fs := x.ts))
  {
    var x2 := x.(x := Un(NOT, x.x), ts := x.fs, fs := x.ts);
    forall j | 0 <= j < |s.c.ins| && s.c.ins[j].JMP? ensures s2.c.ins[j] == s.c.ins[j] {
      assert s2.c.ins[j] == DevaluedAt(s.c.ins, t, j);
    }
    ListElements(s.c.ins, e.t, x.ts);
    ListElements(s.c.ins, e.f, x.fs);
    ListFrame(s.c.ins, s2.c.ins, e.t, x.ts);
    ListFrame(s.c.ins, s2.c.ins, e.f, x.fs);
    assert Outer(x2) == Outer(x);
    forall j | j in Outer(x) ensures Keeps(x.s0.c.ins, s2.c.ins, j) {
      assert Keeps(x.s0.c.ins, s.c.ins, j);
      assert s2.c.ins[j] == DevaluedAt(s.c.ins, t, j);
      if j > 0 { assert s2.c.ins[j - 1] == DevaluedAt(s.c.ins, t, j - 1); }
    }
  }

  // ----- binary operators

  /** The state between the operands of a binary operator: the first operand is known in
      `s1`, and the second may use registers from `next` on. */
  ghost predicate FirstOk(S: Semantics, op: BinOpr, s1: Snap, e1: ExpDesc, x1: Ctx, next: nat) {
    && x1.w == -1
    && (if op.AND? then
          CondOk(S, s1, e1.t, e1.f, x1, true) && e1.t == NO_JUMP && x1.ts == [] && next == x1.base
        else if op.OR? then
          CondOk(S, s1, e1.t, e1.f, x1, false) && e1.f == NO_JUMP && x1.fs == [] && next == x1.base
        else
          ExpOk(S, s1, e1, x1) && HeldFirst(op, e1, x1, next))
  }

  /** The first operand of an operator that computes a value is a local, the register
      `base`, a small constant index or, for arithmetic, a numeral. */
  predicate HeldFirst(op: BinOpr, e1: ExpDesc, x1: Ctx, next: nat) {
    && x1.ts == [] && x1.fs == [] && e1.t == NO_JUMP && e1.f == NO_JUMP
    && (if e1.k.VNONRELOC? then
          (e1.k.info < x1.nact && next == x1.base) || (e1.k.info == x1.base && next == x1.base + 1)
        else
          && ((e1.k.VK? && e1.k.info <= MAXINDEXRK) || (IsArith(op) && (e1.k.VKINT? || e1.k.VKFLT?)))
          && next == x1.base)
    && (op.CONCAT? ==> e1.k == VNONRELOC(x1.base))
  }

  /** The first operand as an expression over the registers. */
  function Operand(k: seq<Value>, e: ExpDesc): Expr {
    match e.k
    case VNONRELOC(r) => if r >= 0 then Local(r) else Const(Nil)
    case VK(i) => Const(Kst(k, i))
    case VKINT(i) => Const(Int(i))
    case VKFLT(v) => Const(Flt(v))
    case _ => Const(Nil)
  }

  /** The context in which the first operand is used once the second is known. */
  function OperandCtx(s2: Snap, e1: ExpDesc, next: nat): Ctx {
    Ctx(s2, next, -1, next, Operand(s2.c.k, e1), [], [])
  }

  lemma OperandReady(S: Semantics, op: BinOpr, s1: Snap, e1: ExpDesc, x1: Ctx, base2: nat, s2: Snap, next: nat)
    requires FirstOk(S, op, s1, e1, x1, base2) && !op.AND? && !op.OR?
    requires SnapOk(s2) && s1.c.k <= s2.c.k && base2 <= next
    ensures ExpOk(S, s2, e1, OperandCtx(s2, e1, next))
    ensures Operand(s2.c.k, e1) == Operand(s1.c.k, e1) && Denotes(S, s1.c.k, e1, Operand(s1.c.k, e1))
    ensures LocalsBelow(Operand(s1.c.k, e1), base2)
  {
    Fresh(S, s2, e1, OperandCtx(s2, e1, next));
  }

  /** With the second operand computed by `s2` and the first one brought into its final
      place by `s3`, the operator's value is `m`. */
  lemma BinaryReady(S: Semantics, op: BinOpr, s1: Snap, e1: ExpDesc, x1: Ctx, s2: Snap, e2: ExpDesc, x2: Ctx,
                    s3: Snap, e3: ExpDesc, next: nat, m: Main)
    requires FirstOk(S, op, s1, e1, x1, x2.base) && !op.AND? && !op.OR?
    requires ExpOk(S, s2, e2, x2) && x2.ts == [] && x2.fs == [] && x2.w == -1
    requires x2.s0 == s1 && x2.nact == x1.nact && x2.base <= next
    requires (e2.k.VNONRELOC? && e2.k.info < next) || e2.k.VK? || e2.k.VKINT? || e2.k.VKFLT?
    requires ExpOk(S, s3, e3, OperandCtx(s2, e1, next))
    requires !e3.k.VRELOCABLE? && !e3.k.VJMP?
    requires forall R, va, vb :: Holds(S, s3.c.k, MainOf(S, s3.c, e3), R, va) && Holds(S, s3.c.k, MainOf(S, s2.c, e2), R, vb)
               ==> Holds(S, s3.c.k, m, R, BinValue(S, op, va, vb))
    ensures var x3 := x1.(x := Bin(op, x1.x, x2.x));
            Shape(s3, NoExpr(), x3) && Flow(S, s3.c, s3.hs, m, x3)
  {
    var y := OperandCtx(s2, e1, next);
    var x3 := x1.(x := Bin(op, x1.x, x2.x));
    OperandReady(S, op, s1, e1, x1, x2.base, s2, next);
    assert Core(s2.c, e2) == s2.c && Core(s3.c, e3) == s3.c;
    SecondThenFirst(S, s2, MainOf(S, s2.c, e2), x2, s3, MainOf(S, s3.c, e3), y, op, m);
    Substitute(S, s1, e1, x1, s3.c, s3.hs, m, x2, y.x, op);
    SequenceShape(s2, e2, x2, s3, e3, y, x2, NoExpr());
    SequenceShape(s1, e1, x1, s3, NoExpr(), x2, x3, NoExpr());
  }

  function NoExpr(): ExpDesc { ExpDesc(VNIL, NO_JUMP, NO_JUMP) }

  lemma ConcatMergeFlow(S: Semantics, s1: Snap, e1: ExpDesc, x1: Ctx, cs: Snap, x2: Ctx, i: Instr, i3: Instr)
    requires FirstOk(S, CONCAT, s1, e1, x1, x2.base)
    requires Flow(S, cs.c, cs.hs, MInstr(i), x2) && x2.ts == [] && x2.fs == [] && x2.w == -1
    requires x2.s0 == s1 && x2.nact == x1.nact && LocalsBelow(x2.x, x1.nact)
    requires i.OPCONCAT? && i.B == x2.base && i.B < i.C && i3 == OPCONCAT(i.A, e1.k.info, i.C)
    ensures Flow(S, cs.c, cs.hs, MInstr(i3), x1.(x := Bin(CONCAT, x1.x, x2.x)))
  {
    var y := Local(x1.base);
    InPlace(S, cs.c, cs.hs, MInstr(i), x2, y, CONCAT, MInstr(i3));
    Substitute(S, s1, e1, x1, cs.c, cs.hs, MInstr(i3), x2, y, CONCAT);
  }

  lemma LastValueOk(s: Snap, s3: Snap, i3: Instr)
    requires SnapOk(s) && |s.c.ins| > 0 && s.c.ins[|s.c.ins| - 1].OPCONCAT? && i3.OPCONCAT?
    requires s3 == s.(c := s.c.(ins := s.c.ins[|s.c.ins| - 1 := i3]))
    ensures SnapOk(s3) && forall j :: j in s.c.open ==> Keeps(s.c.ins, s3.c.ins, j)
  {
    forall q | 0 <= q < |s3.c.ins| ensures WellFormedAt(s3.c, s3.last, q) {
      assert WellFormedAt(s.c, s.last, q);
      if s.c.ins[q].JMP? && q !in s.c.open { assert Entry(s.c.ins, Target(s.c.ins, q)); }
    }
  }

  /** A concatenation whose right operand is itself a pending concatenation takes one
      more register into it. */
  lemma ConcatMerge(S: Semantics, s1: Snap, e1: ExpDesc, x1: Ctx, s2: Snap, e2: ExpDesc, x2: Ctx, s3: Snap)
    requires FirstOk(S, CONCAT, s1, e1, x1, x2.base)
    requires ExpOk(S, s2, e2, x2) && x2.ts == [] && x2.fs == [] && x2.w == -1 && e2.t == NO_JUMP && e2.f == NO_JUMP
    requires x2.s0 == s1 && x2.nact == x1.nact
    requires e2.k.VRELOCABLE? && s2.c.ins[e2.k.info].OPCONCAT?
    requires var i := s2.c.ins[e2.k.info];
             s3 == s2.(c := s2.c.(ins := s2.c.ins[e2.k.info := OPCONCAT(i.A, e1.k.info, i.C)]))
    ensures s2.c.ins[e2.k.info].B - 1 == e1.k.info
    ensures ExpOk(S, s3, e2, x1.(x := Bin(CONCAT, x1.x, x2.x)))
  {
    var x3 := x1.(x := Bin(CONCAT, x1.x, x2.x));
    var n := e2.k.info;
    assert Core(s3.c, e2) == Core(s2.c, e2);
    ConcatMergeFlow(S, s1, e1, x1, CoreSnap(s2, e2), x2, s2.c.ins[n], s3.c.ins[n]);
    LastValueOk(s2, s3, s3.c.ins[n]);
    SequenceShape(s1, e1, x1, s2, e2, x2, x3, NoExpr());
    ShapeStep(s2, NoExpr(), x3, s3, e2);
  }

  ghost predicate JunctionLinked(S: Semantics, op: BinOpr, s1: Snap, e1: ExpDesc, x1: Ctx, s2: Snap, e2: ExpDesc, x2: Ctx,
                                 s3: Snap, e3: ExpDesc) {
    && (op.AND? || op.OR?) && FirstOk(S, op, s1, e1, x1, x2.base)
    && ExpOk(S, s2, e2, x2) && x2.w == -1 && x2.s0 == s1 && x2.nact == x1.nact
    && s3 == s2.(c := s3.c) && Relinked(s2.c, s3.c)
    && (forall q :: 0 <= q < |s2.c.ins| && q !in (if op.AND? then x2.fs else x2.ts) ==> s3.c.ins[q] == s2.c.ins[q])
    && e3.k == e2.k
    && IsList(s3.c.ins, e3.t, x2.ts + x1.ts) && IsList(s3.c.ins, e3.f, x2.fs + x1.fs)
  }

  function JunctionCtx(op: BinOpr, x1: Ctx, x2: Ctx): Ctx {
    x1.(x := Bin(op, x1.x, x2.x), ts := x2.ts + x1.ts, fs := x2.fs + x1.fs)
  }

  /** Relinking open jumps of the core changes neither its extent nor the main value. */
  lemma RelinkedCore(S: Semantics, s2: Snap, e2: ExpDesc, base: int, c3: Code, e3: ExpDesc, t: seq<int>)
    requires SnapOk(s2) && KindOk(s2, e2, base) && Relinked(s2.c, c3) && e3.k == e2.k
    requires forall j :: j in t ==> j in CoreSnap(s2, e2).c.open
    requires forall q :: 0 <= q < |s2.c.ins| && q !in t ==> c3.ins[q] == s2.c.ins[q]
    ensures CoreLength(c3, e3) == CoreLength(s2.c, e2)
    ensures Relinked(Core(s2.c, e2), Core(c3, e3))
    ensures MainOf(S, c3, e3) == MainOf(S, s2.c, e2)
  {
    CoreOk(s2, e2, base);
    assert forall j :: j in t ==> j < CoreLength(s2.c, e2);
  }

  lemma RelinkedCoreFlow(S: Semantics, s2: Snap, e2: ExpDesc, base: int, c3: Code, e3: ExpDesc, t: seq<int>, x: Ctx)
    requires SnapOk(s2) && KindOk(s2, e2, base) && Relinked(s2.c, c3) && e3.k == e2.k
    requires forall j :: j in t || j in x.ts || j in x.fs ==> j in CoreSnap(s2, e2).c.open
    requires forall q :: 0 <= q < |s2.c.ins| && q !in t ==> c3.ins[q] == s2.c.ins[q]
    requires CtxOk(x) && Flow(S, Core(s2.c, e2), s2.hs, MainOf(S, s2.c, e2), x)
    ensures CoreLength(c3, e3) == CoreLength(s2.c, e2)
    ensures Flow(S, Core(c3, e3), s2.hs, MainOf(S, c3, e3), x)
  {
    CoreOk(s2, e2, base);
    RelinkedCore(S, s2, e2, base, c3, e3, t);
    RelinkedFlow(S, CoreSnap(s2, e2), Core(c3, e3), s2.hs, MainOf(S, s2.c, e2), x);
  }

  lemma JunctionFlow(S: Semantics, op: BinOpr, s1: Snap, e1: ExpDesc, x1: Ctx, s2: Snap, e2: ExpDesc, x2: Ctx)
    requires (op.AND? || op.OR?) && FirstOk(S, op, s1, e1, x1, x2.base)
    requires ExpOk(S, s2, e2, x2) && x2.w == -1 && x2.s0 == s1 && x2.nact == x1.nact
    ensures CtxOk(JunctionCtx(op, x1, x2))
    ensures Flow(S, Core(s2.c, e2), s2.hs, MainOf(S, s2.c, e2), JunctionCtx(op, x1, x2))
    ensures forall j :: j in x1.ts || j in x1.fs || j in x2.ts || j in x2.fs ==> j in CoreSnap(s2, e2).c.open
  {
    var b := op.AND?;
    assert CondOk(S, s1, e1.t, e1.f, x1, b) && (if b then x1.ts else x1.fs) == [];
    Junction(S, s1, e1.t, e1.f, x1, s2, e2, x2, b);
    JunctionExits(s1, e1.t, e1.f, x1, s2, e2, x2);
  }

  /** The whole of `and` or `or`, once the exits of the first operand are linked after
      those of the second. */
  lemma JunctionDone(S: Semantics, op: BinOpr, s1: Snap, e1: ExpDesc, x1: Ctx, s2: Snap, e2: ExpDesc, x2: Ctx,
                     s3: Snap, e3: ExpDesc)
    requires JunctionLinked(S, op, s1, e1, x1, s2, e2, x2, s3, e3)
    ensures ExpOk(S, s3, e3, JunctionCtx(op, x1, x2))
  {
    var x3 := JunctionCtx(op, x1, x2);
    JunctionFlow(S, op, s1, e1, x1, s2, e2, x2);
    JunctionExits(s1, e1.t, e1.f, x1, s2, e2, x2);
    RelinkedCoreFlow(S, s2, e2, x2.base, s3.c, e3, if op.AND? then x2.fs else x2.ts, x3);
    JunctionShape(op, s1, e1, x1, s2, e2, x2, s3, e3);
  }

  lemma JunctionShape(op: BinOpr, s1: Snap, e1: ExpDesc, x1: Ctx, s2: Snap, e2: ExpDesc, x2: Ctx, s3: Snap, e3: ExpDesc)
    requires Shape(s1, ExpDesc(VNIL, e1.t, e1.f), x1) && Shape(s2, e2, x2) && x2.s0 == s1
    requires op.AND? || op.OR?
    requires x1.base == x2.base && LocalsBelow(x2.x, x1.nact)
    requires s3 == s2.(c := s3.c) && Relinked(s2.c, s3.c) && e3.k == e2.k
    requires forall q :: 0 <= q < |s2.c.ins| && q !in (if op.AND? then x2.fs else x2.ts) ==> s3.c.ins[q] == s2.c.ins[q]
    requires IsList(s3.c.ins, e3.t, x2.ts + x1.ts) && IsList(s3.c.ins, e3.f, x2.fs + x1.fs)
    ensures Shape(s3, e3, JunctionCtx(op, x1, x2))
  {
    JunctionExits(s1, e1.t, e1.f, x1, s2, e2, x2);
    OpenJoined(s1, x1, s2, e2, x2, JunctionCtx(op, x1, x2));
    RelinkedOk(s2, s3.c);
    JunctionFrame(s1, e1, x1, s2, e2, x2, s3, JunctionCtx(op, x1, x2));
  }

  lemma OpenJoined(s1: Snap, x1: Ctx, s2: Snap, e2: ExpDesc, x2: Ctx, x3: Ctx)
    requires OpenOk(s2, e2, x2) && Separate(s1, x1) && x3.s0 == x1.s0 && x3.ts == x2.ts + x1.ts && x3.fs == x2.fs + x1.fs
    requires forall j :: j in Outer(x2) <==> j in Outer(x1) || j in x1.ts || j in x1.fs
    requires Outer(x3) == Outer(x1)
    ensures OpenOk(s2, e2, x3)
  {
  }

  lemma JunctionExits(s1: Snap, t1: int, f1: int, x1: Ctx, s2: Snap, e2: ExpDesc, x2: Ctx)
    requires Shape(s1, ExpDesc(VNIL, t1, f1), x1) && Shape(s2, e2, x2) && x2.s0 == s1
    ensures forall j :: j in x1.ts || j in x1.fs ==> j in Outer(x2) && j in CoreSnap(s2, e2).c.open
    ensures forall j :: j in x2.ts || j in x2.fs ==> j in CoreSnap(s2, e2).c.open
    ensures forall j :: j in Outer(x2) <==> j in Outer(x1) || j in x1.ts || j in x1.fs
  {
    forall j | j in x1.ts || j in x1.fs ensures j in Outer(x2) { assert j in s1.c.open && j !in s1.hs; }
  }

  lemma JunctionFrame(s1: Snap, e1: ExpDesc, x1: Ctx, s2: Snap, e2: ExpDesc, x2: Ctx, s3: Snap, x3: Ctx)
    requires OuterFrame(s1, x1) && OuterFrame(s2, x2) && x2.s0 == s1
    requires Outer(x3) == Outer(x1) && x3.s0 == x1.s0
    requires forall j :: j in Outer(x1) ==> j in Outer(x2)
    requires SnapOk(s2) && Relinked(s2.c, s3.c)
    requires forall j :: j in Outer(x2) ==> 0 <= j < |s2.c.ins| && s3.c.ins[j] == s2.c.ins[j]
    ensures OuterFrame(s3, x3)
  {
    RelinkedOk(s2, s3.c);
    forall j | j in Outer(x3) ensures Keeps(x3.s0.c.ins, s3.c.ins, j) {
      assert Keeps(x1.s0.c.ins, s1.c.ins, j) && Keeps(s1.c.ins, s2.c.ins, j) && Keeps(s2.c.ins, s3.c.ins, j);
    }
  }
}
