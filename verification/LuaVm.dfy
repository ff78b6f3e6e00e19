/** The instructions the expression compiler emits, a register machine for them, and
    the big-step meaning of a stretch of code some of whose jumps are still open. */
module LuaVm {
  import opened Prelude
  import opened LuaSyntax

  const NO_REG: int := 255        // largest A operand: "no register yet"
  const BITRK: int := 256         // set in an RK operand that names a constant
  const MAXINDEXRK: int := BITRK - 1
  const MAXARG_Bx: int := 0x3FFFF
  const MAXARG_sBx: int := 0x1FFFF
  const MAXREGS: int := 255
  const MAXUPVAL: int := 255
  const MAXARG_A: int := 0xFF
  const MAXARG_B: int := 0x1FF
  const MAXARG_C: int := 0x1FF
  const MAXARG_Ax: int := 0x3FFFFFF

  datatype Instr =
    | MOVE(A: int, B: int)
    | LOADK(A: int, Bx: int)
    | LOADKX(A: int)
    | EXTRAARG(Ax: int)
    | LOADBOOL(A: int, B: int, C: int)
    | LOADNIL(A: int, B: int)
    | GETUPVAL(A: int, B: int)
    | ARITH(op: BinOpr, A: int, B: int, C: int)   // ADD .. SHR
    | UNARY(uop: UnOpr, A: int, B: int)           // UNM, BNOT, LEN
    | OPNOT(A: int, B: int)
    | OPCONCAT(A: int, B: int, C: int)
    | JMP(A: int, sBx: int)
    | COMPARE(op: BinOpr, A: int, B: int, C: int) // EQ, LT, LE
    | TEST(A: int, C: int)
    | TESTSET(A: int, B: int, C: int)
    | RETURN(A: int, B: int)

  predicate FitsA(a: int) { 0 <= a <= MAXARG_A }
  predicate FitsB(b: int) { 0 <= b <= MAXARG_B }
  predicate FitsC(c: int) { 0 <= c <= MAXARG_C }
  predicate Register(r: int) { 0 <= r < MAXREGS }

  /** The operands fit the fields of an instruction word. */
  ghost predicate Fits(i: Instr) { forall k :: Key(k) ==> FitsKeyed(i) }

  predicate FitsKeyed(i: Instr) {
    match i
    case MOVE(a, b) => FitsA(a) && Register(b)
    case LOADK(a, bx) => FitsA(a) && 0 <= bx <= MAXARG_Bx
    case LOADKX(a) => FitsA(a)
    case EXTRAARG(ax) => 0 <= ax <= MAXARG_Ax
    case LOADBOOL(a, b, c) => FitsA(a) && FitsB(b) && FitsC(c)
    case LOADNIL(a, b) => Register(a) && 0 <= b && Register(a + b)
    case GETUPVAL(a, b) => FitsA(a) && FitsB(b)
    case ARITH(op, a, b, c) => IsArith(op) && FitsA(a) && FitsB(b) && FitsC(c)
    case UNARY(op, a, b) => op != NOT && FitsA(a) && Register(b)
    case OPNOT(a, b) => FitsA(a) && Register(b)
    case OPCONCAT(a, b, c) => FitsA(a) && Register(b) && Register(c)
    case JMP(a, sbx) => FitsA(a) && -MAXARG_sBx <= sbx <= MAXARG_sBx
    case COMPARE(op, a, b, c) => (op == EQ || op == LT || op == LE) && FitsA(a) && FitsB(b) && FitsC(c)
    case TEST(a, c) => Register(a) && FitsC(c)
    case TESTSET(a, b, c) => FitsA(a) && Register(b) && FitsC(c)
    case RETURN(a, b) => FitsA(a) && FitsB(b)
  }

  /** An instruction that can be encoded. */
  type Encodable = i: Instr | Fits(i) ghost witness MOVE(0, 0)

  lemma FitsOut(i: Encodable)
    ensures FitsKeyed(i)
  {
    assert Key(0);
  }

  /** A constant table whose indices fit an instruction word. */
  type Constants = k: seq<Value> | |k| <= MAXARG_Ax witness []

  predicate ISK(x: int) { x >= BITRK }
  function INDEXK(x: int): int { x - BITRK }
  function RKASK(x: int): int { x + BITRK }

  /** The instruction is a test: the next one must be a jump. */
  predicate TestMode(i: Instr) {
    i.COMPARE? || i.TEST? || i.TESTSET?
  }

  function Kst(k: seq<Value>, i: int): Value {
    if 0 <= i < |k| then k[i] else Nil
  }

  function RK(k: seq<Value>, R: Regs, x: int): Value {
    if ISK(x) then Kst(k, INDEXK(x)) else Get(R, x)
  }

  function SetNil(R: Regs, from: int, last: int): Regs {
    R + map r: int | from <= r <= last && Within(from, last, r) :: Nil
  }

  predicate Within(from: int, last: int, r: int) { from <= r <= last }

  /** R(B) .. ... .. R(C), right associative. */
  function ConcatRange(S: Semantics, R: Regs, b: int, c: int): Value
    decreases c - b
  {
    if b >= c then Get(R, c) else S.arith(CONCAT, Get(R, b), ConcatRange(S, R, b + 1, c))
  }

  /** The instruction computes one value into R(A) and nothing else. */
  predicate SetsA(i: Instr) {
    i.MOVE? || i.LOADK? || i.GETUPVAL? || i.ARITH? || i.UNARY? || i.OPNOT? || i.OPCONCAT?
  }

  /** The same instruction with `a` as the register it sets. */
  function WithA(i: Instr, a: int): (r: Instr)
    requires SetsA(i)
    ensures SetsA(r) && r.A == a && r.OPCONCAT? == i.OPCONCAT?
    ensures forall S, k, R :: ValueOf(S, k, r, R) == ValueOf(S, k, i, R)
  {
    match i
    case MOVE(_, b) => MOVE(a, b)
    case LOADK(_, bx) => LOADK(a, bx)
    case GETUPVAL(_, b) => GETUPVAL(a, b)
    case ARITH(op, _, b, c) => ARITH(op, a, b, c)
    case UNARY(op, _, b) => UNARY(op, a, b)
    case OPNOT(_, b) => OPNOT(a, b)
    case OPCONCAT(_, b, c) => OPCONCAT(a, b, c)
  }

  function ValueOf(S: Semantics, k: seq<Value>, i: Instr, R: Regs): Value
    requires SetsA(i)
  {
    match i
    case MOVE(_, b) => Get(R, b)
    case LOADK(_, bx) => Kst(k, bx)
    case GETUPVAL(_, b) => if b >= 0 then S.upvalue(b) else Nil
    case ARITH(op, _, b, c) => S.arith(op, RK(k, R, b), RK(k, R, c))
    case UNARY(op, _, b) => S.unary(op, Get(R, b))
    case OPNOT(_, b) => Bool(!Truthy(Get(R, b)))
    case OPCONCAT(_, b, c) => ConcatRange(S, R, b, c)
  }

  /** The condition of a test, before it is compared with its A or C operand. */
  function TestValue(S: Semantics, k: seq<Value>, i: Instr, R: Regs): bool
    requires TestMode(i)
  {
    match i
    case COMPARE(op, _, b, c) => IsComparison(op) && Compare(S, op, RK(k, R, b), RK(k, R, c))
    case TEST(a, _) => Truthy(Get(R, a))
    case TESTSET(_, b, _) => Truthy(Get(R, b))
  }

  /** The test accepts, so that the jump after it is executed. */
  predicate Accepts(S: Semantics, k: seq<Value>, i: Instr, R: Regs)
    requires TestMode(i)
  {
    TestValue(S, k, i, R) == ((if i.COMPARE? then i.A else i.C) != 0)
  }

  /** The instruction at `p` neither tests nor jumps through an `sBx`. */
  predicate Plain(ins: seq<Instr>, p: int)
    requires 0 <= p < |ins|
  {
    var i := ins[p];
    || SetsA(i) || i.LOADBOOL? || i.LOADNIL?
    || (i.LOADKX? && p + 1 < |ins| && ins[p + 1].EXTRAARG?)
  }

  function PlainNext(ins: seq<Instr>, p: int): int
    requires 0 <= p < |ins| && Plain(ins, p)
  {
    var i := ins[p];
    if (i.LOADBOOL? && i.C != 0) || i.LOADKX? then p + 2 else p + 1
  }

  function PlainRegs(S: Semantics, k: seq<Value>, ins: seq<Instr>, p: int, R: Regs): Regs
    requires 0 <= p < |ins| && Plain(ins, p)
  {
    var i := ins[p];
    if SetsA(i) then R[i.A := ValueOf(S, k, i, R)]
    else if i.LOADBOOL? then R[i.A := Bool(i.B != 0)]
    else if i.LOADNIL? then SetNil(R, i.A, i.A + i.B)
    else R[i.A := Kst(k, ins[p + 1].Ax)]
  }

  // ----- the machine, one instruction at a time

  datatype Machine = Running(pc: int, R: Regs) | Halted

  function Step(S: Semantics, k: seq<Value>, code: seq<Instr>, m: Machine): Machine {
    if m.Halted? || !(0 <= m.pc < |code|) then Halted
    else
      var pc, R := m.pc, m.R;
      var i := code[pc];
      if Plain(code, pc) then Running(PlainNext(code, pc), PlainRegs(S, k, code, pc, R))
      else if i.JMP? then Running(pc + 1 + i.sBx, R)
      else if TestMode(i) then
        if Accepts(S, k, i, R)
        then Running(pc + 1, if i.TESTSET? then R[i.A := Get(R, i.B)] else R)
        else Running(pc + 2, R)
      else Halted
  }

  function Steps(S: Semantics, k: seq<Value>, code: seq<Instr>, m: Machine, n: nat): Machine
    decreases n
  {
    if n == 0 then m else Steps(S, k, code, Step(S, k, code, m), n - 1)
  }

  // ----- code with open jumps

  /** Code under construction: its instructions, its constants, and the positions
      of the jumps whose destination is not known yet (their `sBx` is a list link). */
  datatype Code = Code(ins: seq<Instr>, k: seq<Value>, open: set<int>)

  /** How a run leaves the code: off its end, through an open jump, or not at all. */
  datatype Outcome = Fall(R: Regs) | Jumped(j: int, R: Regs) | Stuck

  function Target(ins: seq<Instr>, j: int): int
    requires 0 <= j < |ins| && ins[j].JMP?
  {
    j + 1 + ins[j].sBx
  }

  /** Big-step run from position `p` of code whose closed jumps all go forward.  A
      TESTSET without a register yet only tests. */
  ghost function Exec(S: Semantics, c: Code, p: int, R: Regs): Outcome
    decreases |c.ins| - p
  {
    if p == |c.ins| then Fall(R)
    else if !(0 <= p < |c.ins|) then Stuck
    else
      var i := c.ins[p];
      if Plain(c.ins, p) then Exec(S, c, PlainNext(c.ins, p), PlainRegs(S, c.k, c.ins, p, R))
      else if i.JMP? then Leave(S, c, p, R)
      else if TestMode(i) then
        if !Accepts(S, c.k, i, R) then Exec(S, c, p + 2, R)
        else if p + 1 < |c.ins| && c.ins[p + 1].JMP?
        then Leave(S, c, p + 1, if i.TESTSET? && i.A != NO_REG then R[i.A := Get(R, i.B)] else R)
        else Stuck
      else Stuck
  }

  /** Executing the jump at `j`. */
  ghost function Leave(S: Semantics, c: Code, j: int, R: Regs): Outcome
    requires 0 <= j < |c.ins| && c.ins[j].JMP?
    decreases |c.ins| - j, 0
  {
    if j in c.open then Jumped(j, R)
    else if j < Target(c.ins, j) then Exec(S, c, Target(c.ins, j), R)
    else Stuck
  }

  /** A position where execution may arrive other than from the instruction before:
      neither the jump of a test nor the argument of a LOADKX. */
  predicate Entry(ins: seq<Instr>, p: int) {
    0 <= p <= |ins| && (p > 0 ==> !TestMode(ins[p - 1]) && !ins[p - 1].LOADKX?)
  }

  ghost predicate WellFormedAt(c: Code, last: int, q: int)
    requires 0 <= q < |c.ins|
  {
    var n := |c.ins|;
    var i := c.ins[q];
    && (TestMode(i) ==> q + 1 < n && c.ins[q + 1].JMP?)
    && (i.TESTSET? ==> (i.A == NO_REG <==> q + 1 in c.open))
    && (i.JMP? && q !in c.open ==> q < Target(c.ins, q) <= last && Entry(c.ins, Target(c.ins, q)))
    && (i.LOADBOOL? && i.C != 0 ==> q + 2 <= last && Entry(c.ins, q + 2))
    && (i.LOADKX? ==> q + 1 < n && c.ins[q + 1].EXTRAARG? && 0 <= c.ins[q + 1].Ax < |c.k|)
    && (i.EXTRAARG? ==> q > 0 && c.ins[q - 1].LOADKX?)
    && (i.LOADK? ==> 0 <= i.Bx < |c.k|)
    && (i.LOADNIL? ==> 0 <= i.B)
    && (i.ARITH? ==> RKInRange(c.k, i.B) && RKInRange(c.k, i.C))
    && (i.COMPARE? ==> RKInRange(c.k, i.B) && RKInRange(c.k, i.C))
    && !i.RETURN?
  }

  predicate RKInRange(k: seq<Value>, x: int) {
    ISK(x) ==> INDEXK(x) < |k|
  }

  /** Code the run of which never gets stuck; closed jumps go forward, to entry
      positions not beyond `last`, the last position marked as a jump target. */
  ghost predicate WellFormed(c: Code, last: int) {
    && 0 <= last <= |c.ins|
    && (forall q :: q in c.open ==> 0 <= q < |c.ins| && c.ins[q].JMP?)
    && (forall q :: 0 <= q < |c.ins| ==> WellFormedAt(c, last, q))
  }

  /** The open jump `j` of `c` may have been closed in `c2`, where it then goes forward. */
  ghost predicate Closed(c2: Code, j: int)
    requires 0 <= j < |c2.ins| && c2.ins[j].JMP?
  {
    j !in c2.open ==> j < Target(c2.ins, j)
  }

  ghost predicate ExtendsAt(c: Code, c2: Code, q: int)
    requires 0 <= q < |c.ins| <= |c2.ins|
  {
    var i, i2 := c.ins[q], c2.ins[q];
    if i.JMP? then
      && i2.JMP?
      && (q in c.open ==> Closed(c2, q))
      && (q !in c.open ==> i2 == i && q !in c2.open)
    else if i.TESTSET? && i.A == NO_REG then
      || i2 == i
      || i2 == TEST(i.B, i.C)
      || (i2.TESTSET? && i2.A != NO_REG && i2.B == i.B && i2.C == i.C && q + 1 !in c2.open)
    else
      i2 == i
  }

  /** `c2` continues `c`: more instructions and constants, some open jumps closed, and
      the register of a test that had none chosen or dropped. */
  ghost predicate Extends(c: Code, c2: Code) {
    && |c.ins| <= |c2.ins|
    && c.k <= c2.k
    && (forall q :: 0 <= q < |c.ins| ==> ExtendsAt(c, c2, q))
  }

  /** The registers with which the closed jump `j` arrives at its target, when the
      open jump it was left the code with `R`. */
  function AtTarget(c2: Code, j: int, R: Regs): Regs
    requires 0 <= j < |c2.ins|
  {
    if j > 0 && c2.ins[j - 1].TESTSET? && c2.ins[j - 1].A != NO_REG
    then R[c2.ins[j - 1].A := Get(R, c2.ins[j - 1].B)] else R
  }

  /** How a run of the continued code goes on where a run of its first `n` instructions left. */
  ghost function Continue(S: Semantics, c2: Code, n: int, out: Outcome): Outcome {
    match out
    case Fall(R) => Exec(S, c2, n, R)
    case Jumped(j, R) =>
      if !(0 <= j < |c2.ins|) || !c2.ins[j].JMP? then Stuck
      else if j in c2.open then Jumped(j, R)
      else if j < Target(c2.ins, j) then Exec(S, c2, Target(c2.ins, j), AtTarget(c2, j, R))
      else Stuck
    case Stuck => Stuck
  }

  lemma ValueOfFrame(S: Semantics, k: seq<Value>, k2: seq<Value>, i: Instr, R: Regs)
    requires SetsA(i) && k <= k2
    requires i.LOADK? ==> 0 <= i.Bx < |k|
    requires i.ARITH? ==> RKInRange(k, i.B) && RKInRange(k, i.C)
    ensures ValueOf(S, k2, i, R) == ValueOf(S, k, i, R)
  {
  }

  lemma AcceptsFrame(S: Semantics, k: seq<Value>, k2: seq<Value>, i: Instr, i2: Instr, R: Regs)
    requires TestMode(i) && k <= k2
    requires i.COMPARE? ==> RKInRange(k, i.B) && RKInRange(k, i.C)
    requires i2 == i || (i.TESTSET? && (i2 == TEST(i.B, i.C)
                                        || (i2.TESTSET? && i2.B == i.B && i2.C == i.C)))
    ensures TestMode(i2) && Accepts(S, k2, i2, R) == Accepts(S, k, i, R)
  {
  }

  /** The central simulation: running continued code is running the original code and
      going on from where it left, with the values of the closed tests stored on the way. */
  lemma {:induction false} Simulation(S: Semantics, c: Code, last: int, c2: Code, p: int, R: Regs)
    requires WellFormed(c, last) && Extends(c, c2) && Entry(c.ins, p)
    ensures !Exec(S, c, p, R).Stuck?
    ensures Exec(S, c2, p, R) == Continue(S, c2, |c.ins|, Exec(S, c, p, R))
    decreases |c.ins| - p
  {
    if p < |c.ins| {
      assert WellFormedAt(c, last, p);
      if TestMode(c.ins[p]) {
        SimulationTest(S, c, last, c2, p, R);
      } else if c.ins[p].JMP? {
        SimulationJump(S, c, last, c2, p, R);
        if p > 0 { assert ExtendsAt(c, c2, p - 1); }
        assert ExtendsAt(c, c2, p);
        assert AtTarget(c2, p, R) == R;
      } else {
        SimulationStraight(S, c, last, c2, p, R);
      }
    }
  }

  lemma {:induction false} SimulationStraight(S: Semantics, c: Code, last: int, c2: Code, p: int, R: Regs)
    requires WellFormed(c, last) && Extends(c, c2) && Entry(c.ins, p) && p < |c.ins|
    requires !TestMode(c.ins[p]) && !c.ins[p].JMP?
    ensures !Exec(S, c, p, R).Stuck?
    ensures Exec(S, c2, p, R) == Continue(S, c2, |c.ins|, Exec(S, c, p, R))
    decreases |c.ins| - p, 0
  {
    PlainFrame(S, c, last, c2, p, R);
    Simulation(S, c, last, c2, PlainNext(c.ins, p), PlainRegs(S, c.k, c.ins, p, R));
  }

  lemma PlainFrame(S: Semantics, c: Code, last: int, c2: Code, p: int, R: Regs)
    requires WellFormed(c, last) && Extends(c, c2) && Entry(c.ins, p) && p < |c.ins|
    requires !TestMode(c.ins[p]) && !c.ins[p].JMP?
    ensures Plain(c.ins, p) && Plain(c2.ins, p)
    ensures PlainNext(c2.ins, p) == PlainNext(c.ins, p)
    ensures p < PlainNext(c.ins, p) && Entry(c.ins, PlainNext(c.ins, p))
    ensures PlainRegs(S, c2.k, c2.ins, p, R) == PlainRegs(S, c.k, c.ins, p, R)
  {
    var i := c.ins[p];
    assert WellFormedAt(c, last, p) && ExtendsAt(c, c2, p);
    if SetsA(i) { ValueOfFrame(S, c.k, c2.k, i, R); }
    if i.LOADKX? { assert ExtendsAt(c, c2, p + 1) && WellFormedAt(c, last, p + 1); }
  }

  lemma {:induction false} SimulationJump(S: Semantics, c: Code, last: int, c2: Code, j: int, R: Regs)
    requires WellFormed(c, last) && Extends(c, c2) && 0 <= j < |c.ins| && c.ins[j].JMP?
    ensures !Leave(S, c, j, R).Stuck?
    ensures j in c.open ==> Leave(S, c, j, R) == Jumped(j, R)
    ensures j !in c.open ==> c2.ins[j].JMP? && Leave(S, c2, j, R) == Continue(S, c2, |c.ins|, Leave(S, c, j, R))
    decreases |c.ins| - j, 0
  {
    assert WellFormedAt(c, last, j) && ExtendsAt(c, c2, j);
    if j !in c.open {
      Simulation(S, c, last, c2, Target(c.ins, j), R);
    }
  }

  lemma {:induction false} SimulationTest(S: Semantics, c: Code, last: int, c2: Code, p: int, R: Regs)
    requires WellFormed(c, last) && Extends(c, c2) && 0 <= p < |c.ins| && TestMode(c.ins[p])
    ensures !Exec(S, c, p, R).Stuck?
    ensures Exec(S, c2, p, R) == Continue(S, c2, |c.ins|, Exec(S, c, p, R))
    decreases |c.ins| - p, 0
  {
    var i, i2 := c.ins[p], c2.ins[p];
    assert WellFormedAt(c, last, p) && ExtendsAt(c, c2, p);
    assert WellFormedAt(c, last, p + 1) && ExtendsAt(c, c2, p + 1);
    AcceptsFrame(S, c.k, c2.k, i, i2, R);
    if Accepts(S, c.k, i, R) {
      var R1 := if i.TESTSET? && i.A != NO_REG then R[i.A := Get(R, i.B)] else R;
      SimulationJump(S, c, last, c2, p + 1, R1);
    } else {
      Simulation(S, c, last, c2, p + 2, R);
    }
  }

  /** Code with no open jump runs on the machine exactly as its big-step meaning says. */
  lemma {:induction false} Adequacy(S: Semantics, c: Code, last: int, p: int, R: Regs) returns (n: nat)
    requires WellFormed(c, last) && c.open == {} && Entry(c.ins, p)
    ensures Exec(S, c, p, R).Fall?
    ensures Steps(S, c.k, c.ins, Running(p, R), n) == Running(|c.ins|, Exec(S, c, p, R).R)
    decreases |c.ins| - p
  {
    if p == |c.ins| {
      n := 0;
      return;
    }
    if TestMode(c.ins[p]) {
      n := AdequacyTest(S, c, last, p, R);
    } else if c.ins[p].JMP? {
      assert WellFormedAt(c, last, p);
      n := Adequacy(S, c, last, Target(c.ins, p), R);
      n := n + 1;
    } else {
      PlainFrame(S, c, last, c, p, R);
      n := Adequacy(S, c, last, PlainNext(c.ins, p), PlainRegs(S, c.k, c.ins, p, R));
      n := n + 1;
    }
  }

  lemma {:induction false} AdequacyTest(S: Semantics, c: Code, last: int, p: int, R: Regs) returns (n: nat)
    requires WellFormed(c, last) && c.open == {} && 0 <= p < |c.ins| && TestMode(c.ins[p])
    ensures Exec(S, c, p, R).Fall?
    ensures Steps(S, c.k, c.ins, Running(p, R), n) == Running(|c.ins|, Exec(S, c, p, R).R)
    decreases |c.ins| - p, 0
  {
    var i := c.ins[p];
    assert WellFormedAt(c, last, p) && WellFormedAt(c, last, p + 1);
    if Accepts(S, c.k, i, R) {
      var R1 := if i.TESTSET? then R[i.A := Get(R, i.B)] else R;
      n := Adequacy(S, c, last, Target(c.ins, p + 1), R1);
      assert Step(S, c.k, c.ins, Running(p + 1, R1)) == Running(Target(c.ins, p + 1), R1);
      assert Exec(S, c, p, R) == Leave(S, c, p + 1, R1);
      assert Steps(S, c.k, c.ins, Running(p + 1, R1), n + 1) == Running(|c.ins|, Exec(S, c, p, R).R);
      n := n + 2;
    } else {
      n := Adequacy(S, c, last, p + 2, R);
      n := n + 1;
    }
  }

  /** What runs without halting also runs in longer code. */
  lemma {:induction false} StepsExtend(S: Semantics, k: seq<Value>, ins: seq<Instr>, tail: seq<Instr>, m: Machine, n: nat)
    requires Steps(S, k, ins, m, n).Running?
    ensures Steps(S, k, ins + tail, m, n) == Steps(S, k, ins, m, n)
    decreases n
  {
    if n > 0 {
      HaltedStays(S, k, ins, n - 1);
      StepExtend(S, k, ins, tail, m);
      StepsExtend(S, k, ins, tail, Step(S, k, ins, m), n - 1);
    }
  }

  lemma StepExtend(S: Semantics, k: seq<Value>, ins: seq<Instr>, tail: seq<Instr>, m: Machine)
    requires Step(S, k, ins, m).Running?
    ensures Step(S, k, ins + tail, m) == Step(S, k, ins, m)
  {
    assert (ins + tail)[m.pc] == ins[m.pc];
    if m.pc + 1 < |ins| { assert (ins + tail)[m.pc + 1] == ins[m.pc + 1]; }
  }

  lemma {:induction false} HaltedStays(S: Semantics, k: seq<Value>, ins: seq<Instr>, n: nat)
    ensures Steps(S, k, ins, Halted, n) == Halted
    decreases n
  {
    if n > 0 { HaltedStays(S, k, ins, n - 1); }
  }
}
