/** Pending jumps: lists threaded through the `sBx` fields of the jump instructions
    themselves, and the effect of patching such a list. */
module JumpLists {
  import opened LuaSyntax
  import opened LuaVm

  const NO_JUMP: int := -1

  /** The next jump of the list after the one at `pc`. */
  function GetJump(ins: seq<Instr>, pc: int): int
    requires 0 <= pc < |ins| && ins[pc].JMP?
  {
    if ins[pc].sBx == NO_JUMP then NO_JUMP else Target(ins, pc)
  }

  /** `head` starts a list whose jumps are exactly `s`, in this order and without repetition. */
  ghost predicate IsList(ins: seq<Instr>, head: int, s: seq<int>)
    decreases |s|
  {
    if s == [] then head == NO_JUMP
    else
      && head == s[0]
      && 0 <= head < |ins| && ins[head].JMP?
      && head !in s[1..]
      && IsList(ins, GetJump(ins, head), s[1..])
  }

  ghost predicate Disjoint(s: seq<int>, t: seq<int>) {
    forall j :: j in s ==> j !in t
  }

  /** The test that controls the jump at `j` leaves its operand as a value. */
  predicate ProducesValue(ins: seq<Instr>, j: int) {
    1 <= j <= |ins| && ins[j - 1].TESTSET?
  }

  /** The test after losing its result register, or with `reg` as the register it sets. */
  function PatchTest(i: Instr, reg: int): Instr
    requires i.TESTSET?
  {
    if reg != NO_REG && reg != i.B then TESTSET(reg, i.B, i.C) else TEST(i.B, i.C)
  }

  function JumpTo(i: Instr, pc: int, dest: int): Instr
    requires i.JMP?
  {
    JMP(i.A, dest - (pc + 1))
  }

  function PatchedAt(ins: seq<Instr>, s: seq<int>, vtarget: int, reg: int, dtarget: int, q: int): Instr
    requires 0 <= q < |ins|
  {
    var i := ins[q];
    if i.JMP? && q in s then JumpTo(i, q, if ProducesValue(ins, q) then vtarget else dtarget)
    else if i.TESTSET? && q + 1 in s then PatchTest(i, reg)
    else i
  }

  /** The code after every jump of `s` is patched: tests producing values go to `vtarget`
      with `reg` as their register, the other jumps go to `dtarget`; nothing else changes. */
  function Patched(ins: seq<Instr>, s: seq<int>, vtarget: int, reg: int, dtarget: int): (r: seq<Instr>)
    ensures |r| == |ins|
  {
    seq(|ins|, q requires 0 <= q < |ins| => PatchedAt(ins, s, vtarget, reg, dtarget, q))
  }

  function DevaluedAt(ins: seq<Instr>, s: seq<int>, q: int): Instr
    requires 0 <= q < |ins|
  {
    if ins[q].TESTSET? && q + 1 in s then PatchTest(ins[q], NO_REG) else ins[q]
  }

  /** The code after no test controlling a jump of `s` produces a value any more. */
  function Devalued(ins: seq<Instr>, s: seq<int>): (r: seq<Instr>)
    ensures |r| == |ins|
  {
    seq(|ins|, q requires 0 <= q < |ins| => DevaluedAt(ins, s, q))
  }

  lemma {:induction false} ListElements(ins: seq<Instr>, head: int, s: seq<int>)
    requires IsList(ins, head, s)
    ensures forall j :: j in s ==> 0 <= j < |ins| && ins[j].JMP?
    ensures head == NO_JUMP <==> s == []
    decreases |s|
  {
    if s != [] {
      assert s == [s[0]] + s[1..];
      ListElements(ins, GetJump(ins, head), s[1..]);
    }
  }

  /** A list lives in its own instructions only. */
  lemma {:induction false} ListFrame(ins: seq<Instr>, ins2: seq<Instr>, head: int, s: seq<int>)
    requires IsList(ins, head, s)
    requires forall j :: j in s && 0 <= j < |ins| ==> j < |ins2| && ins2[j] == ins[j]
    ensures IsList(ins2, head, s)
    decreases |s|
  {
    if s != [] {
      assert s[0] in s && forall j :: j in s[1..] ==> j in s;
      ListFrame(ins, ins2, GetJump(ins, head), s[1..]);
    }
  }

  /** Two lists with no jump in common start differently, unless both are empty. */
  lemma HeadsDiffer(ins: seq<Instr>, h1: int, s1: seq<int>, h2: int, s2: seq<int>)
    requires IsList(ins, h1, s1) && IsList(ins, h2, s2) && Disjoint(s1, s2)
    ensures h1 == h2 <==> s1 == [] && s2 == []
  {
    if s1 != [] && s2 != [] { assert s1[0] in s1 && s2[0] in s2; }
  }

  /** Linking the last jump of one list to the head of another appends the lists. */
  lemma {:induction false} LinkAppends(ins: seq<Instr>, h1: int, s1: seq<int>, h2: int, s2: seq<int>)
    requires IsList(ins, h1, s1) && IsList(ins, h2, s2) && Disjoint(s1, s2)
    requires s1 != [] && s2 != []
    ensures var last := s1[|s1| - 1];
            0 <= last < |ins| && ins[last].JMP?
            && IsList(ins[last := JumpTo(ins[last], last, h2)], h1, s1 + s2)
    decreases |s1|
  {
    ListElements(ins, h1, s1);
    var last := s1[|s1| - 1];
    assert last in s1;
    var ins2 := ins[last := JumpTo(ins[last], last, h2)];
    assert (s1 + s2)[1..] == s1[1..] + s2;
    if |s1| == 1 {
      assert s1[1..] + s2 == s2;
      ListFrame(ins, ins2, h2, s2);
      ListElements(ins, h2, s2);
      assert h2 == s2[0] && h2 != last;
      assert GetJump(ins2, h1) == h2;
    } else {
      assert s1[1..][|s1[1..]| - 1] == last;
      LinkAppends(ins, GetJump(ins, h1), s1[1..], h2, s2);
      assert h1 != last;
    }
  }

  /** Patching one more jump of a list. */
  lemma PatchStep(ins: seq<Instr>, s: seq<int>, j: int, vtarget: int, reg: int, dtarget: int)
    requires 0 <= j < |ins| && ins[j].JMP? && j !in s
    requires forall q :: q in s ==> 0 <= q < |ins| && ins[q].JMP?
    ensures var p := Patched(ins, s, vtarget, reg, dtarget);
            var p1 := if ProducesValue(ins, j) then p[j - 1 := PatchTest(ins[j - 1], reg)] else p;
            p[j] == ins[j] && p1[j] == ins[j]
            && (j > 0 ==> p[j - 1] == ins[j - 1] || (!TestMode(ins[j - 1]) && !TestMode(p[j - 1])))
            && p1[j := JumpTo(ins[j], j, if ProducesValue(ins, j) then vtarget else dtarget)]
               == Patched(ins, s + [j], vtarget, reg, dtarget)
  {
  }

  lemma DevalueStep(ins: seq<Instr>, s: seq<int>, j: int)
    requires 0 <= j < |ins| && ins[j].JMP? && j !in s
    ensures var p := Devalued(ins, s);
            p[j] == ins[j] && (j > 0 ==> p[j - 1] == ins[j - 1])
            && (if ProducesValue(ins, j) then p[j - 1 := PatchTest(ins[j - 1], NO_REG)] else p)
               == Devalued(ins, s + [j])
  {
  }
}
