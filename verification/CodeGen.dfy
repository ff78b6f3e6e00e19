/** The one-pass code generator for expressions. */
module CodeGen {
  import opened Prelude
  import opened LuaSyntax
  import opened LuaVm
  import opened JumpLists
  import opened ExprSpec
  import opened ExprLemmas

  /** The outcome of a code generation step; an error abandons the whole compilation. */
  datatype Status = Pass | SyntaxError(msg: string) {
    predicate IsFailure() { SyntaxError? }

    function PropagateFailure(): Status
      requires SyntaxError?
    {
      this
    }
  }

  function NoExits(k: Kind): ExpDesc { ExpDesc(k, NO_JUMP, NO_JUMP) }

  class FuncState {
    const S: Semantics
    var code: seq<Encodable>
    var k: Constants
    var kcache: map<Value, int>   // the scanner's table: where a constant may be in `k`
    var jpc: int                  // list of pending jumps to the current position
    var lasttarget: int           // last position marked as a jump target
    var freereg: int              // first free register
    var nactvar: int              // number of active local variables
    var maxstacksize: int
    ghost var hs: seq<int>        // the jumps in list `jpc`
    ghost var open: set<int>      // the jumps without a destination

    ghost function Now(): Snap
      reads this
    {
      Snap(Code(code, k, open), hs, lasttarget)
    }

    ghost predicate ListsOk()
      reads this
    {
      && IsList(code, jpc, hs)
      && forall v :: v in kcache ==> 0 <= kcache[v]
    }

    ghost predicate Valid()
      reads this
    {
      && ListsOk()
      && SnapOk(Now())
      && 0 <= nactvar <= freereg <= maxstacksize < MAXREGS
    }

    /** The register discipline around an expression compiled from first register
        `base`: it holds register `base`, or none above the locals. */
    ghost predicate Regs(e: ExpDesc, base: int)
      reads this
    {
      && nactvar <= base
      && (e.k.VLOCAL? ==> e.k.info < nactvar)
      && freereg == (if e.k.VNONRELOC? && e.k.info >= nactvar then base + 1 else base)
      && (e.k.VNONRELOC? && e.k.info >= nactvar ==> e.k.info == base)
    }

    /** One of the limits is reached: the length of a jump, the registers of a function or
        the number of its constants. Nothing else makes compilation fail. */
    predicate AtLimit()
      reads this
    {
      |code| > MAXARG_sBx || freereg + 1 >= MAXREGS || |k| >= MAXARG_Ax
    }

    /** A position in the code, or none. */
    predicate InCode(pc: int)
      reads this
    {
      NO_JUMP <= pc <= |code|
    }

    constructor (S: Semantics)
      ensures Valid() && code == [] && k == [] && open == {} && hs == [] && this.S == S
      ensures nactvar == 0 && freereg == 0
    {
      this.S := S;
      code, k, kcache := [], [], map[];
      jpc, lasttarget := NO_JUMP, 0;
      freereg, nactvar, maxstacksize := 0, 0, 2;
      hs, open := [], {};
    }

    // ----- jump lists

    method FixJump(pc: int, dest: int) returns (st: Status)
      requires 0 <= pc < |code| && code[pc].JMP? && dest != NO_JUMP
      modifies `code
      ensures st.Pass? <==> -MAXARG_sBx <= dest - (pc + 1) <= MAXARG_sBx
      ensures code == if st.Pass? then old(code)[pc := JumpTo(old(code)[pc], pc, dest)] else old(code)
    {
      var offset := dest - (pc + 1);
      if offset > MAXARG_sBx || -offset > MAXARG_sBx {
        return SyntaxError("control structure too long");
      }
      code := code[pc := JMP(code[pc].A, offset)];
      return Pass;
    }

    /** Appends list `l2` to list `l1`. */
    method Concat(l1: int, l2: int, ghost s1: seq<int>, ghost s2: seq<int>) returns (st: Status, l: int)
      requires IsList(code, l1, s1) && IsList(code, l2, s2) && Disjoint(s1, s2)
      modifies `code
      ensures st.Pass? ==>
                && |code| == |old(code)|
                && IsList(code, l, s1 + s2)
                && forall q :: 0 <= q < |code| ==>
                     code[q] == old(code)[q] || (q in s1 && old(code)[q].JMP? && code[q].JMP?)
      ensures st.Pass? && (s1 == [] || s2 == []) ==> code == old(code)
      ensures st.Pass? && s2 != [] && |s1| == 1 ==>
                && code[..s1[0]] == old(code)[..s1[0]] && code[s1[0] + 1..] == old(code)[s1[0] + 1..]
                && code[s1[0]].JMP? && old(code)[s1[0]].JMP? && code[s1[0]].A == old(code)[s1[0]].A
      ensures st.SyntaxError? ==> AtLimit()
    {
      l := l1;
      if l2 == NO_JUMP {
        ListElements(code, l2, s2);
        assert s1 + s2 == s1;
        return Pass, l1;
      } else if l1 == NO_JUMP {
        ListElements(code, l1, s1);
        assert s1 + s2 == s2;
        return Pass, l2;
      } else {
        ListElements(code, l1, s1);
        ListElements(code, l2, s2);
        var list := l1;
        var next := GetJump(code, list);
        ghost var i := 0;
        while next != NO_JUMP
          invariant 0 <= i < |s1| && code == old(code)
          invariant list == s1[i] && 0 <= list < |code| && code[list].JMP?
          invariant next == GetJump(code, list)
          invariant IsList(code, list, s1[i..])
          decreases |s1| - i
        {
          assert s1[i..][1..] == s1[i + 1..];
          ListElements(code, next, s1[i + 1..]);
          list := next;
          i := i + 1;
          next := GetJump(code, list);
        }
        assert s1[i..][1..] == s1[i + 1..];
        ListElements(code, next, s1[i + 1..]);
        LinkAppends(code, l1, s1, l2, s2);
        assert list in s1;
        :- FixJump(list, l2);
        st := Pass;
      }
    }

    /** Gives the test controlling the jump at `node` its register, or drops its value. */
    method PatchTestReg(node: int, reg: int) returns (patched: bool)
      requires 0 <= node < |code| && FitsA(reg)
      modifies `code
      ensures patched == ProducesValue(old(code), node)
      ensures code == if patched then old(code)[node - 1 := PatchTest(old(code)[node - 1], reg)] else old(code)
    {
      if node < 1 || !code[node - 1].TESTSET? {
        return false;
      }
      code := code[node - 1 := PatchTest(code[node - 1], reg)];
      return true;
    }

    method RemoveValues(list0: int, ghost s: seq<int>)
      requires IsList(code, list0, s)
      modifies `code
      ensures code == Devalued(old(code), s)
    {
      var list := list0;
      ghost var i := 0;
      assert Devalued(old(code), s[..0]) == old(code);
      while list != NO_JUMP
        invariant 0 <= i <= |s|
        invariant code == Devalued(old(code), s[..i])
        invariant IsList(old(code), list0, s) && IsList(old(code), list, s[i..])
        invariant forall j :: j in s[..i] ==> j !in s[i..]
        decreases |s| - i
      {
        ListElements(old(code), list, s[i..]);
        assert s[i..][1..] == s[i + 1..];
        assert s[..i + 1] == s[..i] + [list];
        DevalueStep(old(code), s[..i], list);
        var _ := PatchTestReg(list, NO_REG);
        list := GetJump(code, list);
        i := i + 1;
      }
      ListElements(old(code), list, s[i..]);
      assert s[..i] == s;
    }

    /** Patches the jump at `list`, after those of `done`. */
    method PatchOne(list: int, vtarget: int, reg: int, dtarget: int, ghost ins: seq<Instr>, ghost done: seq<int>)
      returns (st: Status)
      requires 0 <= list < |ins| && ins[list].JMP? && list !in done && vtarget != NO_JUMP && FitsA(reg)
      requires forall q :: q in done ==> 0 <= q < |ins| && ins[q].JMP?
      requires code == Patched(ins, done, vtarget, reg, dtarget)
      requires dtarget == NO_JUMP ==> ProducesValue(ins, list)
      modifies `code
      ensures st.Pass? ==> code == Patched(ins, done + [list], vtarget, reg, dtarget)
      ensures |code| == |old(code)| && (st.SyntaxError? && InCode(vtarget) && InCode(dtarget) ==> AtLimit())
    {
      PatchStep(ins, done, list, vtarget, reg, dtarget);
      var patched := PatchTestReg(list, reg);
      st := FixJump(list, if patched then vtarget else dtarget);
    }

    /** Patches every jump of a list. */
    method PatchListAux(list0: int, vtarget: int, reg: int, dtarget: int, ghost s: seq<int>) returns (st: Status)
      requires IsList(code, list0, s) && vtarget != NO_JUMP && FitsA(reg)
      requires dtarget == NO_JUMP ==> forall j :: j in s ==> ProducesValue(code, j)
      modifies `code
      ensures st.Pass? ==> code == Patched(old(code), s, vtarget, reg, dtarget)
      ensures |code| == |old(code)| && (st.SyntaxError? && InCode(vtarget) && InCode(dtarget) ==> AtLimit())
    {
      var list := list0;
      ghost var i := 0;
      assert Patched(old(code), s[..0], vtarget, reg, dtarget) == old(code);
      ListElements(code, list0, s);
      while list != NO_JUMP
        invariant 0 <= i <= |s|
        invariant code == Patched(old(code), s[..i], vtarget, reg, dtarget)
        invariant IsList(old(code), list, s[i..])
        invariant forall j :: j in s[..i] ==> j !in s[i..]
        decreases |s| - i
      {
        ListElements(old(code), list, s[i..]);
        assert s[i..][1..] == s[i + 1..];
        assert s[..i + 1] == s[..i] + [list];
        assert list in s && forall j :: j in s[..i] ==> j in s;
        var next := GetJump(code, list);
        assert code[list] == old(code)[list] by { PatchStep(old(code), s[..i], list, vtarget, reg, dtarget); }
        :- PatchOne(list, vtarget, reg, dtarget, old(code), s[..i]);
        list := next;
        i := i + 1;
      }
      ListElements(old(code), list, s[i..]);
      assert s[..i] == s;
      st := Pass;
    }

    // ----- emitting instructions

    /** Sends the pending jumps to the current position. */
    method DischargeJpc() returns (st: Status)
      requires ListsOk() && Disjoint(hs, [|code|])
      modifies `code, `jpc, `hs, `open
      ensures st.Pass? ==>
                && code == DischargedIns(old(Now())) && open == old(open) - (set j | j in old(hs))
                && jpc == NO_JUMP && hs == []
      ensures st.SyntaxError? ==> AtLimit()
    {
      st := Pass;
      :- PatchListAux(jpc, |code|, NO_REG, |code|, hs);
      jpc := NO_JUMP;
      open := open - set j | j in hs;
      hs := [];
      st := Pass;
    }

    /** Emits an instruction and returns its position. */
    method PutCode(i: Encodable) returns (st: Status, pc: int)
      requires ListsOk()
      modifies `code, `jpc, `hs, `open
      ensures st.Pass? ==>
                && pc == |old(code)| && Now() == Emit(Discharged(old(Now())), [i])
                && jpc == NO_JUMP && ListsOk()
      ensures st.SyntaxError? ==> AtLimit()
    {
      pc := |code|;
      ListElements(code, jpc, hs);
      :- DischargeJpc();
      code := code + [i];
      st := Pass;
    }

    /** Emits a jump whose destination will be fixed later; the pending jumps to this
        position go wherever it will go. */
    method Jump() returns (st: Status, j: int)
      requires ListsOk()
      modifies `code, `jpc, `hs, `open
      ensures st.Pass? ==>
                && j == |old(code)| && |code| == j + 1 && code[..j] == old(code) && code[j].JMP? && code[j].A == 0
                && (old(hs) == [] ==> code[j] == JMP(0, NO_JUMP))
                && IsList(code, j, [j] + old(hs))
                && open == old(open) + {j} && jpc == NO_JUMP && hs == [] && ListsOk()
      ensures st.SyntaxError? ==> AtLimit()
    {
      var saved := jpc;
      ghost var shs := hs;
      ListElements(code, saved, shs);
      jpc, hs := NO_JUMP, [];
      st, j := PutCode(JMP(0, NO_JUMP));
      if st.SyntaxError? { return; }
      DischargedNil(old(Now()).(hs := []));
      open := open + {j};
      ListFrame(old(code), code, saved, shs);
      ghost var before := code;
      st, j := Concat(j, saved, [j], shs);
      if st.SyntaxError? { return; }
      assert code[..|old(code)|] == old(code);
    }

    /** Emits a test and its jump. */
    method CondJump(t: Encodable) returns (st: Status, pc: int)
      requires ListsOk()
      modifies `code, `jpc, `hs, `open
      ensures st.Pass? ==>
                && pc == |old(code)| + 1 && Now() == EmitTest(Discharged(old(Now())), t)
                && jpc == NO_JUMP && ListsOk() && IsList(code, pc, [pc])
      ensures st.SyntaxError? ==> AtLimit()
    {
      pc := |code| + 1;
      var _ :- PutCode(t);
      st, pc := Jump();
      if st.Pass? {
        assert code == DischargedIns(old(Now())) + [t, JMP(0, NO_JUMP)];
        assert [pc] + [] == [pc];
      }
    }

    /** Marks the current position as a jump target. */
    method GetLabel() returns (pc: int)
      modifies `lasttarget
      ensures pc == lasttarget == |code|
    {
      lasttarget := |code|;
      return |code|;
    }

    /** Adds a list to the pending jumps. */
    method PatchToHere(list: int, ghost s: seq<int>) returns (st: Status)
      requires ListsOk() && IsList(code, list, s) && Disjoint(hs, s)
      modifies `code, `jpc, `hs, `lasttarget
      ensures st.Pass? ==>
                && lasttarget == |code| == |old(code)| && hs == old(hs) + s && ListsOk()
                && (forall q :: 0 <= q < |code| ==>
                     code[q] == old(code)[q] || (q in old(hs) && old(code)[q].JMP? && code[q].JMP?))
                && (old(hs) == [] || s == [] ==> code == old(code))
      ensures st.SyntaxError? ==> AtLimit()
    {
      var _ := GetLabel();
      jpc :- Concat(jpc, list, hs, s);
      hs := hs + s;
      st := Pass;
    }

    /** Sets registers `from` .. `from + n - 1` to nil, widening a previous LOADNIL when
        nothing jumps here and the ranges connect. */
    method LoadNil(from0: int, n: int) returns (st: Status)
      requires ListsOk() && 0 <= lasttarget <= |code| && n > 0 && Register(from0) && Register(from0 + n - 1)
      modifies `code, `jpc, `hs, `open
      ensures st.Pass? ==>
                && ListsOk()
                && (Now() == Emit(Discharged(old(Now())), [LOADNIL(from0, n - 1)])
                    || (lasttarget < |old(code)| && NilMerged(old(Now()), from0, from0 + n - 1, Now())))
      ensures st.SyntaxError? ==> AtLimit()
    {
      var from, l := from0, from0 + n - 1;
      if |code| > lasttarget {
        var previous := code[|code| - 1];
        if previous.LOADNIL? {
          var pfrom, pl := previous.A, previous.A + previous.B;
          if (pfrom <= from && from <= pl + 1) || (from <= pfrom && pfrom <= l + 1) {
            if pfrom < from { from := pfrom; }
            if pl > l { l := pl; }
            ListElements(code, jpc, hs);
            code := code[|code| - 1 := LOADNIL(from, l - from)];
            ListFrame(old(code), code, jpc, hs);
            return Pass;
          }
        }
      }
      var _ :- PutCode(LOADNIL(from, n - 1));
      st := Pass;
    }

    /** Emits the load of constant `idx`, in one word or two. */
    method CodeK(reg: int, idx: int) returns (st: Status)
      requires ListsOk() && Register(reg) && 0 <= idx < |k|
      modifies `code, `jpc, `hs, `open
      ensures st.Pass? ==>
                && ListsOk()
                && Now() == Emit(Discharged(old(Now())),
                                 if idx <= MAXARG_Bx then [LOADK(reg, idx)] else [LOADKX(reg), EXTRAARG(idx)])
      ensures st.SyntaxError? ==> AtLimit()
    {
      if idx <= MAXARG_Bx {
        var _ :- PutCode(LOADK(reg, idx));
      } else {
        var _ :- PutCode(LOADKX(reg));
        ghost var mid := Now();
        var _ :- PutCode(EXTRAARG(idx));
        DischargedNil(mid);
        assert code == DischargedIns(old(Now())) + [LOADKX(reg), EXTRAARG(idx)];
      }
      st := Pass;
    }

    // ----- registers

    method CheckStack(n: int) returns (st: Status)
      requires freereg <= maxstacksize < MAXREGS
      modifies `maxstacksize
      ensures maxstacksize < MAXREGS && maxstacksize >= old(maxstacksize)
      ensures st.Pass? <==> freereg + n < MAXREGS
      ensures st.Pass? ==> freereg + n <= maxstacksize
    {
      var newstack := freereg + n;
      if newstack > maxstacksize {
        if newstack >= MAXREGS {
          return SyntaxError("function or expression needs too many registers");
        }
        maxstacksize := newstack;
      }
      return Pass;
    }

    method ReserveRegs(n: nat) returns (st: Status)
      requires freereg <= maxstacksize < MAXREGS
      modifies `maxstacksize, `freereg
      ensures maxstacksize < MAXREGS
      ensures st.Pass? <==> old(freereg) + n < MAXREGS
      ensures freereg == if st.Pass? then old(freereg) + n else old(freereg)
      ensures st.Pass? ==> freereg <= maxstacksize
    {
      st := Pass;
      :- CheckStack(n);
      freereg := freereg + n;
      st := Pass;
    }

    /** Frees a register that is neither a constant nor a local; it must be the last one. */
    method FreeReg(reg: int)
      requires !ISK(reg) && reg >= nactvar ==> reg == freereg - 1
      modifies `freereg
      ensures freereg == old(freereg) - (if !ISK(reg) && reg >= nactvar then 1 else 0)
    {
      if !ISK(reg) && reg >= nactvar {
        freereg := freereg - 1;
        assert reg == freereg;
      }
    }

    predicate Temporary(e: ExpDesc)
      reads this
    {
      e.k.VNONRELOC? && e.k.info >= nactvar
    }

    method FreeExp(e: ExpDesc)
      requires e.k.VNONRELOC? ==> e.k.info < MAXREGS
      requires Temporary(e) ==> e.k.info == freereg - 1
      modifies `freereg
      ensures freereg == old(freereg) - (if old(Temporary(e)) then 1 else 0)
    {
      if e.k.VNONRELOC? {
        FreeReg(e.k.info);
      }
    }

    /** The temporaries among two expressions are the registers from `base` on. */
    predicate OnTop(e1: ExpDesc, e2: ExpDesc, base: int)
      reads this
    {
      && nactvar <= base
      && (e1.k.VNONRELOC? ==> 0 <= e1.k.info < MAXREGS) && (e2.k.VNONRELOC? ==> 0 <= e2.k.info < MAXREGS)
      && freereg == base + (if Temporary(e1) then 1 else 0) + (if Temporary(e2) then 1 else 0)
      && (Temporary(e1) ==> base <= e1.k.info < freereg)
      && (Temporary(e2) ==> base <= e2.k.info < freereg)
      && (Temporary(e1) && Temporary(e2) ==> e1.k.info != e2.k.info)
    }

    /** Frees the registers of two expressions, the higher one first. */
    method FreeExps(e1: ExpDesc, e2: ExpDesc, ghost base: int)
      requires OnTop(e1, e2, base)
      modifies `freereg
      ensures freereg == base
    {
      var r1 := if e1.k.VNONRELOC? then e1.k.info else -1;
      var r2 := if e2.k.VNONRELOC? then e2.k.info else -1;
      if r1 > r2 {
        if r1 >= 0 { FreeReg(r1); }
        if r2 >= 0 { FreeReg(r2); }
      } else {
        if r2 >= 0 { FreeReg(r2); }
        if r1 >= 0 { FreeReg(r1); }
      }
    }

    // ----- constants

    /** Adds `v` to the constants, reusing an entry the scanner's table remembers. */
    method AddK(v: Value) returns (st: Status, idx: int)
      requires ListsOk()
      modifies `k, `kcache
      ensures st.Pass? ==> 0 <= idx < |k| && k[idx] == v && old(k) <= k && ListsOk()
      ensures st.SyntaxError? ==> k == old(k) && |k| >= MAXARG_Ax
    {
      if v in kcache && kcache[v] < |k| && k[kcache[v]] == v {
        return Pass, kcache[v];
      }
      if |k| >= MAXARG_Ax {
        return SyntaxError("too many constants"), 0;
      }
      idx := |k|;
      kcache := kcache[v := idx];
      k := k + [v];
      st := Pass;
    }

    // ----- expressions

    /** The invariant of expression `e` compiled in context `x`. */
    ghost predicate Exp(e: ExpDesc, x: Ctx)
      reads this
    {
      Valid() && ExpOk(S, Now(), e, x)
    }

    /** Code after the pending jumps have been sent here. */
    lemma Emitted(s: Snap, e: ExpDesc, x: Ctx, i: Instr, reg: int)
      requires ExpOk(S, s, e, x) && !e.k.VJMP? && !e.k.VRELOCABLE? && MayWrite(x, reg)
      requires PlainOperands(s.c.k, i) && i.A == reg
      requires i.LOADNIL? ==> i.B == 0 && MainOf(S, s.c, e) == MConst(Nil)
      requires i.LOADBOOL? ==> MainOf(S, s.c, e) == MConst(Bool(i.B != 0))
      requires SetsA(i) ==> forall R, v :: Holds(S, s.c.k, MainOf(S, s.c, e), R, v) ==> ValueOf(S, s.c.k, i, R) == v
      ensures ExpOk(S, Emit(Discharged(s), [i]), ExpDesc(VNONRELOC(reg), e.t, e.f), x)
    {
      assert CoreSnap(s, e) == s by { assert Core(s.c, e) == s.c; }
      DischargedOk(s);
      EmitPlainOk(Discharged(s), i);
      LoadsPlain(S, Discharged(s), i, MainOf(S, s.c, e), reg);
      ToReg(S, s, e, x, Emit(Discharged(s), [i]), reg);
    }

    /** Makes an expression that is not a variable. */
    method DischargeVars(e0: ExpDesc, ghost x: Ctx) returns (st: Status, e: ExpDesc)
      requires Exp(e0, x)
      modifies `code, `jpc, `hs, `open
      ensures st.Pass? ==> Exp(e, x) && e.t == e0.t && e.f == e0.f && !e.k.VLOCAL? && !e.k.VUPVAL?
      ensures st.Pass? && !e0.k.VUPVAL? ==>
                && code == old(code) && jpc == old(jpc) && hs == old(hs) && open == old(open)
                && e.k == if e0.k.VLOCAL? then VNONRELOC(e0.k.info) else e0.k
      ensures st.Pass? && e0.k.VUPVAL? ==> e.k.VRELOCABLE? && !code[e.k.info].OPCONCAT? && !code[e.k.info].OPNOT?
      ensures st.SyntaxError? ==> AtLimit()
    {
      e := e0;
      match e0.k {
        case VLOCAL(r) =>
          e := ExpDesc(VNONRELOC(r), e0.t, e0.f);
        case VUPVAL(i) =>
          ghost var s := Now();
          Weaken(S, s.c, s.hs, MConst(S.upvalue(i)), MInstr(GETUPVAL(0, i)), x) by {
            assert Core(s.c, e0) == s.c;
          }
          PendInstr(S, s, e0, x, GETUPVAL(0, i));
          assert Fits(GETUPVAL(0, i)) by { assert FitsKeyed(GETUPVAL(0, i)); }
          var pc :- PutCode(GETUPVAL(0, i));
          e := ExpDesc(VRELOCABLE(pc), e0.t, e0.f);
        case _ =>
      }
      st := Pass;
    }

    /** Puts the main value in register `reg`; a comparison stays as it is. */
    method Discharge2reg(e0: ExpDesc, reg: int, ghost x: Ctx) returns (st: Status, e: ExpDesc)
      requires Exp(e0, x) && MayWrite(x, reg)
      modifies `code, `k, `kcache, `jpc, `hs, `open
      ensures st.Pass? ==> Exp(e, x) && e.t == e0.t && e.f == e0.f
      ensures st.Pass? ==> if e0.k.VJMP? then e == e0 && Now() == old(Now()) else e.k == VNONRELOC(reg)
      ensures st.SyntaxError? ==> AtLimit()
    {
      e :- DischargeVars(e0, x);
      match e.k {
        case VNIL =>
          :- NilToReg(e, reg, x);
        case VFALSE =>
          :- EmitToReg(e, LOADBOOL(reg, 0, 0), reg, x);
        case VTRUE =>
          :- EmitToReg(e, LOADBOOL(reg, 1, 0), reg, x);
        case VK(idx) =>
          :- LoadConstant(e, reg, idx, x);
        case VKFLT(v) =>
          :- NumeralToReg(e, reg, Flt(v), x);
        case VKINT(v) =>
          :- NumeralToReg(e, reg, Int(v), x);
        case VRELOCABLE(info) =>
          Relocate(e, reg, x);
        case VNONRELOC(info) =>
          if reg != info {
            :- EmitToReg(e, MOVE(reg, info), reg, x);
          }
        case VJMP(_) =>
          return Pass, e;
        case _ => assert false;
      }
      e := ExpDesc(VNONRELOC(reg), e.t, e.f);
      st := Pass;
    }

    /** Emits the instruction that puts the main value in `reg`. */
    method EmitToReg(e: ExpDesc, i: Encodable, reg: int, ghost x: Ctx) returns (st: Status)
      requires Exp(e, x) && !e.k.VJMP? && !e.k.VRELOCABLE? && MayWrite(x, reg)
      requires PlainOperands(k, i) && i.A == reg && !i.LOADNIL?
      requires i.LOADBOOL? ==> MainOf(S, Now().c, e) == MConst(Bool(i.B != 0))
      requires SetsA(i) ==> forall R, v :: Holds(S, k, MainOf(S, Now().c, e), R, v) ==> ValueOf(S, k, i, R) == v
      modifies `code, `jpc, `hs, `open
      ensures st.Pass? ==> Exp(ExpDesc(VNONRELOC(reg), e.t, e.f), x)
      ensures st.SyntaxError? ==> AtLimit()
    {
      Emitted(Now(), e, x, i, reg);
      var _ :- PutCode(i);
      st := Pass;
    }

    method NilToReg(e: ExpDesc, reg: int, ghost x: Ctx) returns (st: Status)
      requires Exp(e, x) && MayWrite(x, reg) && e.k.VNIL?
      modifies `code, `jpc, `hs, `open
      ensures st.Pass? ==> Exp(ExpDesc(VNONRELOC(reg), e.t, e.f), x)
      ensures st.SyntaxError? ==> AtLimit()
    {
      ghost var s := Now();
      :- LoadNil(reg, 1);
      if Now() == Emit(Discharged(s), [LOADNIL(reg, 0)]) {
        Emitted(s, e, x, LOADNIL(reg, 0), reg);
      } else {
        assert WellFormedAt(s.c, s.last, |s.c.ins| - 1);
        MergeNil(S, s, e, x, Now(), reg, s.c.ins[|s.c.ins| - 1], code[|code| - 1]);
      }
      st := Pass;
    }

    method NumeralToReg(e: ExpDesc, reg: int, v: Value, ghost x: Ctx) returns (st: Status)
      requires Exp(e, x) && MayWrite(x, reg)
      requires (e.k.VKINT? && v == Int(e.k.ival)) || (e.k.VKFLT? && v == Flt(e.k.nval))
      modifies `code, `k, `kcache, `jpc, `hs, `open
      ensures st.Pass? ==> Exp(ExpDesc(VNONRELOC(reg), e.t, e.f), x)
      ensures st.SyntaxError? ==> AtLimit()
    {
      ghost var s := Now();
      var idx :- AddK(v);
      Grow(S, s, e, x, k);
      :- LoadConstant(e, reg, idx, x);
      st := Pass;
    }

    /** Gives a relocatable instruction its register. */
    method Relocate(e: ExpDesc, reg: int, ghost x: Ctx)
      requires Exp(e, x) && MayWrite(x, reg) && e.k.VRELOCABLE?
      modifies `code
      ensures Exp(ExpDesc(VNONRELOC(reg), e.t, e.f), x)
    {
      var info := e.k.info;
      Relocated(Now(), e, x, reg);
      ListElements(code, jpc, hs);
      code := code[info := WithA(code[info], reg)];
      ListFrame(old(code), code, jpc, hs);
    }

    method LoadConstant(e: ExpDesc, reg: int, idx: int, ghost x: Ctx) returns (st: Status)
      requires Exp(e, x) && MayWrite(x, reg) && 0 <= idx < |k|
      requires (e.k.VK? || e.k.VKINT? || e.k.VKFLT?) && MainOf(S, Now().c, e) == MConst(k[idx])
      modifies `code, `jpc, `hs, `open
      ensures st.Pass? ==> Exp(ExpDesc(VNONRELOC(reg), e.t, e.f), x)
      ensures st.SyntaxError? ==> AtLimit()
    {
      ghost var s := Now();
      if idx <= MAXARG_Bx {
        Emitted(s, e, x, LOADK(reg, idx), reg);
      } else {
        assert CoreSnap(s, e) == s by { assert Core(s.c, e) == s.c; }
        DischargedOk(s);
        LoadsExtra(S, Discharged(s), reg, idx);
        ToReg(S, s, e, x, Emit(Discharged(s), [LOADKX(reg), EXTRAARG(idx)]), reg);
      }
      :- CodeK(reg, idx);
      st := Pass;
    }

    lemma Relocated(s: Snap, e: ExpDesc, x: Ctx, reg: int)
      requires ExpOk(S, s, e, x) && e.k.VRELOCABLE? && MayWrite(x, reg)
      ensures var i := e.k.info;
              ExpOk(S, s.(c := s.c.(ins := s.c.ins[i := WithA(s.c.ins[i], reg)])), ExpDesc(VNONRELOC(reg), e.t, e.f), x)
    {
      var i := s.c.ins[e.k.info];
      var i2 := WithA(i, reg);
      var cs := CoreSnap(s, e);
      var s2 := s.(c := s.c.(ins := s.c.ins[e.k.info := i2]));
      assert WellFormedAt(s.c, s.last, e.k.info);
      CoreOk(s, e, x.base);
      DischargedNil(cs);
      EmitPlainOk(cs, i2);
      LoadsPlain(S, cs, i2, MInstr(i), reg);
      assert s2 == Emit(cs, [i2]);
      ToReg(S, s, e, x, s2, reg);
    }

    method Discharge2anyreg(e0: ExpDesc, ghost x: Ctx) returns (st: Status, e: ExpDesc)
      requires Exp(e0, x) && Regs(e0, x.base) && !e0.k.VLOCAL? && !e0.k.VUPVAL? && !e0.k.VJMP?
      modifies `code, `k, `kcache, `jpc, `hs, `open, `freereg, `maxstacksize
      ensures st.Pass? ==> Exp(e, x) && Regs(e, x.base) && e.t == e0.t && e.f == e0.f && e.k.VNONRELOC?
      ensures st.SyntaxError? ==> AtLimit()
    {
      e := e0;
      if !e0.k.VNONRELOC? {
        :- ReserveRegs(1);
        e :- Discharge2reg(e0, freereg - 1, x);
      }
      st := Pass;
    }

    method CodeLoadBool(a: int, b: int, jump: int) returns (st: Status, pc: int)
      requires ListsOk() && hs == [] && Register(a) && FitsB(b) && FitsC(jump)
      modifies `code, `jpc, `hs, `open, `lasttarget
      ensures st.Pass? ==>
                && pc == |old(code)| && code == old(code) + [LOADBOOL(a, b, jump)] && open == old(open)
                && jpc == NO_JUMP && hs == [] && ListsOk()
      ensures st.SyntaxError? ==> AtLimit()
    {
      var _ := GetLabel();
      DischargedNil(Now());
      st, pc := PutCode(LOADBOOL(a, b, jump));
      if st.Pass? { assert open == old(open); }
    }

    /** Some jump of the list does not leave a value. */
    method NeedValue(list0: int, ghost s: seq<int>) returns (need: bool)
      requires IsList(code, list0, s)
      ensures need <==> exists j :: j in s && !ProducesValue(code, j)
    {
      var list := list0;
      ghost var i := 0;
      while list != NO_JUMP
        invariant 0 <= i <= |s|
        invariant IsList(code, list, s[i..])
        invariant forall j :: j in s[..i] ==> ProducesValue(code, j)
        decreases |s| - i
      {
        ListElements(code, list, s[i..]);
        assert s[i] == list && s[i] in s;
        if !(list >= 1 && code[list - 1].TESTSET?) {
          return true;
        }
        assert s[i..][1..] == s[i + 1..];
        list := GetJump(code, list);
        i := i + 1;
      }
      ListElements(code, list, s[i..]);
      assert s[..i] == s;
      return false;
    }

    /** Patches the two exit lists of an expression. */
    method PatchExits(e: ExpDesc, final: int, reg: int, pf: int, pt: int, ghost ts: seq<int>, ghost fs: seq<int>)
      returns (st: Status)
      requires IsList(code, e.t, ts) && IsList(code, e.f, fs) && ListsOk() && final != NO_JUMP && FitsA(reg)
      requires Disjoint(ts, fs) && Disjoint(hs, ts) && Disjoint(hs, fs)
      requires pf == NO_JUMP ==> forall j :: j in fs ==> ProducesValue(code, j)
      requires pt == NO_JUMP ==> forall j :: j in ts ==> ProducesValue(code, j)
      modifies `code
      ensures st.Pass? ==>
                code == Patched(Patched(old(code), fs, final, reg, pf), ts, final, reg, pt) && ListsOk()
      ensures |code| == |old(code)| && (st.SyntaxError? && InCode(final) && InCode(pf) && InCode(pt) ==> AtLimit())
    {
      ListElements(code, e.f, fs);
      ListElements(code, e.t, ts);
      PatchedKeepsList(code, e.t, ts, fs, final, reg, pf);
      PatchedKeepsList(code, jpc, hs, fs, final, reg, pf);
      :- PatchListAux(e.f, final, reg, pf, fs);
      ListElements(code, e.t, ts);
      PatchedKeepsList(code, jpc, hs, ts, final, reg, pt);
      :- PatchListAux(e.t, final, reg, pt, ts);
      st := Pass;
    }

    /** Puts the final value of an expression, whichever way it is obtained, in `reg`. */
    method Exp2reg(e0: ExpDesc, reg: int, ghost x0: Ctx) returns (st: Status, e: ExpDesc)
      requires Exp(e0, x0) && MayWrite(x0, reg)
      modifies `code, `k, `kcache, `jpc, `hs, `open, `lasttarget
      ensures st.Pass? ==> e == NoExits(VNONRELOC(reg)) && Exp(e, x0.(ts := [], fs := []))
      ensures st.SyntaxError? ==> AtLimit()
    {
      e :- Discharge2reg(e0, reg, x0);
      ghost var x, m := x0, MReg(reg);
      if e.k.VJMP? {
        m, x := MConst(Bool(false)), x0.(ts := x0.ts + [e.k.info]);
        var t :- JumpToExits(e, x0);
        assert e.k.info in x.ts;
        e := ExpDesc(e.k, t, e.f);
      } else {
        ReadyNow(S, Now(), e, x);
      }
      HeadsDiffer(code, e.t, x.ts, e.f, x.fs);
      if e.t != e.f {
        :- JoinExits(e, reg, m, x);
      }
      e := NoExits(VNONRELOC(reg));
      st := Pass;
    }

    /** Adds the jump of a comparison to its true exits. */
    method JumpToExits(e: ExpDesc, ghost x: Ctx) returns (st: Status, t: int)
      requires Exp(e, x) && e.k.VJMP?
      modifies `code
      ensures st.Pass? ==>
                && ListsOk() && |code| == |old(code)|
                && Ready(S, Now(), MConst(Bool(false)), x.(ts := x.ts + [e.k.info]))
                && IsList(code, t, x.ts + [e.k.info]) && IsList(code, e.f, x.fs)
                && !ProducesValue(code, e.k.info)
      ensures st.SyntaxError? ==> AtLimit()
    {
      ghost var s, info := Now(), e.k.info;
      assert [info][1..] == [];
      assert IsList(code, info, [info]);
      st, t := Concat(e.t, e.k.info, x.ts, [info]);
      if st.Pass? {
        JumpJoined(s, Now().c, e, x);
      }
    }

    /** Relinking the jump of a comparison and the true exits leaves the rest as it was. */
    lemma JumpJoined(s: Snap, c2: Code, e: ExpDesc, x: Ctx)
      requires ExpOk(S, s, e, x) && e.k.VJMP? && IsList(s.c.ins, jpc, s.hs)
      requires c2 == s.c.(ins := c2.ins) && |c2.ins| == |s.c.ins|
      requires forall q :: 0 <= q < |s.c.ins| ==>
        c2.ins[q] == s.c.ins[q] || (q in x.ts + [e.k.info] && s.c.ins[q].JMP? && c2.ins[q].JMP?)
      ensures Ready(S, s.(c := c2), MConst(Bool(false)), x.(ts := x.ts + [e.k.info]))
      ensures IsList(c2.ins, jpc, s.hs) && IsList(c2.ins, e.f, x.fs) && !ProducesValue(c2.ins, e.k.info)
    {
      ListElements(s.c.ins, e.f, x.fs);
      ListFrame(s.c.ins, c2.ins, e.f, x.fs);
      ListFrame(s.c.ins, c2.ins, jpc, s.hs);
      assert Relinked(s.c, c2);
      RelinkedOk(s, c2);
      forall j | j in Outer(x) ensures Keeps(s.c.ins, c2.ins, j) { assert c2.ins[j] == s.c.ins[j]; }
      ReadyJump(S, s, e, x, c2);
    }

    /** Emits the two boolean loads for exits without a value, and a jump around them
        unless the code falls through to the first one. */
    method ExitLoads(fallsThrough: bool, reg: int) returns (st: Status, pf: int, pt: int)
      requires ListsOk() && (fallsThrough ==> hs == []) && Register(reg)
      modifies `code, `jpc, `hs, `open, `lasttarget
      ensures st.Pass? ==>
                && var n := |old(code)|;
                && ListsOk() && lasttarget == |code|
                && pt == pf + 1 == |code| - 1 && 0 <= pf
                && code[pf..] == [LOADBOOL(reg, 0, 1), LOADBOOL(reg, 1, 0)]
                && (if fallsThrough then pf == n && code[..n] == old(code) && hs == [] && open == old(open)
                    else pf == n + 1 && code[..n] == old(code) && code[n].JMP? && hs == [n] + old(hs)
                         && open == old(open) + {n})
      ensures st.SyntaxError? ==> AtLimit()
    {
      pf, pt := NO_JUMP, NO_JUMP;
      var fj := NO_JUMP;
      ghost var fl: seq<int> := [];
      if !fallsThrough {
        fj :- Jump();
        fl := [fj] + old(hs);
      } else {
        ListElements(code, jpc, hs);
      }
      ghost var mid := code;
      assert IsList(mid, fj, fl);
      pf :- CodeLoadBool(reg, 0, 1);
      pt :- CodeLoadBool(reg, 1, 0);
      ListElements(mid, fj, fl);
      ListFrame(mid, code, fj, fl);
      assert code == mid + [LOADBOOL(reg, 0, 1), LOADBOOL(reg, 1, 0)];
      :- PatchToHere(fj, fl);
      st := Pass;
    }

    /** Emits the boolean loads the exits need, if any. */
    method ExitTail(e: ExpDesc, reg: int, ghost m: Main, ghost x: Ctx)
      returns (st: Status, pf: int, pt: int, ghost tail: seq<Instr>)
      requires ListsOk() && Ready(S, Now(), m, x)
      requires IsList(code, e.t, x.ts) && IsList(code, e.f, x.fs) && Register(reg)
      requires if e.k.VJMP? then m == MConst(Bool(false)) && hs == []
                                 && exists j :: j in x.ts && !ProducesValue(code, j)
               else m == MReg(reg)
      modifies `code, `jpc, `hs, `open, `lasttarget
      ensures st.Pass? ==>
                && ListsOk() && code == old(code) + tail && k == old(k)
                && TailForm(old(Now()), m, x, reg, tail, pf, pt, hs)
                && open == old(open) + (if |tail| == 3 then {|old(code)|} else {})
                && IsList(code, e.t, x.ts) && IsList(code, e.f, x.fs)
                && (tail == [] <==> pf == NO_JUMP) && (tail == [] <==> pt == NO_JUMP)
      ensures st.SyntaxError? ==> AtLimit()
    {
      pf, pt, tail := NO_JUMP, NO_JUMP, [];
      var need := NeedValue(e.t, x.ts);
      if !need {
        need := NeedValue(e.f, x.fs);
      }
      st := Pass;
      if need {
        st, pf, pt, tail := LoadTail(e, reg, m, x);
      }
    }

    method LoadTail(e: ExpDesc, reg: int, ghost m: Main, ghost x: Ctx)
      returns (st: Status, pf: int, pt: int, ghost tail: seq<Instr>)
      requires ListsOk() && Ready(S, Now(), m, x)
      requires IsList(code, e.t, x.ts) && IsList(code, e.f, x.fs) && Register(reg)
      requires if e.k.VJMP? then m == MConst(Bool(false)) && hs == [] else m == MReg(reg)
      modifies `code, `jpc, `hs, `open, `lasttarget
      ensures st.Pass? ==>
                && ListsOk() && code == old(code) + tail && k == old(k)
                && TailForm(old(Now()), m, x, reg, tail, pf, pt, hs)
                && open == old(open) + (if |tail| == 3 then {|old(code)|} else {})
                && IsList(code, e.t, x.ts) && IsList(code, e.f, x.fs)
                && tail != [] && pf != NO_JUMP && pt != NO_JUMP
      ensures st.SyntaxError? ==> AtLimit()
    {
      tail := [];
      ListElements(code, e.t, x.ts);
      ListElements(code, e.f, x.fs);
      pf, pt :- ExitLoads(e.k.VJMP?, reg);
      tail := code[|old(code)|..];
      LoadsForm(old(Now()), m, x, reg, code, pf, pt, hs, e.k.VJMP?);
      ListFrame(old(code), code, e.t, x.ts);
      ListFrame(old(code), code, e.f, x.fs);
      st := Pass;
    }

    lemma LoadsForm(s: Snap, m: Main, x: Ctx, reg: int, ins: seq<Instr>, pf: int, pt: int, hs2: seq<int>, through: bool)
      requires |ins| >= |s.c.ins| && 0 <= pf && pt == pf + 1 == |ins| - 1
      requires ins[pf..] == [LOADBOOL(reg, 0, 1), LOADBOOL(reg, 1, 0)]
      requires var n := |s.c.ins|;
        if through then pf == n && ins[..n] == s.c.ins && hs2 == []
        else pf == n + 1 && ins[..n] == s.c.ins && ins[n].JMP? && hs2 == [n] + s.hs
      requires if through then m == MConst(Bool(false)) && s.hs == [] else m == MReg(reg)
      ensures var tail := ins[|s.c.ins|..];
        && ins == s.c.ins + tail && |tail| == (if through then 2 else 3)
        && TailForm(s, m, x, reg, tail, pf, pt, hs2)
    {
      var tail := ins[|s.c.ins|..];
      assert tail[|tail| - 2..] == ins[pf..];
    }

    /** Patches the exits of an expression, after the loads some of them need. */
    method JoinExits(e: ExpDesc, reg: int, ghost m: Main, ghost x: Ctx) returns (st: Status)
      requires Valid() && Ready(S, Now(), m, x) && MayWrite(x, reg)
      requires IsList(code, e.t, x.ts) && IsList(code, e.f, x.fs)
      requires if e.k.VJMP? then m == MConst(Bool(false)) && hs == []
                                 && exists j :: j in x.ts && !ProducesValue(code, j)
               else m == MReg(reg)
      modifies `code, `jpc, `hs, `open, `lasttarget
      ensures st.Pass? ==> Exp(NoExits(VNONRELOC(reg)), x.(ts := [], fs := []))
      ensures st.SyntaxError? ==> AtLimit()
    {
      ghost var s := Now();
      ListElements(code, e.t, x.ts);
      ListElements(code, e.f, x.fs);
      var pf, pt;
      ghost var tail;
      st, pf, pt, tail := ExitTail(e, reg, m, x);
      if st.Pass? {
        st := EndExits(e, reg, m, pf, pt, s, x, tail);
      }
    }

    method EndExits(e: ExpDesc, reg: int, ghost m: Main, pf: int, pt: int, ghost s: Snap, ghost x: Ctx,
                    ghost tail: seq<Instr>)
      returns (st: Status)
      requires Ready(S, s, m, x) && MayWrite(x, reg) && TailForm(s, m, x, reg, tail, pf, pt, hs)
      requires ListsOk() && code == s.c.ins + tail && k == s.c.k
      requires open == s.c.open + (if |tail| == 3 then {|s.c.ins|} else {})
      requires IsList(code, e.t, x.ts) && IsList(code, e.f, x.fs)
      requires (tail == [] <==> pf == NO_JUMP) && (tail == [] <==> pt == NO_JUMP)
      requires 0 <= nactvar <= freereg <= maxstacksize < MAXREGS
      requires forall j :: j in x.ts || j in x.fs ==> 0 <= j < |s.c.ins|
      modifies `code, `open, `lasttarget
      ensures st.Pass? ==> Exp(NoExits(VNONRELOC(reg)), x.(ts := [], fs := []))
      ensures st.SyntaxError? ==> AtLimit()
    {
      TailDisjoint(s, m, x, reg, tail, pf, pt, hs);
      FinalFlow(S, s, m, x, reg, tail, pf, pt, hs);
      st := CloseExits(e, reg, pf, pt, s, x, tail);
    }

    method CloseExits(e: ExpDesc, reg: int, pf: int, pt: int, ghost s: Snap, ghost x: Ctx, ghost tail: seq<Instr>)
      returns (st: Status)
      requires IsList(code, e.t, x.ts) && IsList(code, e.f, x.fs) && ListsOk() && Register(reg)
      requires Disjoint(x.ts, x.fs) && Disjoint(hs, x.ts) && Disjoint(hs, x.fs)
      requires code == s.c.ins + tail && k == s.c.k
      requires open == s.c.open + (if |tail| == 3 then {|s.c.ins|} else {})
      requires pf == NO_JUMP ==> forall j :: j in x.fs ==> ProducesValue(code, j)
      requires pt == NO_JUMP ==> forall j :: j in x.ts ==> ProducesValue(code, j)
      modifies `code, `open, `lasttarget
      ensures st.Pass? ==> ListsOk() && Now() == Final(s, x, reg, tail, pf, pt, hs)
      ensures |code| == |old(code)| && (st.SyntaxError? && InCode(pf) && InCode(pt) ==> AtLimit())
    {
      var final := GetLabel();
      :- PatchExits(e, final, reg, pf, pt, x.ts, x.fs);
      open := open - (set j | j in x.ts) - (set j | j in x.fs);
      st := Pass;
    }

    lemma TailDisjoint(s: Snap, m: Main, x: Ctx, reg: int, tail: seq<Instr>, pf: int, pt: int, hs2: seq<int>)
      requires SnapOk(s) && Separate(s, x) && TailForm(s, m, x, reg, tail, pf, pt, hs2)
      requires forall j :: j in x.ts || j in x.fs ==> 0 <= j < |s.c.ins|
      ensures Disjoint(hs2, x.ts) && Disjoint(hs2, x.fs)
      ensures tail == [] ==> forall j :: j in x.ts || j in x.fs ==> ProducesValue(s.c.ins + tail, j)
    {
      if tail == [] { assert s.c.ins + tail == s.c.ins; }
    }

    /** Puts the final value in the next register. */
    method Exp2nextreg(e0: ExpDesc, ghost x: Ctx) returns (st: Status, e: ExpDesc)
      requires Exp(e0, x) && Regs(e0, x.base)
      modifies `code, `k, `kcache, `jpc, `hs, `open, `lasttarget, `freereg, `maxstacksize
      ensures st.Pass? ==>
                && e == NoExits(VNONRELOC(x.base)) && freereg == x.base + 1
                && Exp(e, x.(ts := [], fs := [])) && Regs(e, x.base)
      ensures st.SyntaxError? ==> AtLimit()
    {
      e :- DischargeVars(e0, x);
      FreeExp(e);
      :- ReserveRegs(1);
      e :- Exp2reg(e, freereg - 1, x);
      st := Pass;
    }

    /** Puts the final value in some register. */
    method Exp2anyreg(e0: ExpDesc, ghost x: Ctx) returns (st: Status, e: ExpDesc)
      requires Exp(e0, x)
      requires Regs(e0, x.base) || (e0.k.VNONRELOC? && e0.t == e0.f)
      modifies `code, `k, `kcache, `jpc, `hs, `open, `lasttarget, `freereg, `maxstacksize
      ensures st.Pass? ==>
                && e.k.VNONRELOC? && e == NoExits(e.k)
                && Exp(e, x.(ts := [], fs := [])) && (old(Regs(e0, x.base)) ==> Regs(e, x.base))
      ensures st.Pass? && e0.k.VNONRELOC? && e0.t == e0.f ==> e == e0 && Unchanged(old(Now()), old(freereg))
      ensures st.Pass? && e0.k.VLOCAL? && e0.t == e0.f ==> e == NoExits(VNONRELOC(e0.k.info))
      ensures st.SyntaxError? ==> AtLimit()
    {
      e :- DischargeVars(e0, x);
      HeadsDiffer(code, e.t, x.ts, e.f, x.fs);
      if e.k.VNONRELOC? {
        if e.t == e.f {
          assert x == x.(ts := [], fs := []);
          return Pass, e;
        }
        if e.k.info >= nactvar {
          e :- Exp2reg(e, e.k.info, x);
          return Pass, e;
        }
      }
      e :- Exp2nextreg(e, x);
      st := Pass;
    }

    ghost predicate Unchanged(s: Snap, free: int)
      reads this
    {
      Now() == s && freereg == free
    }

    /** Puts the final value in a register, or leaves it as a constant or a delayed
        instruction without exits. */
    method Exp2val(e0: ExpDesc, ghost x: Ctx) returns (st: Status, e: ExpDesc)
      requires Exp(e0, x)
      requires Regs(e0, x.base) || (e0.k.VNONRELOC? && e0.t == e0.f)
      modifies `code, `k, `kcache, `jpc, `hs, `open, `lasttarget, `freereg, `maxstacksize
      ensures st.Pass? ==>
                && e == NoExits(e.k) && !e.k.VLOCAL? && !e.k.VUPVAL?
                && Exp(e, x.(ts := [], fs := [])) && (old(Regs(e0, x.base)) ==> Regs(e, x.base))
      ensures st.Pass? && e0.k.VNONRELOC? && e0.t == e0.f ==> e == e0 && Unchanged(old(Now()), old(freereg))
      ensures st.SyntaxError? ==> AtLimit()
    {
      HeadsDiffer(code, e0.t, x.ts, e0.f, x.fs);
      if e0.t != e0.f {
        e :- Exp2anyreg(e0, x);
      } else {
        assert x == x.(ts := [], fs := []);
        e :- DischargeVars(e0, x);
      }
      st := Pass;
    }

    /** `rk` names the operand `e`: a constant small enough, or a register. */
    predicate IsRK(e: ExpDesc, rk: int) {
      && e == NoExits(e.k)
      && ((e.k.VK? && 0 <= e.k.info <= MAXINDEXRK && rk == RKASK(e.k.info)) || (e.k.VNONRELOC? && rk == e.k.info))
    }

    lemma RKFits(s: Snap, e: ExpDesc, x: Ctx, rk: int)
      requires ExpOk(S, s, e, x) && IsRK(e, rk)
      ensures FitsB(rk) && FitsC(rk) && (e.k.VNONRELOC? ==> Register(rk))
    {
    }

    /** Makes the value of a constant expression an entry of the constant table. */
    method ToK(e0: ExpDesc, v: Value, ghost x: Ctx) returns (st: Status, e: ExpDesc)
      requires Exp(e0, x) && !e0.k.VRELOCABLE? && !e0.k.VJMP? && MainOf(S, Now().c, e0) == MConst(v)
      modifies `k, `kcache
      ensures st.Pass? ==> Exp(e, x) && e.k.VK? && e.t == e0.t && e.f == e0.f
      ensures st.SyntaxError? ==> AtLimit()
    {
      e := e0;
      ghost var s := Now();
      var idx :- AddK(v);
      Grow(S, s, e0, x, k);
      e := ExpDesc(VK(idx), e0.t, e0.f);
      assert Core(Now().c, e) == Core(Now().c, e0);
      st := Pass;
    }

    /** Moves a constant expression to the constant table; leaves others alone. */
    method ConstantToK(e0: ExpDesc, ghost x: Ctx) returns (st: Status, e: ExpDesc)
      requires Exp(e0, x)
      modifies `k, `kcache
      ensures st.Pass? ==> Exp(e, x) && e.t == e0.t && e.f == e0.f
      ensures st.Pass? ==>
                match e0.k
                case VTRUE => e.k.VK? case VFALSE => e.k.VK? case VNIL => e.k.VK?
                case VKINT(_) => e.k.VK? case VKFLT(_) => e.k.VK?
                case _ => e == e0 && k == old(k)
      ensures st.SyntaxError? ==> AtLimit()
    {
      match e0.k {
        case VTRUE => st, e := ToK(e0, Bool(true), x);
        case VFALSE => st, e := ToK(e0, Bool(false), x);
        case VNIL => st, e := ToK(e0, Nil, x);
        case VKINT(i) => st, e := ToK(e0, Int(i), x);
        case VKFLT(v) => st, e := ToK(e0, Flt(v), x);
        case _ => st, e := Pass, e0;
      }
    }

    /** Makes an RK operand of the final value. */
    method Exp2RK(e0: ExpDesc, ghost x: Ctx) returns (st: Status, e: ExpDesc, rk: int)
      requires Exp(e0, x)
      requires Regs(e0, x.base) || (e0.k.VNONRELOC? && e0.t == e0.f)
      modifies `code, `k, `kcache, `jpc, `hs, `open, `lasttarget, `freereg, `maxstacksize
      ensures st.Pass? ==>
                && IsRK(e, rk)
                && Exp(e, x.(ts := [], fs := [])) && (old(Regs(e0, x.base)) ==> Regs(e, x.base))
      ensures st.Pass? && e0.k.VNONRELOC? && e0.t == e0.f ==> e == e0 && Unchanged(old(Now()), old(freereg))
      ensures st.SyntaxError? ==> AtLimit()
    {
      rk := 0;
      st, e := Exp2val(e0, x);
      if st.Pass? {
        st, e, rk := Val2RK(e, x.(ts := [], fs := []));
      }
    }

    method Val2RK(e0: ExpDesc, ghost x: Ctx) returns (st: Status, e: ExpDesc, rk: int)
      requires Exp(e0, x) && x.ts == [] && x.fs == []
      requires Regs(e0, x.base) || (e0.k.VNONRELOC? && e0.t == e0.f)
      modifies `code, `k, `kcache, `jpc, `hs, `open, `lasttarget, `freereg, `maxstacksize
      ensures st.Pass? ==> IsRK(e, rk) && Exp(e, x) && (old(Regs(e0, x.base)) ==> Regs(e, x.base))
      ensures st.Pass? && e0.k.VNONRELOC? && e0.t == e0.f ==> e == e0 && Unchanged(old(Now()), old(freereg))
      ensures st.SyntaxError? ==> AtLimit()
    {
      rk := 0;
      e :- ConstantToK(e0, x);
      if e.k.VK? && e.k.info <= MAXINDEXRK {
        return Pass, e, RKASK(e.k.info);
      }
      e :- Exp2anyreg(e, x);
      rk := e.k.info;
      st := Pass;
    }

    // ----- conditions

    /** Inverts the comparison that controls the jump of `e`. */
    method NegateCondition(e: ExpDesc)
      requires e.k.VJMP? && 1 <= e.k.info < |code| && code[e.k.info - 1].COMPARE?
      modifies `code
      ensures var i := e.k.info - 1; code == old(code)[i := Inverted(old(code)[i])]
    {
      var i := e.k.info - 1;
      code := code[i := Inverted(code[i])];
    }

    /** Emits a test of the main value and its jump. */
    method TestMain(e: ExpDesc, t: Encodable, ghost b: bool, ghost x: Ctx) returns (st: Status, pc: int)
      requires Exp(e, x) && !e.k.VJMP? && !e.k.VRELOCABLE?
      requires TestsMain(S, k, MainOf(S, Now().c, e), t, b, MCond(b))
      requires nactvar <= freereg
      modifies `code, `jpc, `hs, `open
      ensures st.Pass? ==>
                Valid() && Tested(S, Now(), e.t, e.f, x, [pc], b) && IsList(code, pc, [pc])
      ensures st.SyntaxError? ==> AtLimit()
    {
      TestedByTest(S, Now(), e, x, t, b);
      assert CoreSnap(Now(), e) == Now();
      st, pc := CondJump(t);
    }

    /** Drops the OP_NOT just emitted and tests its operand instead. */
    method TestInsteadOfNot(e: ExpDesc, cond: bool, ghost x: Ctx) returns (st: Status, pc: int)
      requires Exp(e, x) && e.k.VRELOCABLE? && code[e.k.info].OPNOT?
      modifies `code, `jpc, `hs, `open
      ensures st.Pass? ==>
                Valid() && Tested(S, Now(), e.t, e.f, x, [pc], !cond) && IsList(code, pc, [pc])
      ensures st.SyntaxError? ==> AtLimit()
    {
      ghost var s := Now();
      var t := OperandTest(code[e.k.info], if cond then 0 else 1);
      DropLast(e, x);
      st, pc := EmitOperandTest(t, s, e, cond, x);
    }

    method EmitOperandTest(t: Encodable, ghost s: Snap, ghost e: ExpDesc, ghost cond: bool, ghost x: Ctx)
      returns (st: Status, pc: int)
      requires ExpOk(S, s, e, x) && e.k.VRELOCABLE? && s.c.ins[e.k.info].OPNOT?
      requires t == TEST(s.c.ins[e.k.info].B, if cond then 0 else 1)
      requires ListsOk() && Now() == CoreSnap(s, e) && 0 <= nactvar <= freereg <= maxstacksize < MAXREGS
      modifies `code, `jpc, `hs, `open
      ensures st.Pass? ==>
                Valid() && Tested(S, Now(), e.t, e.f, x, [pc], !cond) && IsList(code, pc, [pc])
      ensures st.SyntaxError? ==> AtLimit()
    {
      st, pc := CondJump(t);
      if st.Pass? {
        NotTested(s, e, x, t, cond, Now(), pc);
      }
    }

    function OperandTest(i: Encodable, c: int): (t: Encodable)
      requires i.OPNOT? && FitsC(c)
      ensures t == TEST(i.B, c)
    {
      FitsOut(i);
      assert FitsKeyed(TEST(i.B, c));
      TEST(i.B, c)
    }

    lemma NotTested(s: Snap, e: ExpDesc, x: Ctx, t: Instr, cond: bool, s2: Snap, pc: int)
      requires ExpOk(S, s, e, x)
      requires e.k.VRELOCABLE? && s.c.ins[e.k.info].OPNOT?
      requires t == TEST(s.c.ins[e.k.info].B, if cond then 0 else 1)
      requires s2 == EmitTest(Discharged(CoreSnap(s, e)), t) && pc == |s2.c.ins| - 1
      ensures SnapOk(s2) && Tested(S, s2, e.t, e.f, x, [pc], !cond)
    {
      NotIsTest(s, e, x, t, cond);
    }

    method DropLast(e: ExpDesc, ghost x: Ctx)
      requires Exp(e, x) && e.k.VRELOCABLE?
      modifies `code
      ensures ListsOk() && Now() == CoreSnap(old(Now()), e)
    {
      ListElements(code, jpc, hs);
      code := code[..|code| - 1];
      assert Now() == CoreSnap(old(Now()), e);
    }

    lemma NotIsTest(s: Snap, e: ExpDesc, x: Ctx, t: Instr, cond: bool)
      requires ExpOk(S, s, e, x) && e.k.VRELOCABLE? && s.c.ins[e.k.info].OPNOT?
      requires t == TEST(s.c.ins[e.k.info].B, if cond then 0 else 1)
      ensures var d := Discharged(CoreSnap(s, e));
              Tested(S, EmitTest(d, t), e.t, e.f, x, [|d.c.ins| + 1], !cond)
    {
      TestedByTest(S, s, e, x, t, !cond);
    }

    /** Emits a jump taken when `e` has the truth value `cond`. */
    method JumpOnCond(e0: ExpDesc, cond: bool, ghost x: Ctx) returns (st: Status, pc: int)
      requires Exp(e0, x) && Regs(e0, x.base)
      requires !e0.k.VJMP? && !e0.k.VLOCAL? && !e0.k.VUPVAL?
      modifies `code, `k, `kcache, `jpc, `hs, `open, `freereg, `maxstacksize
      ensures st.Pass? ==>
                && Valid() && freereg == x.base && nactvar <= x.base
                && Tested(S, Now(), e0.t, e0.f, x, [pc], !cond) && IsList(code, pc, [pc])
      ensures st.SyntaxError? ==> AtLimit()
    {
      pc := NO_JUMP;
      if e0.k.VRELOCABLE? && code[e0.k.info].OPNOT? {
        st, pc := TestInsteadOfNot(e0, cond, x);
        return;
      }
      var e :- Discharge2anyreg(e0, x);
      FreeExp(e);
      st, pc := TestMain(e, TESTSET(NO_REG, e.k.info, if cond then 1 else 0), !cond, x);
    }

    /** Links the new jump to the exits that stay and sends the other exits here. */
    method SplitExits(t: int, f: int, pc: int, b: bool, ghost x: Ctx, ghost pcs: seq<int>) returns (st: Status, l: int)
      requires Valid() && Tested(S, Now(), t, f, x, pcs, b) && IsList(code, pc, pcs)
      modifies `code, `jpc, `hs, `lasttarget
      ensures st.Pass? ==>
                && Valid() && k == old(k) && lasttarget == |code|
                && var x2 := if b then x.(ts := [], fs := x.fs + pcs) else x.(ts := x.ts + pcs, fs := []);
                   CondOk(S, Now(), if b then NO_JUMP else l, if b then l else NO_JUMP, x2, b)
      ensures st.SyntaxError? ==> AtLimit()
    {
      l := NO_JUMP;
      ghost var s := Now();
      ghost var stay, go := if b then x.fs else x.ts, if b then x.ts else x.fs;
      l :- LinkAndSend(if b then f else t, pc, if b then t else f, stay, pcs, go);
      RelinkedOk(s, Now().c);
      LabelOk(s.(c := Now().c), Now());
      TestedSplit(S, s, t, f, x, pcs, b, Now(), l);
      st := Pass;
    }

    /** Appends `pc` to list `stay`, then sends list `go` here. */
    method LinkAndSend(stay: int, pc: int, go: int, ghost ss: seq<int>, ghost pcs: seq<int>, ghost gs: seq<int>)
      returns (st: Status, l: int)
      requires ListsOk() && IsList(code, stay, ss) && IsList(code, pc, pcs) && IsList(code, go, gs)
      requires Disjoint(ss, pcs) && Disjoint(ss, gs) && Disjoint(pcs, gs)
      requires Disjoint(hs, ss) && Disjoint(hs, pcs) && Disjoint(hs, gs)
      requires forall j :: j in ss || j in hs ==> j in open
      modifies `code, `jpc, `hs, `lasttarget
      ensures st.Pass? ==>
                && ListsOk() && lasttarget == |code| && hs == old(hs) + gs && IsList(code, l, ss + pcs)
                && Relinked(old(Now()).c, Now().c)
                && forall q :: 0 <= q < |code| && q !in ss && q !in old(hs) ==> code[q] == old(code)[q]
      ensures st.SyntaxError? ==> AtLimit()
    {
      l :- Concat(stay, pc, ss, pcs);
      ListFrame(old(code), code, go, gs);
      ListFrame(old(code), code, jpc, hs);
      ghost var mid := code;
      :- PatchToHere(go, gs);
      ListFrame(mid, code, l, ss + pcs);
      st := Pass;
    }

    /** Marking the current position as a target keeps the code well formed. */
    lemma LabelOk(s: Snap, s2: Snap)
      requires SnapOk(s) && s2.c == s.c && s2.last == |s.c.ins| && forall j :: j in s2.hs ==> j in s.c.open
      ensures SnapOk(s2)
    {
      forall q | 0 <= q < |s2.c.ins| ensures WellFormedAt(s2.c, s2.last, q) {
        assert WellFormedAt(s.c, s.last, q);
      }
    }

    /** The jump of a comparison, inverted if it is to leave on false, is the test. */
    method TestByJump(e: ExpDesc, b: bool, ghost x: Ctx) returns (pc: int)
      requires Exp(e, x) && e.k.VJMP?
      modifies `code
      ensures Valid() && Tested(S, Now(), e.t, e.f, x, [pc], b) && IsList(code, pc, [pc])
    {
      ghost var s := Now();
      ghost var t := code[e.k.info - 1];
      ListElements(code, jpc, hs);
      if b {
        NegateCondition(e);
      }
      pc := e.k.info;
      JumpIsTest(s, e, x, if b then Inverted(t) else t, b);
      assert code == s.c.ins[pc - 1 := if b then Inverted(t) else t];
      ListFrame(s.c.ins, code, jpc, hs);
      assert [pc][1..] == [];
    }

    lemma JumpIsTest(s: Snap, e: ExpDesc, x: Ctx, t: Instr, b: bool)
      requires ExpOk(S, s, e, x) && e.k.VJMP?
      requires t == (if b then Inverted(s.c.ins[e.k.info - 1]) else s.c.ins[e.k.info - 1])
      ensures var s2 := s.(c := s.c.(ins := s.c.ins[e.k.info - 1 := t]));
              Tested(S, s2, e.t, e.f, x, [e.k.info], b)
    {
      var s2 := s.(c := s.c.(ins := s.c.ins[e.k.info - 1 := t]));
      var cs := CoreSnap(s, e);
      CoreOk(s, e, x.base);
      DischargedNil(cs);
      assert WellFormedAt(s.c, s.last, e.k.info - 1);
      assert EmitTest(cs, t) == s2 by {
        assert s2.c.ins == cs.c.ins + [t, JMP(0, NO_JUMP)];
      }
      TestedByTest(S, s, e, x, t, b);
    }

    /** A constant that the expression itself put in the table is a string, so it is true;
        nil and false go there only as operands. */
    ghost predicate KTrue(e: ExpDesc)
      reads this
    {
      e.k.VK? ==> Truthy(Kst(k, e.k.info))
    }

    lemma Known(e: ExpDesc, x: Ctx, b: bool)
      requires Exp(e, x)
      requires if b then e.k.VTRUE? || e.k.VKINT? || e.k.VKFLT? || (e.k.VK? && KTrue(e)) else e.k.VNIL? || e.k.VFALSE?
      ensures Tested(S, Now(), e.t, e.f, x, [], b) && IsList(code, NO_JUMP, [])
    {
      TestedConstant(S, Now(), e, x, b);
    }

    /** Emits the jump that leaves unless the main value is `b`; none when it is known to be. */
    method LeaveUnless(e: ExpDesc, b: bool, ghost x: Ctx) returns (st: Status, pc: int, ghost pcs: seq<int>)
      requires Exp(e, x) && Regs(e, x.base) && KTrue(e) && !e.k.VLOCAL? && !e.k.VUPVAL?
      modifies `code, `k, `kcache, `jpc, `hs, `open, `freereg, `maxstacksize
      ensures st.Pass? ==>
                && Valid() && freereg == x.base && nactvar <= x.base
                && Tested(S, Now(), e.t, e.f, x, pcs, b) && IsList(code, pc, pcs)
      ensures st.SyntaxError? ==> AtLimit()
    {
      pc, pcs := NO_JUMP, [];
      if e.k.VJMP? {
        pc := TestByJump(e, b, x);
        pcs := [pc];
      } else if b && (e.k.VK? || e.k.VKFLT? || e.k.VKINT? || e.k.VTRUE?) {
        Known(e, x, true);
      } else if !b && (e.k.VNIL? || e.k.VFALSE?) {
        Known(e, x, false);
      } else {
        pc :- JumpOnCond(e, !b, x);
        pcs := [pc];
      }
      st := Pass;
    }

    /** Goes on if `e` is true and leaves otherwise. */
    method GoIfTrue(e0: ExpDesc, ghost x: Ctx) returns (st: Status, e: ExpDesc, ghost x2: Ctx)
      requires Exp(e0, x) && Regs(e0, x.base) && KTrue(e0)
      modifies `code, `k, `kcache, `jpc, `hs, `open, `lasttarget, `freereg, `maxstacksize
      ensures st.Pass? ==>
                && Valid() && freereg == x.base && nactvar <= x.base
                && e.t == NO_JUMP && x2 == x.(ts := [], fs := x2.fs)
                && CondOk(S, Now(), e.t, e.f, x2, true)
      ensures st.SyntaxError? ==> AtLimit()
    {
      x2 := x;
      e :- DischargeVars(e0, x);
      var pc;
      ghost var pcs;
      st, pc, pcs := LeaveUnless(e, true, x);
      if st.SyntaxError? { return; }
      var l :- SplitExits(e.t, e.f, pc, true, x, pcs);
      x2 := x.(ts := [], fs := x.fs + pcs);
      e := ExpDesc(e.k, NO_JUMP, l);
      st := Pass;
    }

    /** Goes on if `e` is false and leaves otherwise. */
    method GoIfFalse(e0: ExpDesc, ghost x: Ctx) returns (st: Status, e: ExpDesc, ghost x2: Ctx)
      requires Exp(e0, x) && Regs(e0, x.base) && KTrue(e0)
      modifies `code, `k, `kcache, `jpc, `hs, `open, `lasttarget, `freereg, `maxstacksize
      ensures st.Pass? ==>
                && Valid() && freereg == x.base && nactvar <= x.base
                && e.f == NO_JUMP && x2 == x.(ts := x2.ts, fs := [])
                && CondOk(S, Now(), e.t, e.f, x2, false)
      ensures st.SyntaxError? ==> AtLimit()
    {
      x2 := x;
      e :- DischargeVars(e0, x);
      var pc;
      ghost var pcs;
      st, pc, pcs := LeaveUnless(e, false, x);
      if st.SyntaxError? { return; }
      var l :- SplitExits(e.t, e.f, pc, false, x, pcs);
      x2 := x.(ts := x.ts + pcs, fs := []);
      e := ExpDesc(e.k, l, NO_JUMP);
      st := Pass;
    }

    // ----- not

    /** Negates the main value; the lists are still those of the operand. */
    method NegateMain(e0: ExpDesc, ghost x: Ctx) returns (st: Status, e: ExpDesc, ghost m: Main)
      requires Exp(e0, x) && Regs(e0, x.base) && KTrue(e0) && !e0.k.VLOCAL? && !e0.k.VUPVAL?
      modifies `code, `k, `kcache, `jpc, `hs, `open, `freereg, `maxstacksize
      ensures st.Pass? ==>
                && Valid() && freereg == x.base && nactvar <= x.base
                && e.t == e0.t && e.f == e0.f && !e.k.VNONRELOC? && !e.k.VLOCAL? && !e.k.VK?
                && ToNegate(S, Now(), e, x, m)
      ensures st.SyntaxError? ==> AtLimit()
    {
      e, m := e0, MainOf(S, Now().c, e0);
      match e0.k {
        case VNIL => e := ExpDesc(VTRUE, e0.t, e0.f);
        case VFALSE => e := ExpDesc(VTRUE, e0.t, e0.f);
        case VK(_) => e := ExpDesc(VFALSE, e0.t, e0.f);
        case VKFLT(_) => e := ExpDesc(VFALSE, e0.t, e0.f);
        case VKINT(_) => e := ExpDesc(VFALSE, e0.t, e0.f);
        case VTRUE => e := ExpDesc(VFALSE, e0.t, e0.f);
        case VJMP(_) => InvertJump(e0, x);
        case VRELOCABLE(_) => st, e, m := EmitNot(e0, x); return;
        case VNONRELOC(_) => st, e, m := EmitNot(e0, x); return;
      }
      assert !e.k.VJMP? ==> Core(Now().c, e) == Core(old(Now()).c, e0);
      st := Pass;
    }

    method InvertJump(e: ExpDesc, ghost x: Ctx)
      requires Exp(e, x) && e.k.VJMP?
      modifies `code
      ensures Valid() && ToNegate(S, Now(), e, x, MainOf(S, old(Now()).c, e))
    {
      ListElements(code, jpc, hs);
      InvertedToNegate(Now(), e, x);
      NegateCondition(e);
      ListFrame(old(code), code, jpc, hs);
    }

    lemma InvertedOk(s: Snap, i: int)
      requires SnapOk(s) && 0 <= i < |s.c.ins| && s.c.ins[i].COMPARE?
      ensures SnapOk(s.(c := s.c.(ins := s.c.ins[i := Inverted(s.c.ins[i])])))
      ensures forall j :: j in s.c.open && j != i + 1 ==> Keeps(s.c.ins, s.c.ins[i := Inverted(s.c.ins[i])], j)
    {
      var s2 := s.(c := s.c.(ins := s.c.ins[i := Inverted(s.c.ins[i])]));
      forall q | 0 <= q < |s.c.ins| ensures WellFormedAt(s2.c, s.last, q) {
        assert WellFormedAt(s.c, s.last, q);
        if s.c.ins[q].JMP? && q !in s.c.open { EntryInverted(s.c.ins, i, Target(s.c.ins, q)); }
        EntryInverted(s.c.ins, i, q + 2);
      }
    }

    lemma InvertedToNegate(s: Snap, e: ExpDesc, x: Ctx)
      requires ExpOk(S, s, e, x) && e.k.VJMP?
      ensures var i := e.k.info - 1;
              var s2 := s.(c := s.c.(ins := s.c.ins[i := Inverted(s.c.ins[i])]));
              SnapOk(s2) && ToNegate(S, s2, e, x, MainOf(S, s.c, e))
    {
      var i := e.k.info - 1;
      var s2 := s.(c := s.c.(ins := s.c.ins[i := Inverted(s.c.ins[i])]));
      InvertedOk(s, i);
      assert Core(s2.c, e) == Core(s.c, e);
      ShapeStep(s, e, x, s2, e);
    }

    lemma EntryInverted(ins: seq<Instr>, i: int, p: int)
      requires 0 <= i < |ins| && ins[i].COMPARE?
      ensures Entry(ins[i := Inverted(ins[i])], p) == Entry(ins, p)
    {
    }

    method EmitNot(e0: ExpDesc, ghost x: Ctx) returns (st: Status, e: ExpDesc, ghost m: Main)
      requires Exp(e0, x) && Regs(e0, x.base) && (e0.k.VRELOCABLE? || e0.k.VNONRELOC?)
      modifies `code, `k, `kcache, `jpc, `hs, `open, `freereg, `maxstacksize
      ensures st.Pass? ==>
                && Valid() && freereg == x.base && nactvar <= x.base
                && e.t == e0.t && e.f == e0.f && e.k.VRELOCABLE?
                && ToNegate(S, Now(), e, x, m)
      ensures st.SyntaxError? ==> AtLimit()
    {
      m := MConst(Nil);
      e :- Discharge2anyreg(e0, x);
      FreeExp(e);
      m := MReg(e.k.info);
      e :- PendNot(e, x);
      st := Pass;
    }

    method PendNot(e0: ExpDesc, ghost x: Ctx) returns (st: Status, e: ExpDesc)
      requires Exp(e0, x) && e0.k.VNONRELOC?
      modifies `code, `jpc, `hs, `open
      ensures st.Pass? ==>
                && Valid() && e.t == e0.t && e.f == e0.f && e.k.VRELOCABLE?
                && ToNegate(S, Now(), e, x, MReg(e0.k.info))
      ensures st.SyntaxError? ==> AtLimit()
    {
      var i := OPNOT(0, e0.k.info);
      assert Fits(i) by { assert FitsKeyed(i); }
      assert Core(Now().c, e0) == Now().c;
      PendShape(S, Now(), e0, x, i, MReg(e0.k.info));
      e := ExpDesc(VRELOCABLE(|code|), e0.t, e0.f);
      var pc;
      st, pc := PutCode(i);
    }

    /** `not e`. */
    method CodeNot(e0: ExpDesc, ghost x: Ctx) returns (st: Status, e: ExpDesc, ghost x2: Ctx)
      requires Exp(e0, x) && Regs(e0, x.base) && KTrue(e0)
      modifies `code, `k, `kcache, `jpc, `hs, `open, `freereg, `maxstacksize
      ensures st.Pass? ==>
                && x2 == x.(x := Un(NOT, x.x), ts := x2.ts, fs := x2.fs)
                && Exp(e, x2) && Regs(e, x.base) && !e.k.VK?
      ensures st.SyntaxError? ==> AtLimit()
    {
      x2 := x;
      e :- DischargeVars(e0, x);
      ghost var m;
      st, e, m := NegateMain(e, x);
      if st.SyntaxError? { return; }
      e := SwapExits(e, x, m);
      x2 := x.(x := Un(NOT, x.x), ts := x.fs, fs := x.ts);
      st := Pass;
    }

    /** Exchanges the two lists and drops the values of their tests. */
    method SwapExits(e0: ExpDesc, ghost x: Ctx, ghost m: Main) returns (e: ExpDesc)
      requires Valid() && ToNegate(S, Now(), e0, x, m)
      modifies `code
      ensures e == ExpDesc(e0.k, e0.f, e0.t) && Exp(e, x.(x := Un(NOT, x.x), ts := x.fs, fs := x.ts))
    {
      e := ExpDesc(e0.k, e0.f, e0.t);
      DevaluedList(code, e.t, x.fs, x.ts);
      DevaluedList(code, jpc, hs, x.ts + x.fs);
      DevaluedTwice(code, x.ts, x.fs);
      NegateDone(S, Now(), e0, x, m, Now().(c := Now().c.(ins := Devalued(code, x.ts + x.fs))));
      RemoveValues(e.f, x.ts);
      RemoveValues(e.t, x.fs);
    }

    lemma DevaluedList(ins: seq<Instr>, h: int, l: seq<int>, t: seq<int>)
      requires IsList(ins, h, l)
      ensures IsList(Devalued(ins, t), h, l)
    {
      ListElements(ins, h, l);
      forall j | j in l ensures Devalued(ins, t)[j] == ins[j] {
        assert Devalued(ins, t)[j] == DevaluedAt(ins, t, j);
      }
      ListFrame(ins, Devalued(ins, t), h, l);
    }

    // ----- operators that compute values

    /** The operand is a numeral without exits; its value. */
    function ToNumeral(e: ExpDesc): Option<Value> {
      if e.t != e.f then None
      else match e.k
        case VKINT(i) => Some(Int(i))
        case VKFLT(v) => Some(Flt(v))
        case _ => None
    }

    /** A constant operator result that may be used in place of the operation: an integer,
        or a float that is neither NaN nor zero. */
    function Foldable(v: Value): Option<Kind> {
      match v
      case Int(i) => Some(VKINT(i))
      case Flt(x) => if S.isNaN(v) || S.isZero(v) then None else Some(VKFLT(x))
      case _ => None
    }

    predicate ValidOp(op: BinOpr, v1: Value, v2: Value) {
      match op
      case BAND => S.toInteger(v1) && S.toInteger(v2)
      case BOR => S.toInteger(v1) && S.toInteger(v2)
      case BXOR => S.toInteger(v1) && S.toInteger(v2)
      case SHL => S.toInteger(v1) && S.toInteger(v2)
      case SHR => S.toInteger(v1) && S.toInteger(v2)
      case DIV => !S.isZero(v2)
      case IDIV => !S.isZero(v2)
      case MOD => !S.isZero(v2)
      case _ => true
    }

    function ConstFolding(op: BinOpr, e1: ExpDesc, e2: ExpDesc): Option<Kind> {
      var v1, v2 := ToNumeral(e1), ToNumeral(e2);
      if v1.None? || v2.None? || !ValidOp(op, v1.value, v2.value) then None
      else Foldable(S.arith(op, v1.value, v2.value))
    }

    /** Whether the operation on two numbers raises an error when the program runs: a bitwise
        one on a number without an integer representation, an integer division by zero. */
    predicate Raises(op: BinOpr, v1: Value, v2: Value) {
      || (op in {BAND, BOR, BXOR, SHL, SHR} && !(S.toInteger(v1) && S.toInteger(v2)))
      || (op in {IDIV, MOD} && v1.Int? && v2 == Int(0))
    }

    /** Only numbers are folded, never an operation that raises an error, and never to a float
        that the constant table could not hold or would confuse with another. */
    lemma FoldingSafe(op: BinOpr, e1: ExpDesc, e2: ExpDesc)
      requires S.isZero(Int(0)) && ConstFolding(op, e1, e2).Some?
      ensures e1.t == e1.f && e2.t == e2.f && (e1.k.VKINT? || e1.k.VKFLT?) && (e2.k.VKINT? || e2.k.VKFLT?)
      ensures !Raises(op, ToNumeral(e1).value, ToNumeral(e2).value)
      ensures match ConstFolding(op, e1, e2).value
              case VKINT(i) => S.arith(op, ToNumeral(e1).value, ToNumeral(e2).value) == Int(i)
              case VKFLT(x) => S.arith(op, ToNumeral(e1).value, ToNumeral(e2).value) == Flt(x)
                && !S.isNaN(Flt(x)) && !S.isZero(Flt(x))
              case _ => false
    {
    }

    function ConstFoldingUnary(op: UnOpr, e: ExpDesc): Option<Kind> {
      var v := ToNumeral(e);
      if v.None? || (op.BNOT? && !S.toInteger(v.value)) then None
      else Foldable(S.unary(op, v.value))
    }

    /** An operator whose operand must be in a register. */
    method CodeUnExpVal(op: UnOpr, e0: ExpDesc, ghost x: Ctx) returns (st: Status, e: ExpDesc)
      requires Exp(e0, x) && Regs(e0, x.base) && !op.NOT?
      modifies `code, `k, `kcache, `jpc, `hs, `open, `lasttarget, `freereg, `maxstacksize
      ensures st.Pass? ==>
                && e == NoExits(e.k) && e.k.VRELOCABLE? && Regs(e, x.base)
                && Exp(e, x.(x := Un(op, x.x), ts := [], fs := []))
      ensures st.SyntaxError? ==> AtLimit()
    {
      st, e := Exp2anyreg(e0, x);
      if st.Pass? {
        st, e := PutUnary(op, e, x.(ts := [], fs := []));
      }
    }

    method PutUnary(op: UnOpr, e0: ExpDesc, ghost x: Ctx) returns (st: Status, e: ExpDesc)
      requires Exp(e0, x) && Regs(e0, x.base) && e0.k.VNONRELOC? && e0 == NoExits(e0.k)
      requires x.ts == [] && x.fs == [] && !op.NOT?
      modifies `code, `jpc, `hs, `open, `freereg
      ensures st.Pass? ==>
                && e == NoExits(e.k) && e.k.VRELOCABLE? && Regs(e, x.base)
                && Exp(e, x.(x := Un(op, x.x)))
      ensures st.SyntaxError? ==> AtLimit()
    {
      FreeExp(e0);
      var i := UNARY(op, 0, e0.k.info);
      assert Fits(i) by { assert FitsKeyed(i); }
      PendUnary(op, Now(), e0, x, i);
      st, e := PutRelocable(i, x.(x := Un(op, x.x)));
    }

    lemma PendUnary(op: UnOpr, s: Snap, e: ExpDesc, x: Ctx, i: Instr)
      requires ExpOk(S, s, e, x) && e.k.VNONRELOC? && e == NoExits(e.k) && x.ts == [] && x.fs == []
      requires !op.NOT? && i == UNARY(op, 0, e.k.info)
      ensures ExpOk(S, Emit(Discharged(s), [i]), NoExits(VRELOCABLE(|s.c.ins|)), x.(x := Un(op, x.x)))
    {
      var x2 := x.(x := Un(op, x.x));
      assert Core(s.c, e) == s.c;
      UnaryFlow(S, s.c, s.hs, MReg(e.k.info), x, op, MInstr(i));
      assert Outer(x2) == Outer(x);
      assert Shape(s, e, x2);
      PendInstr(S, s, e, x2, i);
    }

    /** Prefix operators, folding numerals. */
    method Prefix(op: UnOpr, e0: ExpDesc, ghost x: Ctx) returns (st: Status, e: ExpDesc, ghost x2: Ctx)
      requires Exp(e0, x) && Regs(e0, x.base) && KTrue(e0)
      modifies `code, `k, `kcache, `jpc, `hs, `open, `lasttarget, `freereg, `maxstacksize
      ensures st.Pass? ==>
                && x2 == x.(x := Un(op, x.x), ts := x2.ts, fs := x2.fs)
                && Exp(e, x2) && Regs(e, x.base) && KTrue(e)
      ensures st.SyntaxError? ==> AtLimit()
    {
      e, x2 := e0, x;
      if op.NOT? {
        st, e, x2 := CodeNot(e0, x);
        return;
      }
      x2 := x.(x := Un(op, x.x), ts := [], fs := []);
      if op.MINUS? || op.BNOT? {
        var res := ConstFoldingUnary(op, e0);
        if res.Some? {
          HeadsDiffer(code, e0.t, x.ts, e0.f, x.fs);
          FoldedUnary(op, Now(), e0, x, res.value);
          return Pass, NoExits(res.value), x2;
        }
      }
      e :- CodeUnExpVal(op, e0, x);
      st := Pass;
    }

    lemma FoldedUnary(op: UnOpr, s: Snap, e: ExpDesc, x: Ctx, res: Kind)
      requires ExpOk(S, s, e, x) && e == NoExits(e.k) && x.ts == [] && x.fs == []
      requires !op.NOT? && ConstFoldingUnary(op, e) == Some(res)
      ensures ExpOk(S, s, NoExits(res), x.(x := Un(op, x.x)))
    {
      var x2, e2 := x.(x := Un(op, x.x)), NoExits(res);
      assert Core(s.c, e) == s.c && Core(s.c, e2) == s.c;
      UnaryFlow(S, s.c, s.hs, MainOf(S, s.c, e), x, op, MainOf(S, s.c, e2));
      assert Outer(x2) == Outer(x);
      assert Shape(s, e2, x2);
    }

    /** First operand of a binary operator, before the second one is read. */
    method Infix(op: BinOpr, e0: ExpDesc, ghost x: Ctx) returns (st: Status, e: ExpDesc, ghost x1: Ctx)
      requires Exp(e0, x) && Regs(e0, x.base) && KTrue(e0) && x.w == -1 && x.nact == nactvar
      modifies `code, `k, `kcache, `jpc, `hs, `open, `lasttarget, `freereg, `maxstacksize
      ensures st.Pass? ==>
                && Valid() && freereg >= 0 && FirstOk(S, op, Now(), e, x1, freereg)
                && x1 == x.(ts := x1.ts, fs := x1.fs)
      ensures st.SyntaxError? ==> AtLimit()
    {
      if op.AND? {
        st, e, x1 := GoIfTrue(e0, x);
      } else if op.OR? {
        st, e, x1 := GoIfFalse(e0, x);
      } else {
        st, e := InfixValue(op, e0, x);
        x1 := x.(ts := [], fs := []);
      }
    }

    method InfixValue(op: BinOpr, e0: ExpDesc, ghost x: Ctx) returns (st: Status, e: ExpDesc)
      requires Exp(e0, x) && Regs(e0, x.base) && x.w == -1 && x.nact == nactvar
      requires !op.AND? && !op.OR?
      modifies `code, `k, `kcache, `jpc, `hs, `open, `lasttarget, `freereg, `maxstacksize
      ensures st.Pass? ==>
                Valid() && freereg >= 0 && FirstOk(S, op, Now(), e, x.(ts := [], fs := []), freereg)
      ensures st.SyntaxError? ==> AtLimit()
    {
      if op.CONCAT? {
        st, e := Exp2nextreg(e0, x);
      } else {
        st, e := OperandOrNumeral(op, e0, x);
      }
      if st.Pass? {
        FirstValue(op, Now(), e, x.(ts := [], fs := []));
      }
    }

    /** Leaves a numeral that may still be folded as it is; makes an RK operand of the rest. */
    method OperandOrNumeral(op: BinOpr, e0: ExpDesc, ghost x: Ctx) returns (st: Status, e: ExpDesc)
      requires Exp(e0, x) && Regs(e0, x.base)
      modifies `code, `k, `kcache, `jpc, `hs, `open, `lasttarget, `freereg, `maxstacksize
      ensures st.Pass? ==>
                && Exp(e, x.(ts := [], fs := [])) && Regs(e, x.base) && e == NoExits(e.k)
                && (e.k.VNONRELOC? || (e.k.VK? && e.k.info <= MAXINDEXRK)
                    || (IsArith(op) && (e.k.VKINT? || e.k.VKFLT?)))
      ensures st.SyntaxError? ==> AtLimit()
    {
      if IsArith(op) && ToNumeral(e0).Some? {
        HeadsDiffer(code, e0.t, x.ts, e0.f, x.fs);
        ListElements(code, e0.t, x.ts);
        assert x == x.(ts := [], fs := []);
        return Pass, e0;
      }
      var rk;
      st, e, rk := Exp2RK(e0, x);
    }

    lemma FirstValue(op: BinOpr, s: Snap, e: ExpDesc, x: Ctx)
      requires ExpOk(S, s, e, x) && x.ts == [] && x.fs == [] && x.w == -1 && e == NoExits(e.k)
      requires Regs(e, x.base) && 0 <= freereg && x.nact == nactvar && !op.AND? && !op.OR?
      requires if op.CONCAT? then e.k == VNONRELOC(x.base)
               else e.k.VNONRELOC? || (e.k.VK? && e.k.info <= MAXINDEXRK)
                    || (IsArith(op) && (e.k.VKINT? || e.k.VKFLT?))
      ensures FirstOk(S, op, s, e, x, freereg)
    {
    }

    /** The second operand `e2` has been compiled after the first one was known in `s1`. */
    ghost predicate SecondOk(op: BinOpr, s1: Snap, e1: ExpDesc, x1: Ctx, e2: ExpDesc, x2: Ctx)
      reads this
    {
      && FirstOk(S, op, s1, e1, x1, x2.base)
      && Exp(e2, x2) && Regs(e2, x2.base)
      && x2.w == -1 && x2.s0 == s1 && x2.nact == x1.nact == nactvar
    }

    /** Makes an RK operand of the second operand; the first one is still usable. */
    method SecondRK(op: BinOpr, e1: ExpDesc, e2: ExpDesc, ghost s1: Snap, ghost x1: Ctx, ghost x2: Ctx)
      returns (st: Status, d2: ExpDesc, rk2: int)
      requires SecondOk(op, s1, e1, x1, e2, x2) && !op.AND? && !op.OR?
      modifies `code, `k, `kcache, `jpc, `hs, `open, `lasttarget, `freereg, `maxstacksize
      ensures st.Pass? ==>
                && Exp(d2, x2.(ts := [], fs := [])) && IsRK(d2, rk2) && Regs(d2, x2.base)
                && 0 <= x2.base <= freereg
                && ExpOk(S, Now(), e1, OperandCtx(Now(), e1, freereg))
                && (e2.k.VNONRELOC? && e2.t == e2.f ==> d2 == e2)
      ensures st.SyntaxError? ==> AtLimit()
    {
      st, d2, rk2 := Exp2RK(e2, x2);
      if st.Pass? {
        OperandReady(S, op, s1, e1, x1, x2.base, Now(), freereg);
      }
    }

    /** Then makes an RK operand of the first one and frees both. */
    method FirstRK(e1: ExpDesc, d2: ExpDesc, ghost base: int) returns (st: Status, d1: ExpDesc, rk1: int)
      requires Valid() && ExpOk(S, Now(), e1, OperandCtx(Now(), e1, freereg)) && e1 == NoExits(e1.k)
      requires e1.k.VNONRELOC? || e1.k.VK? || e1.k.VKINT? || e1.k.VKFLT?
      requires OnTop(e1, d2, base)
      modifies `code, `k, `kcache, `jpc, `hs, `open, `lasttarget, `freereg, `maxstacksize
      ensures st.Pass? ==>
                && Valid() && freereg == base && IsRK(d1, rk1)
                && ExpOk(S, Now(), d1, OperandCtx(old(Now()), e1, old(freereg)))
                && (e1.k.VNONRELOC? ==> d1 == e1)
      ensures st.SyntaxError? ==> AtLimit()
    {
      st, d1, rk1 := Exp2RK(e1, OperandCtx(Now(), e1, freereg));
      if st.Pass? {
        FreeExps(d1, d2, base);
      }
    }

    /** Brings both operands into RK form, the second one first, and frees their registers. */
    method BothRK(op: BinOpr, e1: ExpDesc, e2: ExpDesc, ghost s1: Snap, ghost x1: Ctx, ghost x2: Ctx)
      returns (st: Status, rk1: int, rk2: int, ghost s2: Snap, ghost f1: ExpDesc, ghost f2: ExpDesc, ghost next: nat)
      requires SecondOk(op, s1, e1, x1, e2, x2) && !op.AND? && !op.OR?
      modifies `code, `k, `kcache, `jpc, `hs, `open, `lasttarget, `freereg, `maxstacksize
      ensures st.Pass? ==>
                && Valid() && freereg == x1.base
                && ExpOk(S, s2, f2, x2.(ts := [], fs := [])) && IsRK(f2, rk2) && x2.base <= next
                && ExpOk(S, Now(), f1, OperandCtx(s2, e1, next)) && IsRK(f1, rk1)
                && (f2.k.VNONRELOC? ==> f2.k.info < next)
                && (e1.k.VNONRELOC? ==> f1 == e1)
                && (e2.k.VNONRELOC? && e2.t == e2.f ==> f2 == e2)
      ensures st.SyntaxError? ==> AtLimit()
    {
      rk1, s2, f1, f2, next := 0, Now(), e1, e2, 0;
      FirstRegs(op, s1, e1, x1, x2.base);
      var d2;
      st, d2, rk2 := SecondRK(op, e1, e2, s1, x1, x2);
      if st.SyntaxError? { return; }
      s2, f2, next := Now(), d2, freereg;
      assert OnTop(e1, d2, x1.base);
      var d1;
      st, d1, rk1 := FirstRK(e1, d2, x1.base);
      f1 := d1;
    }

    /** Where the first operand is held. */
    lemma FirstRegs(op: BinOpr, s1: Snap, e1: ExpDesc, x1: Ctx, next: nat)
      requires FirstOk(S, op, s1, e1, x1, next) && !op.AND? && !op.OR? && x1.nact == nactvar
      ensures nactvar <= x1.base && e1 == NoExits(e1.k)
      ensures if Temporary(e1) then e1.k.info == x1.base && next == x1.base + 1
              else next == x1.base && (e1.k.VNONRELOC? ==> 0 <= e1.k.info < nactvar)
      ensures e1.k.VNONRELOC? || (e1.k.VK? && 0 <= e1.k.info <= MAXINDEXRK) || (IsArith(op) && (e1.k.VKINT? || e1.k.VKFLT?))
      ensures e1.k.VNONRELOC? ==> e1.k.info < MAXREGS
    {
    }

    /** The instruction of a binary operator other than a comparison. */
    function BinaryInstr(op: BinOpr, rk1: int, rk2: int): Instr {
      if op.CONCAT? then OPCONCAT(0, rk1, rk2) else ARITH(op, 0, rk1, rk2)
    }

    lemma PendBinary(op: BinOpr, s1: Snap, e1: ExpDesc, x1: Ctx, s2: Snap, f2: ExpDesc, x2: Ctx,
                     s3: Snap, f1: ExpDesc, next: nat, rk1: int, rk2: int)
      requires FirstOk(S, op, s1, e1, x1, x2.base) && (IsArith(op) || op.CONCAT?)
      requires ExpOk(S, s2, f2, x2) && x2.ts == [] && x2.fs == [] && x2.w == -1
      requires x2.s0 == s1 && x2.nact == x1.nact && x2.base <= next
      requires ExpOk(S, s3, f1, OperandCtx(s2, e1, next)) && IsRK(f1, rk1) && IsRK(f2, rk2)
      requires f2.k.VNONRELOC? ==> f2.k.info < next
      requires op.CONCAT? ==> f1.k == VNONRELOC(x1.base) && f2.k == VNONRELOC(x1.base + 1)
      ensures ExpOk(S, Emit(Discharged(s3), [BinaryInstr(op, rk1, rk2)]), NoExits(VRELOCABLE(|s3.c.ins|)),
                    x1.(x := Bin(op, x1.x, x2.x)))
    {
      BinaryFlow(op, s1, e1, x1, s2, f2, x2, s3, f1, next, rk1, rk2);
      PendInstr(S, s3, NoExpr(), x1.(x := Bin(op, x1.x, x2.x)), BinaryInstr(op, rk1, rk2));
    }

    lemma BinaryFlow(op: BinOpr, s1: Snap, e1: ExpDesc, x1: Ctx, s2: Snap, f2: ExpDesc, x2: Ctx,
                     s3: Snap, f1: ExpDesc, next: nat, rk1: int, rk2: int)
      requires FirstOk(S, op, s1, e1, x1, x2.base) && (IsArith(op) || op.CONCAT?)
      requires ExpOk(S, s2, f2, x2) && x2.ts == [] && x2.fs == [] && x2.w == -1
      requires x2.s0 == s1 && x2.nact == x1.nact && x2.base <= next
      requires ExpOk(S, s3, f1, OperandCtx(s2, e1, next)) && IsRK(f1, rk1) && IsRK(f2, rk2)
      requires f2.k.VNONRELOC? ==> f2.k.info < next
      requires op.CONCAT? ==> f1.k == VNONRELOC(x1.base) && f2.k == VNONRELOC(x1.base + 1)
      ensures var x3, i := x1.(x := Bin(op, x1.x, x2.x)), BinaryInstr(op, rk1, rk2);
              && Shape(s3, NoExpr(), x3) && Flow(S, s3.c, s3.hs, MInstr(i), x3) && PlainOperands(s3.c.k, i)
    {
      assert s2.c.k <= s3.c.k;
      OperandsYield(op, s2, f2, s3, f1, rk1, rk2);
      BinaryReady(S, op, s1, e1, x1, s2, f2, x2, s3, f1, next, MInstr(BinaryInstr(op, rk1, rk2)));
    }

    lemma OperandsYield(op: BinOpr, s2: Snap, f2: ExpDesc, s3: Snap, f1: ExpDesc, rk1: int, rk2: int)
      requires IsArith(op) || op.CONCAT?
      requires IsRK(f1, rk1) && IsRK(f2, rk2) && s2.c.k <= s3.c.k
      requires (f1.k.VK? ==> f1.k.info < |s3.c.k|) && (f2.k.VK? ==> f2.k.info < |s2.c.k|)
      requires (f1.k.VNONRELOC? ==> f1.k.info < MAXREGS) && (f2.k.VNONRELOC? ==> f2.k.info < MAXREGS)
      requires op.CONCAT? ==> f1.k.VNONRELOC? && f2.k.VNONRELOC? && f2.k.info == f1.k.info + 1
      ensures var i := BinaryInstr(op, rk1, rk2);
              forall R, va, vb :: Holds(S, s3.c.k, MainOf(S, s3.c, f1), R, va) && Holds(S, s3.c.k, MainOf(S, s2.c, f2), R, vb)
                ==> Holds(S, s3.c.k, MInstr(i), R, BinValue(S, op, va, vb))
    {
      var i := BinaryInstr(op, rk1, rk2);
      forall R, va, vb | Holds(S, s3.c.k, MainOf(S, s3.c, f1), R, va) && Holds(S, s3.c.k, MainOf(S, s2.c, f2), R, vb)
        ensures Holds(S, s3.c.k, MInstr(i), R, BinValue(S, op, va, vb))
      {
        assert RK(s3.c.k, R, rk1) == va && RK(s3.c.k, R, rk2) == vb;
        if op.CONCAT? { assert ConcatRange(S, R, rk2, rk2) == vb; }
      }
    }

    /** Arithmetic, and concatenation of two adjacent registers. */
    method CodeBinExpVal(op: BinOpr, e1: ExpDesc, e2: ExpDesc, ghost s1: Snap, ghost x1: Ctx, ghost x2: Ctx)
      returns (st: Status, e: ExpDesc)
      requires SecondOk(op, s1, e1, x1, e2, x2) && (IsArith(op) || op.CONCAT?)
      requires op.CONCAT? ==> e2 == NoExits(VNONRELOC(x1.base + 1))
      modifies `code, `k, `kcache, `jpc, `hs, `open, `lasttarget, `freereg, `maxstacksize
      ensures st.Pass? ==>
                && e == NoExits(e.k) && e.k.VRELOCABLE? && freereg == x1.base && nactvar <= x1.base
                && Exp(e, x1.(x := Bin(op, x1.x, x2.x)))
      ensures st.SyntaxError? ==> AtLimit()
    {
      e := e1;
      var rk1, rk2;
      ghost var s2, f1, f2, next;
      st, rk1, rk2, s2, f1, f2, next := BothRK(op, e1, e2, s1, x1, x2);
      if st.Pass? {
        ghost var y2 := x2.(ts := [], fs := []);
        assert FirstOk(S, op, s1, e1, x1, y2.base);
        st, e := PutBinary(op, rk1, rk2, s1, e1, x1, s2, f2, y2, f1, next);
      }
    }

    method PutBinary(op: BinOpr, rk1: int, rk2: int, ghost s1: Snap, ghost e1: ExpDesc, ghost x1: Ctx, ghost s2: Snap,
                     ghost f2: ExpDesc, ghost x2: Ctx, ghost f1: ExpDesc, ghost next: nat)
      returns (st: Status, e: ExpDesc)
      requires Valid() && FirstOk(S, op, s1, e1, x1, x2.base) && (IsArith(op) || op.CONCAT?)
      requires ExpOk(S, s2, f2, x2) && x2.ts == [] && x2.fs == [] && x2.w == -1
      requires x2.s0 == s1 && x2.nact == x1.nact && x2.base <= next
      requires ExpOk(S, Now(), f1, OperandCtx(s2, e1, next)) && IsRK(f1, rk1) && IsRK(f2, rk2)
      requires f2.k.VNONRELOC? ==> f2.k.info < next
      requires op.CONCAT? ==> f1.k == VNONRELOC(x1.base) && f2.k == VNONRELOC(x1.base + 1)
      modifies `code, `jpc, `hs, `open
      ensures e == NoExits(e.k) && e.k.VRELOCABLE? && (st.Pass? ==> Exp(e, x1.(x := Bin(op, x1.x, x2.x))))
      ensures st.SyntaxError? ==> AtLimit()
    {
      assert Fits(BinaryInstr(op, rk1, rk2)) by {
        RKFits(Now(), f1, OperandCtx(s2, e1, next), rk1);
        RKFits(s2, f2, x2, rk2);
        assert FitsKeyed(BinaryInstr(op, rk1, rk2));
      }
      PendBinary(op, s1, e1, x1, s2, f2, x2, Now(), f1, next, rk1, rk2);
      st, e := PutRelocable(BinaryInstr(op, rk1, rk2), x1.(x := Bin(op, x1.x, x2.x)));
    }

    /** Emits the instruction that leaves the value of `x` in a register not yet chosen. */
    method PutRelocable(i: Encodable, ghost x: Ctx) returns (st: Status, e: ExpDesc)
      requires Valid() && ExpOk(S, Emit(Discharged(Now()), [i]), NoExits(VRELOCABLE(|code|)), x)
      modifies `code, `jpc, `hs, `open
      ensures e == NoExits(VRELOCABLE(|old(code)|)) && (st.Pass? ==> Exp(e, x))
      ensures st.SyntaxError? ==> AtLimit()
    {
      e := NoExits(VRELOCABLE(|code|));
      var pc;
      st, pc := PutCode(i);
    }

    /** The test of a comparison: `~=` is `==` negated, `>` and `>=` exchange operands. */
    function CompareInstr(op: BinOpr, rk1: int, rk2: int): Instr {
      match op
      case NE => COMPARE(EQ, 0, rk1, rk2)
      case GT => COMPARE(LT, 1, rk2, rk1)
      case GE => COMPARE(LE, 1, rk2, rk1)
      case _ => COMPARE(op, 1, rk1, rk2)
    }

    lemma PendCompare(op: BinOpr, s1: Snap, e1: ExpDesc, x1: Ctx, s2: Snap, f2: ExpDesc, x2: Ctx,
                      next: nat, rk1: int, rk2: int)
      requires FirstOk(S, op, s1, e1, x1, x2.base) && IsComparison(op)
      requires ExpOk(S, s2, f2, x2) && x2.ts == [] && x2.fs == [] && x2.w == -1
      requires x2.s0 == s1 && x2.nact == x1.nact && x2.base <= next
      requires IsRK(e1, rk1) && IsRK(f2, rk2)
      requires f2.k.VNONRELOC? ==> f2.k.info < next
      ensures ExpOk(S, EmitTest(Discharged(s2), CompareInstr(op, rk1, rk2)), NoExits(VJMP(|s2.c.ins| + 1)),
                    x1.(x := Bin(op, x1.x, x2.x)))
    {
      var t := CompareInstr(op, rk1, rk2);
      OperandReady(S, op, s1, e1, x1, x2.base, s2, next);
      CompareYields(op, s2, f2, e1, rk1, rk2);
      BinaryReady(S, op, s1, e1, x1, s2, f2, x2, s2, e1, next, MTest(t));
      PendTest(S, s2, NoExpr(), x1.(x := Bin(op, x1.x, x2.x)), t);
    }

    lemma CompareYields(op: BinOpr, s2: Snap, f2: ExpDesc, f1: ExpDesc, rk1: int, rk2: int)
      requires IsComparison(op) && IsRK(f1, rk1) && IsRK(f2, rk2)
      requires (f1.k.VK? ==> f1.k.info < |s2.c.k|) && (f2.k.VK? ==> f2.k.info < |s2.c.k|)
      requires (f1.k.VNONRELOC? ==> f1.k.info < MAXREGS) && (f2.k.VNONRELOC? ==> f2.k.info < MAXREGS)
      ensures var t := CompareInstr(op, rk1, rk2);
              forall R, va, vb :: Holds(S, s2.c.k, MainOf(S, s2.c, f1), R, va) && Holds(S, s2.c.k, MainOf(S, s2.c, f2), R, vb)
                ==> Holds(S, s2.c.k, MTest(t), R, BinValue(S, op, va, vb))
    {
    }

    /** Comparisons become a test and a jump whose destination is still open. */
    method CodeComp(op: BinOpr, e1: ExpDesc, e2: ExpDesc, ghost s1: Snap, ghost x1: Ctx, ghost x2: Ctx)
      returns (st: Status, e: ExpDesc)
      requires SecondOk(op, s1, e1, x1, e2, x2) && IsComparison(op)
      modifies `code, `k, `kcache, `jpc, `hs, `open, `lasttarget, `freereg, `maxstacksize
      ensures st.Pass? ==>
                && e == NoExits(e.k) && e.k.VJMP? && freereg == x1.base && nactvar <= x1.base
                && Exp(e, x1.(x := Bin(op, x1.x, x2.x)))
      ensures st.SyntaxError? ==> AtLimit()
    {
      e := e1;
      FirstRegs(op, s1, e1, x1, x2.base);
      var d2, rk2;
      st, d2, rk2 := SecondRK(op, e1, e2, s1, x1, x2);
      if st.Pass? {
        st, e := CompareOperands(op, e1, d2, rk2, s1, x1, x2.(ts := [], fs := []));
      }
    }

    /** Emits the comparison of two operands in RK form. */
    method CompareOperands(op: BinOpr, e1: ExpDesc, d2: ExpDesc, rk2: int, ghost s1: Snap, ghost x1: Ctx, ghost x2: Ctx)
      returns (st: Status, e: ExpDesc)
      requires FirstOk(S, op, s1, e1, x1, x2.base) && IsComparison(op)
      requires Exp(d2, x2) && x2.ts == [] && x2.fs == [] && x2.w == -1 && x2.s0 == s1 && x2.nact == x1.nact
      requires IsRK(d2, rk2) && x2.base <= freereg && OnTop(e1, d2, x1.base) && d2 == NoExits(d2.k)
      requires d2.k.VNONRELOC? ==> d2.k.info < freereg
      requires e1 == NoExits(e1.k) && (e1.k.VNONRELOC? || (e1.k.VK? && 0 <= e1.k.info <= MAXINDEXRK))
      modifies `code, `jpc, `hs, `open, `freereg
      ensures st.Pass? ==>
                && e == NoExits(e.k) && e.k.VJMP? && freereg == x1.base
                && Exp(e, x1.(x := Bin(op, x1.x, x2.x)))
      ensures st.SyntaxError? ==> AtLimit()
    {
      var rk1 := if e1.k.VK? then RKASK(e1.k.info) else e1.k.info;
      RKFits(Now(), d2, x2, rk2);
      CompareFits(op, s1, e1, x1, d2, x2, rk1, rk2);
      PendCompare(op, s1, e1, x1, Now(), d2, x2, freereg, rk1, rk2);
      FreeExps(e1, d2, x1.base);
      st, e := EmitCompare(CompareInstr(op, rk1, rk2), x1.(x := Bin(op, x1.x, x2.x)));
    }

    lemma CompareFits(op: BinOpr, s1: Snap, e1: ExpDesc, x1: Ctx, d2: ExpDesc, x2: Ctx, rk1: int, rk2: int)
      requires FirstOk(S, op, s1, e1, x1, x2.base) && IsComparison(op)
      requires e1 == NoExits(e1.k) && (e1.k.VNONRELOC? || (e1.k.VK? && 0 <= e1.k.info <= MAXINDEXRK))
      requires rk1 == if e1.k.VK? then RKASK(e1.k.info) else e1.k.info
      requires FitsB(rk2)
      ensures Fits(CompareInstr(op, rk1, rk2))
    {
      assert FitsKeyed(CompareInstr(op, rk1, rk2));
    }

    method EmitCompare(t: Encodable, ghost x: Ctx) returns (st: Status, e: ExpDesc)
      requires Valid() && ExpOk(S, EmitTest(Discharged(Now()), t), NoExits(VJMP(|code| + 1)), x)
      modifies `code, `jpc, `hs, `open
      ensures st.Pass? ==> e == NoExits(e.k) && e.k.VJMP? && Exp(e, x)
      ensures st.SyntaxError? ==> AtLimit()
    {
      e := NoExits(VNIL);
      var pc :- CondJump(t);
      e := NoExits(VJMP(pc));
      st := Pass;
    }

    /** Concatenation; a pending concatenation on the right takes in the left operand. */
    method CodeConcat(e1: ExpDesc, e20: ExpDesc, ghost s1: Snap, ghost x1: Ctx, ghost x2: Ctx)
      returns (st: Status, e: ExpDesc)
      requires SecondOk(CONCAT, s1, e1, x1, e20, x2)
      modifies `code, `k, `kcache, `jpc, `hs, `open, `lasttarget, `freereg, `maxstacksize
      ensures st.Pass? ==>
                && e == NoExits(e.k) && e.k.VRELOCABLE? && freereg == x1.base && nactvar <= x1.base
                && Exp(e, x1.(x := Bin(CONCAT, x1.x, x2.x)))
      ensures st.SyntaxError? ==> AtLimit()
    {
      e := e1;
      st, e := Exp2val(e20, x2);
      if st.Pass? {
        st, e := ConcatVal(e1, e, s1, x1, x2.(ts := [], fs := []));
      }
    }

    method ConcatVal(e1: ExpDesc, e20: ExpDesc, ghost s1: Snap, ghost x1: Ctx, ghost x2: Ctx)
      returns (st: Status, e: ExpDesc)
      requires SecondOk(CONCAT, s1, e1, x1, e20, x2) && x2.ts == [] && x2.fs == []
      modifies `code, `k, `kcache, `jpc, `hs, `open, `lasttarget, `freereg, `maxstacksize
      ensures st.Pass? ==>
                && e == NoExits(e.k) && e.k.VRELOCABLE? && freereg == x1.base && nactvar <= x1.base
                && Exp(e, x1.(x := Bin(CONCAT, x1.x, x2.x)))
      ensures st.SyntaxError? ==> AtLimit()
    {
      e := e20;
      FirstRegs(CONCAT, s1, e1, x1, x2.base);
      if e.k.VRELOCABLE? && code[e.k.info].OPCONCAT? {
        MergeConcat(e1, e, s1, x1, x2);
        FreeExp(e1);
        return Pass, e;
      }
      var e2 :- Exp2nextreg(e20, x2);
      st, e := CodeBinExpVal(CONCAT, e1, e2, s1, x1, x2);
    }

    method MergeConcat(e1: ExpDesc, e2: ExpDesc, ghost s1: Snap, ghost x1: Ctx, ghost x2: Ctx)
      requires FirstOk(S, CONCAT, s1, e1, x1, x2.base)
      requires Exp(e2, x2) && x2.w == -1 && x2.s0 == s1 && x2.nact == x1.nact && x2.ts == [] && x2.fs == []
      requires e2.k.VRELOCABLE? && code[e2.k.info].OPCONCAT? && e2 == NoExits(e2.k)
      modifies `code
      ensures Exp(e2, x1.(x := Bin(CONCAT, x1.x, x2.x)))
    {
      ghost var s := Now();
      var i := code[e2.k.info];
      ListElements(code, jpc, hs);
      code := code[e2.k.info := OPCONCAT(i.A, e1.k.info, i.C)];
      ConcatMerge(S, s1, e1, x1, s, e2, x2, Now());
      assert e1.k.info == i.B - 1;
      ListFrame(s.c.ins, code, jpc, hs);
    }

    /** The second operand of `and` or `or`: its exits come first, then those of the first. */
    method CodeJunction(op: BinOpr, e1: ExpDesc, e20: ExpDesc, ghost s1: Snap, ghost x1: Ctx, ghost x2: Ctx)
      returns (st: Status, e: ExpDesc)
      requires SecondOk(op, s1, e1, x1, e20, x2) && (op.AND? || op.OR?) && KTrue(e20)
      modifies `code, `jpc, `hs, `open
      ensures st.Pass? ==> Exp(e, JunctionCtx(op, x1, x2)) && Regs(e, x1.base) && KTrue(e)
      ensures st.SyntaxError? ==> AtLimit()
    {
      e := e1;
      var e2 :- DischargeVars(e20, x2);
      st, e := LinkJunction(op, e1, e2, s1, x1, x2);
    }

    method LinkJunction(op: BinOpr, e1: ExpDesc, e2: ExpDesc, ghost s1: Snap, ghost x1: Ctx, ghost x2: Ctx)
      returns (st: Status, e: ExpDesc)
      requires FirstOk(S, op, s1, e1, x1, x2.base) && (op.AND? || op.OR?)
      requires Exp(e2, x2) && x2.w == -1 && x2.s0 == s1 && x2.nact == x1.nact
      modifies `code
      ensures st.Pass? ==> Exp(e, JunctionCtx(op, x1, x2)) && e.k == e2.k
      ensures st.SyntaxError? ==> AtLimit()
    {
      ghost var s := Now();
      JunctionLists(op, s1, e1, x1, s, e2, x2);
      var l;
      if op.AND? {
        st, l := Concat(e2.f, e1.f, x2.fs, x1.fs);
        e := ExpDesc(e2.k, e2.t, l);
      } else {
        st, l := Concat(e2.t, e1.t, x2.ts, x1.ts);
        e := ExpDesc(e2.k, l, e2.f);
      }
      if st.Pass? {
        JunctionJoined(op, s1, e1, x1, s, e2, x2, Now(), e);
      }
    }

    lemma JunctionJoined(op: BinOpr, s1: Snap, e1: ExpDesc, x1: Ctx, s2: Snap, e2: ExpDesc, x2: Ctx, s3: Snap, e: ExpDesc)
      requires FirstOk(S, op, s1, e1, x1, x2.base) && (op.AND? || op.OR?)
      requires ExpOk(S, s2, e2, x2) && x2.w == -1 && x2.s0 == s1 && x2.nact == x1.nact
      requires s3 == s2.(c := s2.c.(ins := s3.c.ins)) && |s3.c.ins| == |s2.c.ins| && e.k == e2.k
      requires forall q :: 0 <= q < |s2.c.ins| ==>
        s3.c.ins[q] == s2.c.ins[q]
        || (q in (if op.AND? then x2.fs else x2.ts) && s2.c.ins[q].JMP? && s3.c.ins[q].JMP?)
      requires if op.AND? then e.t == e2.t && IsList(s3.c.ins, e.f, x2.fs + x1.fs)
               else e.f == e2.f && IsList(s3.c.ins, e.t, x2.ts + x1.ts)
      requires IsList(s2.c.ins, jpc, s2.hs)
      ensures ExpOk(S, s3, e, JunctionCtx(op, x1, x2)) && IsList(s3.c.ins, jpc, s2.hs)
    {
      JunctionLists(op, s1, e1, x1, s2, e2, x2);
      ListFrame(s2.c.ins, s3.c.ins, jpc, s2.hs);
      ListFrame(s2.c.ins, s3.c.ins, if op.AND? then e2.t else e2.f, if op.AND? then x2.ts else x2.fs);
      assert x2.ts + [] == x2.ts && x2.fs + [] == x2.fs;
      assert JunctionLinked(S, op, s1, e1, x1, s2, e2, x2, s3, e);
      JunctionDone(S, op, s1, e1, x1, s2, e2, x2, s3, e);
    }

    lemma JunctionLists(op: BinOpr, s1: Snap, e1: ExpDesc, x1: Ctx, s2: Snap, e2: ExpDesc, x2: Ctx)
      requires FirstOk(S, op, s1, e1, x1, x2.base) && (op.AND? || op.OR?)
      requires ExpOk(S, s2, e2, x2) && x2.s0 == s1
      ensures IsList(s2.c.ins, e2.t, x2.ts) && IsList(s2.c.ins, e2.f, x2.fs)
      ensures IsList(s2.c.ins, e1.t, x1.ts) && IsList(s2.c.ins, e1.f, x1.fs)
      ensures Disjoint(x2.fs, x1.fs) && Disjoint(x2.ts, x1.ts) && Disjoint(x2.ts, x2.fs)
      ensures Disjoint(s2.hs, x2.fs) && Disjoint(s2.hs, x2.ts)
      ensures forall j :: j in x2.ts || j in x2.fs ==> j in s2.c.open
      ensures forall j :: j in x1.ts || j in x1.fs ==> j !in x2.ts && j !in x2.fs
    {
      JunctionExits(s1, e1.t, e1.f, x1, s2, e2, x2);
      forall j | j in x1.ts || j in x1.fs ensures j < |s2.c.ins| && s2.c.ins[j] == s1.c.ins[j] {
        assert Keeps(s1.c.ins, s2.c.ins, j);
      }
      ListFrame(s1.c.ins, s2.c.ins, e1.t, x1.ts);
      ListFrame(s1.c.ins, s2.c.ins, e1.f, x1.fs);
    }

    /** Folds two numerals. */
    lemma FoldedBinary(op: BinOpr, s1: Snap, e1: ExpDesc, x1: Ctx, s2: Snap, e2: ExpDesc, x2: Ctx, res: Kind)
      requires FirstOk(S, op, s1, e1, x1, x2.base) && IsArith(op)
      requires ExpOk(S, s2, e2, x2) && x2.ts == [] && x2.fs == [] && x2.w == -1 && x2.s0 == s1 && x2.nact == x1.nact
      requires ConstFolding(op, e1, e2) == Some(res)
      ensures ExpOk(S, s2, NoExits(res), x1.(x := Bin(op, x1.x, x2.x)))
    {
      var x3, e3 := x1.(x := Bin(op, x1.x, x2.x)), NoExits(res);
      OperandReady(S, op, s1, e1, x1, x2.base, s2, x2.base);
      BinaryReady(S, op, s1, e1, x1, s2, e2, x2, s2, e1, x2.base, MainOf(S, s2.c, e3));
      assert Core(s2.c, e3) == s2.c;
    }

    /** Arithmetic, folding two numerals. */
    method CodeArith(op: BinOpr, e1: ExpDesc, e2: ExpDesc, ghost s1: Snap, ghost x1: Ctx, ghost x2: Ctx)
      returns (st: Status, e: ExpDesc)
      requires SecondOk(op, s1, e1, x1, e2, x2) && IsArith(op)
      modifies `code, `k, `kcache, `jpc, `hs, `open, `lasttarget, `freereg, `maxstacksize
      ensures st.Pass? ==>
                && e == NoExits(e.k) && Exp(e, x1.(x := Bin(op, x1.x, x2.x))) && Regs(e, x1.base) && KTrue(e)
      ensures st.SyntaxError? ==> AtLimit()
    {
      var res := ConstFolding(op, e1, e2);
      if res.Some? {
        FirstRegs(op, s1, e1, x1, x2.base);
        HeadsDiffer(code, e2.t, x2.ts, e2.f, x2.fs);
        FoldedBinary(op, s1, e1, x1, Now(), e2, x2, res.value);
        return Pass, NoExits(res.value);
      }
      st, e := CodeBinExpVal(op, e1, e2, s1, x1, x2);
    }

    /** Finishes a binary operator after its second operand has been read. */
    method Posfix(op: BinOpr, e1: ExpDesc, e2: ExpDesc, ghost s1: Snap, ghost x1: Ctx, ghost x2: Ctx)
      returns (st: Status, e: ExpDesc, ghost x3: Ctx)
      requires SecondOk(op, s1, e1, x1, e2, x2) && KTrue(e2)
      modifies `code, `k, `kcache, `jpc, `hs, `open, `lasttarget, `freereg, `maxstacksize
      ensures st.Pass? ==>
                && x3 == x1.(x := Bin(op, x1.x, x2.x), ts := x3.ts, fs := x3.fs)
                && Exp(e, x3) && Regs(e, x1.base) && KTrue(e)
      ensures st.SyntaxError? ==> AtLimit()
    {
      x3 := x1.(x := Bin(op, x1.x, x2.x));
      if op.AND? || op.OR? {
        st, e := CodeJunction(op, e1, e2, s1, x1, x2);
        x3 := JunctionCtx(op, x1, x2);
      } else if op.CONCAT? {
        st, e := CodeConcat(e1, e2, s1, x1, x2);
      } else if IsComparison(op) {
        st, e := CodeComp(op, e1, e2, s1, x1, x2);
      } else {
        st, e := CodeArith(op, e1, e2, s1, x1, x2);
      }
    }
  }

  /** The last instruction, a LOADNIL whose range connects, now covers `from` .. `l` too. */
  ghost predicate NilMerged(s: Snap, from: int, l: int, s2: Snap) {
    && |s.c.ins| > 0
    && var p := s.c.ins[|s.c.ins| - 1];
    && p.LOADNIL? && NilRangesConnect(p.A, p.A + p.B, from, l)
    && var first, last := Least(p.A, from), Greatest(p.A + p.B, l);
       s2 == s.(c := s.c.(ins := s.c.ins[|s.c.ins| - 1 := LOADNIL(first, last - first)]))
  }

  function Inverted(i: Instr): Instr
    requires i.COMPARE?
  {
    COMPARE(i.op, if i.A == 0 then 1 else 0, i.B, i.C)
  }

  function Least(a: int, b: int): int { if a < b then a else b }
  function Greatest(a: int, b: int): int { if a > b then a else b }
}
