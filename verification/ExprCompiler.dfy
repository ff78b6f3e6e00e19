/** The expression parser driving the code generator, and what the machine does with
    the code of a block of local declarations. */
module ExprCompiler {
  import opened Prelude
  import opened LuaSyntax
  import opened LuaVm
  import opened JumpLists
  import opened ExprSpec
  import opened ExprLemmas
  import opened CodeGen
  import opened PriorityParser
  import opened ExprGrammar

  class LexState {
    const fs: FuncState
    var toks: seq<Token>    // the current token and those after it

    constructor (fs: FuncState, toks: seq<Token>)
      ensures this.fs == fs && this.toks == toks
    {
      this.fs := fs;
      this.toks := toks;
    }

    /** Every local named is active, and every upvalue is among those a function may have. */
    ghost predicate Resolved()
      reads this, fs
    {
      forall t :: t in toks ==> Named(t, fs.nactvar)
    }

    /** Expression `x.x` was read from `before`, and `e` describes its code. */
    ghost predicate Read(p: Option<Parsed>, e: ExpDesc, x: Ctx)
      reads this, fs
    {
      && fs.Exp(e, x) && fs.Regs(e, x.base) && fs.KTrue(e)
      && x.w == -1 && x.nact == fs.nactvar
      && p == Some(Parsed(x.x, toks))
      && Resolved()
    }

    method Next()
      requires toks != [] && Resolved()
      modifies `toks
      ensures toks == old(toks)[1..] && Resolved()
    {
      assert forall t :: t in toks[1..] ==> t in toks;
      toks := toks[1..];
    }

    /** A constant, a local or an upvalue. */
    method Atom(t: Token, ghost x: Ctx) returns (st: Status, e: ExpDesc)
      requires fs.Valid() && (t.TkConst? || t.TkLocal? || t.TkUpval?)
      requires Named(t, fs.nactvar)
      requires x == Ctx(fs.Now(), fs.freereg, -1, fs.nactvar, AtomTree(t), [], [])
      modifies fs`k, fs`kcache
      ensures st.Pass? ==> fs.Exp(e, x) && fs.Regs(e, x.base) && fs.KTrue(e)
      ensures st.SyntaxError? ==> fs.AtLimit()
    {
      e := NoExits(VNIL);
      match t {
        case TkConst(v) =>
          match v {
            case Nil => e := NoExits(VNIL);
            case Bool(b) => e := NoExits(if b then VTRUE else VFALSE);
            case Int(i) => e := NoExits(VKINT(i));
            case Flt(f) => e := NoExits(VKFLT(f));
            case Str(_) =>
              var idx :- fs.AddK(v);
              e := NoExits(VK(idx));
          }
        case TkLocal(r) => e := NoExits(VLOCAL(r));
        case TkUpval(i) => e := NoExits(VUPVAL(i));
      }
      GrowOk(x.s0, fs.k);
      Fresh(fs.S, fs.Now(), e, x);
      st := Pass;
    }

    method SimpleExp() returns (st: Status, e: ExpDesc, ghost x: Ctx)
      requires fs.Valid() && Resolved()
      modifies fs`code, fs`k, fs`kcache, fs`jpc, fs`hs, fs`open, fs`lasttarget, fs`freereg, fs`maxstacksize, `toks
      ensures st.Pass? ==>
                && x.s0 == old(fs.Now()) && x.base == old(fs.freereg)
                && Read(ParseSimple(old(toks)), e, x)
      ensures st.SyntaxError? ==> fs.AtLimit() || ParseSimple(old(toks)).None?
      decreases |toks|, 1
    {
      e := NoExits(VNIL);
      x := Ctx(fs.Now(), fs.freereg, -1, fs.nactvar, Const(Nil), [], []);
      if toks == [] {
        return SyntaxError("unexpected symbol"), e, x;
      }
      var t := toks[0];
      if t.TkLParen? {
        st, e, x := Parenthesized();
      } else if t.TkConst? || t.TkLocal? || t.TkUpval? {
        st, e, x := AtomExp();
      } else {
        return SyntaxError("unexpected symbol"), e, x;
      }
      if st.Pass? && !t.TkConst? && ContinuesPrimary(toks) {
        st := SyntaxError("calls and indexing are not covered");
      }
    }

    method AtomExp() returns (st: Status, e: ExpDesc, ghost x: Ctx)
      requires fs.Valid() && Resolved() && toks != []
      requires toks[0].TkConst? || toks[0].TkLocal? || toks[0].TkUpval?
      modifies fs`k, fs`kcache, `toks
      ensures toks == if st.Pass? then old(toks)[1..] else old(toks)
      ensures st.Pass? ==>
                && x.s0 == old(fs.Now()) && x.base == old(fs.freereg)
                && Read(Some(Parsed(AtomTree(old(toks)[0]), toks)), e, x)
      ensures st.SyntaxError? ==> fs.AtLimit()
    {
      x := Ctx(fs.Now(), fs.freereg, -1, fs.nactvar, AtomTree(toks[0]), [], []);
      st, e := Atom(toks[0], x);
      if st.Pass? {
        Next();
      }
    }

    /** '(' expr ')' */
    method Parenthesized() returns (st: Status, e: ExpDesc, ghost x: Ctx)
      requires fs.Valid() && Resolved() && toks != [] && toks[0].TkLParen?
      modifies fs`code, fs`k, fs`kcache, fs`jpc, fs`hs, fs`open, fs`lasttarget, fs`freereg, fs`maxstacksize, `toks
      ensures st.Pass? ==>
                && x.s0 == old(fs.Now()) && x.base == old(fs.freereg)
                && Read(Some(Parsed(x.x, toks)), e, x)
                && ParseSimple(old(toks)) == if ContinuesPrimary(toks) then None else Some(Parsed(x.x, toks))
      ensures st.SyntaxError? ==> fs.AtLimit() || ParseSimple(old(toks)).None?
      decreases |toks|, 0
    {
      Next();
      st, e, x := Subexpr(0);
      if st.Pass? {
        st, e := RightParen(e, x);
      }
    }

    method RightParen(e0: ExpDesc, ghost x: Ctx) returns (st: Status, e: ExpDesc)
      requires Read(Some(Parsed(x.x, toks)), e0, x)
      modifies fs`code, fs`jpc, fs`hs, fs`open, `toks
      ensures st.Pass? ==>
                && old(toks) != [] && old(toks)[0].TkRParen? && toks == old(toks)[1..]
                && Read(Some(Parsed(x.x, toks)), e, x)
      ensures st.SyntaxError? ==> fs.AtLimit() || old(toks) == [] || !old(toks)[0].TkRParen?
    {
      if toks == [] || !toks[0].TkRParen? {
        return SyntaxError("')' expected"), e0;
      }
      Next();
      st, e := fs.DischargeVars(e0, x);
    }

    /** An operand followed by every binary operator of priority above `limit`. */
    method Subexpr(limit: nat) returns (st: Status, e: ExpDesc, ghost x: Ctx)
      requires fs.Valid() && Resolved()
      modifies fs`code, fs`k, fs`kcache, fs`jpc, fs`hs, fs`open, fs`lasttarget, fs`freereg, fs`maxstacksize, `toks
      ensures st.Pass? ==>
                && x.s0 == old(fs.Now()) && x.base == old(fs.freereg)
                && Read(ParseSub(old(toks), limit), e, x)
      ensures st.SyntaxError? ==> fs.AtLimit() || ParseSub(old(toks), limit).None?
      decreases |toks|, 3
    {
      st, e, x := Operand(limit);
      if st.SyntaxError? { return; }
      var op := NextOp(toks);
      while op.Some? && LeftPriority(op.value) > limit
        invariant st.Pass? && x.s0 == old(fs.Now()) && x.base == old(fs.freereg)
        invariant Read(Some(Parsed(x.x, toks)), e, x)
        invariant ParseSub(old(toks), limit) == ParseLoop(x.x, toks, limit)
        invariant op == NextOp(toks) && |toks| < |old(toks)|
        decreases |toks|
      {
        st, e, x := BinaryStep(op.value, e, x, limit);
        if st.SyntaxError? { return; }
        op := NextOp(toks);
      }
    }

    /** The operand an expression starts with: a simple one or a unary operator's. */
    method Operand(limit: nat) returns (st: Status, e: ExpDesc, ghost x: Ctx)
      requires fs.Valid() && Resolved()
      modifies fs`code, fs`k, fs`kcache, fs`jpc, fs`hs, fs`open, fs`lasttarget, fs`freereg, fs`maxstacksize, `toks
      ensures st.Pass? ==>
                && x.s0 == old(fs.Now()) && x.base == old(fs.freereg)
                && Read(Some(Parsed(x.x, toks)), e, x) && |toks| < |old(toks)|
                && ParseSub(old(toks), limit) == ParseLoop(x.x, toks, limit)
      ensures st.SyntaxError? ==> fs.AtLimit() || ParseSub(old(toks), limit).None?
      decreases |toks|, 2
    {
      e := NoExits(VNIL);
      x := Ctx(fs.Now(), fs.freereg, -1, fs.nactvar, Const(Nil), [], []);
      if toks == [] {
        return SyntaxError("unexpected symbol"), e, x;
      }
      var uop := GetUnOpr(toks[0]);
      if uop.Some? {
        Next();
        st, e, x := Subexpr(UNARY_PRIORITY);
        if st.SyntaxError? { return; }
        st, e, x := fs.Prefix(uop.value, e, x);
      } else {
        st, e, x := SimpleExp();
      }
    }

    /** One more binary operator and its right operand. */
    method BinaryStep(op: BinOpr, e0: ExpDesc, ghost x0: Ctx, limit: nat) returns (st: Status, e: ExpDesc, ghost x: Ctx)
      requires Read(Some(Parsed(x0.x, toks)), e0, x0)
      requires NextOp(toks) == Some(op) && LeftPriority(op) > limit
      modifies fs`code, fs`k, fs`kcache, fs`jpc, fs`hs, fs`open, fs`lasttarget, fs`freereg, fs`maxstacksize, `toks
      ensures st.Pass? ==>
                && x.s0 == x0.s0 && x.base == x0.base
                && Read(Some(Parsed(x.x, toks)), e, x) && |toks| < |old(toks)|
                && ParseLoop(x0.x, old(toks), limit) == ParseLoop(x.x, toks, limit)
      ensures st.SyntaxError? ==> fs.AtLimit() || ParseLoop(x0.x, old(toks), limit).None?
      decreases |toks|, 0
    {
      x := x0;
      Next();
      ghost var x1;
      st, e, x1 := fs.Infix(op, e0, x0);
      if st.SyntaxError? { return; }
      ghost var s1 := fs.Now();
      var e2;
      ghost var x2;
      st, e2, x2 := Subexpr(RightPriority(op));
      if st.SyntaxError? { return; }
      st, e, x := fs.Posfix(op, e, e2, s1, x1, x2);
    }

    // ----- blocks of local declarations

    /** `local name = expr`: the value goes to the next register, which becomes a local. */
    method LocalStat(decl: seq<Token>, ghost vals: seq<Value>) returns (st: Status, ghost tree: Expr)
      requires fs.Valid() && fs.freereg == fs.nactvar == |vals| && Delivers(fs.S, fs.Now(), vals)
      requires forall t :: t in decl ==> Named(t, |vals|)
      modifies fs, this
      ensures st.Pass? ==>
                && Expression(decl, tree)
                && fs.Valid() && fs.freereg == fs.nactvar == |vals| + 1
                && Delivers(fs.S, fs.Now(), vals + [Eval(fs.S, tree, RegsOf(vals))])
      ensures st.SyntaxError? ==> fs.AtLimit() || !IsExpr(decl)
    {
      tree := Const(Nil);
      toks := decl;
      var e;
      ghost var x;
      st, e, x := Subexpr(0);
      WholeExpression(decl);
      if st.SyntaxError? { return; }
      tree := x.x;
      if toks != [] {
        return SyntaxError("unexpected symbol near expression"), tree;
      }
      e :- fs.Exp2nextreg(e, x);
      Deliver(fs.S, vals, fs.Now(), x.(ts := [], fs := []));
      fs.nactvar := fs.nactvar + 1;
      st := Pass;
    }

    /** Compiles a block of local declarations and the final return.  Started with any
        registers, the code runs to the return with every local holding its value. */
    method Block(decls: seq<seq<Token>>) returns (st: Status, ghost trees: seq<Expr>)
      requires fs.Valid() && fs.code == [] && fs.open == {} && fs.hs == [] && fs.freereg == fs.nactvar == 0
      requires forall i :: 0 <= i < |decls| ==> forall t :: t in decls[i] ==> Named(t, i)
      modifies fs, this
      ensures st.Pass? ==>
                && |trees| == |decls|
                && (forall i :: 0 <= i < |decls| ==> Expression(decls[i], trees[i]))
                && fs.code != [] && fs.code[|fs.code| - 1].RETURN?
                && forall R0 :: ReachesReturn(fs.S, fs.k, fs.code, R0, LocalValues(fs.S, trees))
      ensures st.SyntaxError? ==> fs.AtLimit() || exists i :: 0 <= i < |decls| && !IsExpr(decls[i])
    {
      trees := [];
      DeliversNothing(fs.S, fs.Now());
      for i := 0 to |decls|
        invariant |trees| == i && fs.Valid() && fs.freereg == fs.nactvar == i
        invariant |LocalValues(fs.S, trees)| == i && Delivers(fs.S, fs.Now(), LocalValues(fs.S, trees))
        invariant forall j :: 0 <= j < i ==> Expression(decls[j], trees[j])
      {
        ghost var tree;
        st, tree := LocalStat(decls[i], LocalValues(fs.S, trees));
        if st.SyntaxError? { return; }
        assert (trees + [tree])[..i] == trees;
        trees := trees + [tree];
      }
      st := Return(LocalValues(fs.S, trees));
    }

    /** The final return. */
    method Return(ghost vals: seq<Value>) returns (st: Status)
      requires fs.Valid() && Delivers(fs.S, fs.Now(), vals)
      modifies fs
      ensures st.Pass? ==>
                && fs.code != [] && fs.code[|fs.code| - 1].RETURN?
                && forall R0 :: ReachesReturn(fs.S, fs.k, fs.code, R0, vals)
      ensures st.SyntaxError? ==> fs.AtLimit()
    {
      ghost var s := fs.Now();
      var pc;
      st, pc := fs.PutCode(RETURN(0, 1));
      if st.Pass? {
        forall R0 ensures ReachesReturn(fs.S, fs.k, fs.code, R0, vals) {
          RunToReturn(fs.S, s, vals, R0);
        }
      }
    }
  }

  /** A name stands for one of the first `n` locals or for an upvalue that exists. */
  predicate Named(t: Token, n: int) {
    (t.TkLocal? ==> t.reg < n) && (t.TkUpval? ==> t.idx < MAXUPVAL)
  }

  /** The tokens are one whole expression. */
  ghost predicate IsExpr(toks: seq<Token>) {
    exists x :: Expression(toks, x)
  }

  /** The parser reads all of the tokens exactly if they are. */
  lemma WholeExpression(toks: seq<Token>)
    ensures var p := ParseSub(toks, 0);
      && (IsExpr(toks) <==> p.Some? && p.value.rest == [])
      && (p.Some? && p.value.rest == [] ==> Expression(toks, p.value.x))
  {
    assert toks + [] == toks;
    forall x { ParsesGrammar(toks, [], x); }
  }

  // ----- what the code of a block does

  function RegsOf(vals: seq<Value>): Regs {
    map r: int | 0 <= r < |vals| && Within(0, |vals| - 1, r) :: vals[r]
  }

  /** The values of the locals a block declares, each computed from those before it. */
  function LocalValues(S: Semantics, trees: seq<Expr>): (vals: seq<Value>)
    ensures |vals| == |trees|
  {
    if trees == [] then []
    else
      var before := LocalValues(S, trees[..|trees| - 1]);
      before + [Eval(S, trees[|trees| - 1], RegsOf(before))]
  }

  ghost predicate HoldsLocals(R: Regs, vals: seq<Value>) {
    forall i :: 0 <= i < |vals| ==> Get(R, i) == vals[i]
  }

  ghost predicate DeliversAt(S: Semantics, s: Snap, vals: seq<Value>, R0: Regs) {
    var out := Exec(S, s.c, 0, R0);
    Arrives(out, s.hs) && HoldsLocals(out.R, vals)
  }

  /** Every run of the code arrives at its end with the first registers holding `vals`. */
  ghost predicate Delivers(S: Semantics, s: Snap, vals: seq<Value>) {
    && SnapOk(s)
    && (forall j :: j in s.c.open ==> j in s.hs)
    && forall R0 :: DeliversAt(S, s, vals, R0)
  }

  lemma DeliversNothing(S: Semantics, s: Snap)
    requires SnapOk(s) && s.c.ins == [] && s.c.open == {}
    ensures Delivers(S, s, [])
  {
    forall R0 ensures DeliversAt(S, s, [], R0) { }
  }

  lemma Deliver(S: Semantics, vals: seq<Value>, s2: Snap, x: Ctx)
    requires Delivers(S, x.s0, vals) && x.base == x.nact == |vals| && x.w == -1 && x.ts == [] && x.fs == []
    requires ExpOk(S, s2, NoExits(VNONRELOC(|vals|)), x)
    ensures Delivers(S, s2, vals + [Eval(S, x.x, RegsOf(vals))])
  {
    var e, v := NoExits(VNONRELOC(|vals|)), Eval(S, x.x, RegsOf(vals));
    assert Core(s2.c, e) == s2.c;
    forall R0 ensures DeliversAt(S, s2, vals + [v], R0) {
      assert DeliversAt(S, x.s0, vals, R0);
      assert FlowAt(S, s2.c, s2.hs, MReg(|vals|), x, R0);
      EvalFrame(S, x.x, |vals|, RegsOf(vals), Exec(S, x.s0.c, 0, R0).R);
    }
  }

  /** On the machine: from its first instruction the code gets to its return, its last
      instruction, with the locals in their registers. */
  ghost predicate ReachesReturn(S: Semantics, k: seq<Value>, code: seq<Instr>, R0: Regs, vals: seq<Value>) {
    exists n: nat, R :: Steps(S, k, code, Running(0, R0), n) == Running(|code| - 1, R) && HoldsLocals(R, vals)
  }

  lemma RunToReturn(S: Semantics, s: Snap, vals: seq<Value>, R0: Regs)
    requires Delivers(S, s, vals)
    ensures ReachesReturn(S, s.c.k, DischargedIns(s) + [RETURN(0, 1)], R0, vals)
  {
    var d := Discharged(s);
    DischargedOk(s);
    DischargedExec(S, s, R0);
    assert DeliversAt(S, s, vals, R0);
    assert forall j :: j in s.c.open ==> j in s.hs;
    assert d.c.open == {} by { forall j ensures j !in d.c.open { } }
    var n := Adequacy(S, d.c, d.last, 0, R0);
    StepsExtend(S, d.c.k, d.c.ins, [RETURN(0, 1)], Running(0, R0), n);
  }

  /** The same for printed trees: printing the trees, parsing and compiling them, and
      running the code evaluates them. */
  method CompilePrinted(S: Semantics, trees: seq<Expr>)
    returns (st: Status, code: seq<Encodable>, k: Constants, freereg: int)
    requires forall i :: 0 <= i < |trees| ==> LocalsBelow(trees[i], i) && UpvalsBelow(trees[i], MAXUPVAL)
    ensures st.Pass? ==> code != [] && forall R0 :: ReachesReturn(S, k, code, R0, LocalValues(S, trees))
    ensures st.SyntaxError? ==> |code| > MAXARG_sBx || freereg + 1 >= MAXREGS || |k| >= MAXARG_Ax
  {
    var decls: seq<seq<Token>> := seq(|trees|, i requires 0 <= i < |trees| => Print(trees[i]));
    forall i | 0 <= i < |trees|
      ensures forall t :: t in decls[i] ==> Named(t, i)
    {
      PrintedNames(trees[i], i);
    }
    var fs := new FuncState(S);
    var ls := new LexState(fs, []);
    ghost var read;
    st, read := ls.Block(decls);
    code, k, freereg := fs.code, fs.k, fs.freereg;
    forall i | 0 <= i < |trees| ensures IsExpr(decls[i]) {
      assert decls[i] == Print(trees[i]);
      PrintedExpression(trees[i]);
    }
    if st.Pass? {
      forall i | 0 <= i < |trees| ensures read[i] == trees[i] {
        assert decls[i] == Print(trees[i]);
        PrintedExpression(trees[i]);
        Unambiguous(decls[i], read[i], trees[i]);
      }
      assert read == trees;
    }
  }

  lemma {:induction false} PrintedNames(x: Expr, n: nat)
    requires LocalsBelow(x, n) && UpvalsBelow(x, MAXUPVAL)
    ensures forall t :: t in Print(x) ==> Named(t, n)
    decreases x, 0
  {
    match x
    case Un(u, a) => OperandNames(UNARY_PRIORITY, a, n);
    case Bin(op, a, b) =>
      PrintedNames(a, n);
      OperandNames(RightPriority(op), b, n);
      var l := if LeftNeedsParens(op, a) then Parens(Print(a)) else Print(a);
      assert forall t :: t in l ==> Named(t, n);
      assert Print(x) == l + [BinToken(op)] + PrintOperand(RightPriority(op), b);
    case _ =>
  }

  lemma {:induction false} OperandNames(limit: nat, x: Expr, n: nat)
    requires LocalsBelow(x, n) && UpvalsBelow(x, MAXUPVAL)
    ensures forall t :: t in PrintOperand(limit, x) ==> Named(t, n)
    decreases x, 1
  {
    PrintedNames(x, n);
  }

  function AtomTree(t: Token): Expr {
    match t
    case TkConst(v) => Const(v)
    case TkLocal(r) => Local(r)
    case TkUpval(i) => Upval(i)
    case _ => Const(Nil)
  }
}
