/** The grammar of expressions, one level of precedence after the other (section 3.4.8 of
    the Lua 5.3 manual), and that the priority-climbing parser reads this grammar. */
module ExprGrammar {
  import opened Prelude
  import opened LuaSyntax
  import opened PriorityParser

  // ----- the grammar

  const OR_LEVEL: nat := 0
  const CONCAT_LEVEL: nat := 7
  const UNARY_LEVEL: nat := 10
  const POWER_LEVEL: nat := 11
  const SIMPLE_LEVEL: nat := 12

  /** The binary operators of a level, from the loosest to the tightest. */
  predicate Operator(level: nat, t: Token, op: BinOpr) {
    match level
    case 0 => t.TkOr? && op == OR
    case 1 => t.TkAnd? && op == AND
    case 2 =>
      || (t.TkLt? && op == LT) || (t.TkGt? && op == GT) || (t.TkLe? && op == LE)
      || (t.TkGe? && op == GE) || (t.TkNe? && op == NE) || (t.TkEq? && op == EQ)
    case 3 => t.TkBar? && op == BOR
    case 4 => t.TkTilde? && op == BXOR
    case 5 => t.TkAmp? && op == BAND
    case 6 => (t.TkShl? && op == SHL) || (t.TkShr? && op == SHR)
    case 7 => t.TkConcat? && op == CONCAT
    case 8 => (t.TkPlus? && op == ADD) || (t.TkMinus? && op == SUB)
    case 9 =>
      || (t.TkStar? && op == MUL) || (t.TkSlash? && op == DIV)
      || (t.TkIDiv? && op == IDIV) || (t.TkPercent? && op == MOD)
    case 11 => t.TkCaret? && op == POW
    case _ => false
  }

  predicate Unary(t: Token, op: UnOpr) {
    (t.TkNot? && op == NOT) || (t.TkHash? && op == LEN) || (t.TkMinus? && op == MINUS) || (t.TkTilde? && op == BNOT)
  }

  /** The tokens are an expression of this level, and `x` is its tree. */
  predicate Derives(level: nat, ts: seq<Token>, x: Expr)
    requires level <= SIMPLE_LEVEL
    decreases |ts|, SIMPLE_LEVEL - level
  {
    if level == SIMPLE_LEVEL then
      || (|ts| == 1 && ts[0].TkConst? && x == Const(ts[0].v))
      || (|ts| == 1 && ts[0].TkLocal? && x == Local(ts[0].reg))
      || (|ts| == 1 && ts[0].TkUpval? && x == Upval(ts[0].idx))
      || (|ts| > 2 && ts[0].TkLParen? && ts[|ts| - 1].TkRParen? && Derives(OR_LEVEL, ts[1..|ts| - 1], x))
    else
      || Derives(level + 1, ts, x)
      || (if level == UNARY_LEVEL then
            x.Un? && ts != [] && Unary(ts[0], x.uop) && Derives(UNARY_LEVEL, ts[1..], x.arg)
          else
            x.Bin? && exists i :: 0 < i < |ts| && Operator(level, ts[i], x.op)
                               && Derives(LeftLevel(level), ts[..i], x.left)
                               && Derives(RightLevel(level), ts[i + 1..], x.right))
  }

  /** All binary operators but `..` and `^` are left associative. */
  function LeftLevel(level: nat): (r: nat)
    requires level < SIMPLE_LEVEL
    ensures r <= SIMPLE_LEVEL
  {
    if level == CONCAT_LEVEL || level == POWER_LEVEL then level + 1 else level
  }

  /** The exponent may be a unary expression, and so another power. */
  function RightLevel(level: nat): (r: nat)
    requires level < SIMPLE_LEVEL
    ensures r <= SIMPLE_LEVEL
  {
    if level == CONCAT_LEVEL then CONCAT_LEVEL else if level == POWER_LEVEL then UNARY_LEVEL else level + 1
  }

  /** The tokens are one whole expression with tree `x`. */
  predicate Expression(ts: seq<Token>, x: Expr) { Derives(OR_LEVEL, ts, x) }

  // ----- levels and priorities

  /** An operator of at most this priority ends an expression of the level. */
  function Limit(level: nat): nat {
    if level <= 6 then level + 1
    else match level
      case 7 => 8 case 8 => 10 case 9 => 11 case 10 => 12 case 11 => 12
      case _ => 14
  }

  /** The lowest priority of an operator of the level or a tighter one. */
  function Least(level: nat): nat {
    if level <= 6 then level + 1
    else match level
      case 7 => 9 case 8 => 10 case 9 => 11 case 10 => 14 case 11 => 14
      case _ => 15
  }

  /** The level of what is read up to an operator of at most priority `limit`. */
  function LevelFor(limit: nat): nat {
    if limit <= 7 then limit else if limit == 8 then 7 else if limit == 9 then 8
    else if limit == 10 then 9 else UNARY_LEVEL
  }

  function LevelOf(op: BinOpr): nat {
    match op
    case OR => 0 case AND => 1
    case EQ => 2 case NE => 2 case LT => 2 case LE => 2 case GT => 2 case GE => 2
    case BOR => 3 case BXOR => 4 case BAND => 5 case SHL => 6 case SHR => 6
    case CONCAT => 7 case ADD => 8 case SUB => 8
    case MUL => 9 case DIV => 9 case IDIV => 9 case MOD => 9
    case POW => 11
  }

  lemma OperatorLevel(level: nat, t: Token, op: BinOpr)
    ensures Operator(level, t, op) <==> GetBinOpr(t) == Some(op) && level == LevelOf(op)
    ensures GetBinOpr(t) == Some(op) ==> t == BinToken(op) && !ContinuesPrimary([t]) && !t.TkLParen?
  {
  }

  lemma Priorities(op: BinOpr)
    ensures var l := LevelOf(op);
      && LeftPriority(op) == Least(l) && LevelFor(RightPriority(op)) == RightLevel(l)
      && RightPriority(op) < Least(RightLevel(l)) && Limit(l) <= RightPriority(op) <= 13
      && LeftPriority(op) <= Limit(LeftLevel(l))
    ensures forall other: BinOpr :: LeftPriority(other) <= RightPriority(op) <==> LeftPriority(other) <= Limit(LevelOf(op))
    ensures forall j: nat :: LeftPriority(op) <= Limit(j) ==> LeftLevel(LevelOf(op)) <= j
    ensures forall limit: nat :: LeftPriority(op) > limit ==> LevelFor(limit) <= LevelOf(op)
  {
  }

  lemma Levels(level: nat)
    requires level < SIMPLE_LEVEL
    ensures Least(level) <= Least(level + 1) && Limit(level) <= Limit(level + 1)
  {
  }

  // ----- what the grammar derives is parsed

  /** No operator above the priority follows, and nothing that makes a call of a name. */
  lemma OperatorFollows(t: Token, op: BinOpr, ts: seq<Token>, level: nat)
    requires GetBinOpr(t) == Some(op) && LeftPriority(op) <= Limit(level)
    ensures Follows([t] + ts, Limit(level))
  {
    OperatorLevel(LevelOf(op), t, op);
  }

  lemma LoopEnds(x: Expr, rest: seq<Token>, limit: nat)
    requires Follows(rest, limit)
    ensures ParseLoop(x, rest, limit) == Some(Parsed(x, rest))
  {
  }

  lemma {:induction false} Complete(level: nat, ts: seq<Token>, x: Expr, rest: seq<Token>, limit: nat)
    requires level <= SIMPLE_LEVEL && Derives(level, ts, x) && limit < Least(level) && Follows(rest, Limit(level))
    ensures ParseSub(ts + rest, limit) == ParseLoop(x, rest, limit)
    decreases |ts|, SIMPLE_LEVEL - level + 1
  {
    if level == SIMPLE_LEVEL {
      CompleteSimple(ts, x, rest, limit);
    } else if Derives(level + 1, ts, x) {
      Levels(level);
      Complete(level + 1, ts, x, rest, limit);
    } else if level == UNARY_LEVEL {
      CompleteUnary(ts, x, rest, limit);
    } else {
      var i :| 0 < i < |ts| && Operator(level, ts[i], x.op) && Derives(LeftLevel(level), ts[..i], x.left)
                            && Derives(RightLevel(level), ts[i + 1..], x.right);
      CompleteBinary(level, ts, i, x, rest, limit);
    }
  }

  lemma {:induction false} CompleteSimple(ts: seq<Token>, x: Expr, rest: seq<Token>, limit: nat)
    requires Derives(SIMPLE_LEVEL, ts, x) && Follows(rest, Limit(SIMPLE_LEVEL))
    ensures ParseSub(ts + rest, limit) == ParseLoop(x, rest, limit)
    decreases |ts|, 0
  {
    var all := ts + rest;
    if ts[0].TkLParen? {
      var inner, tail := ts[1..|ts| - 1], [TkRParen] + rest;
      assert all[1..] == inner + tail;
      Complete(OR_LEVEL, inner, x, tail, 0);
      LoopEnds(x, tail, 0);
      assert tail[1..] == rest;
      assert ParseSimple(all) == Some(Parsed(x, rest));
    } else {
      assert all[1..] == rest;
    }
  }

  lemma {:induction false} CompleteUnary(ts: seq<Token>, x: Expr, rest: seq<Token>, limit: nat)
    requires x.Un? && ts != [] && Unary(ts[0], x.uop) && Derives(UNARY_LEVEL, ts[1..], x.arg)
    requires Follows(rest, Limit(UNARY_LEVEL))
    ensures ParseSub(ts + rest, limit) == ParseLoop(x, rest, limit)
    decreases |ts|, 0
  {
    assert ts + rest == [UnToken(x.uop)] + (ts[1..] + rest);
    SubUnary(x.uop, ts[1..] + rest, limit);
    Complete(UNARY_LEVEL, ts[1..], x.arg, rest, UNARY_PRIORITY);
    LoopEnds(x.arg, rest, UNARY_PRIORITY);
  }

  lemma {:induction false} CompleteBinary(level: nat, ts: seq<Token>, i: nat, x: Expr, rest: seq<Token>, limit: nat)
    requires level < SIMPLE_LEVEL && level != UNARY_LEVEL && x.Bin? && 0 < i < |ts|
    requires Operator(level, ts[i], x.op)
    requires Derives(LeftLevel(level), ts[..i], x.left) && Derives(RightLevel(level), ts[i + 1..], x.right)
    requires limit < Least(level) && Follows(rest, Limit(level))
    ensures ParseSub(ts + rest, limit) == ParseLoop(x, rest, limit)
    decreases |ts|, 0
  {
    var op, right := x.op, ts[i + 1..] + rest;
    OperatorLevel(level, ts[i], op);
    Priorities(op);
    assert ts + rest == ts[..i] + ([ts[i]] + right);
    if LeftLevel(level) > level { Levels(level); }
    OperatorFollows(ts[i], op, right, LeftLevel(level));
    Complete(LeftLevel(level), ts[..i], x.left, [ts[i]] + right, limit);
    LoopStep(x.left, op, right, limit);
    RightFollows(level, op, rest);
    Complete(RightLevel(level), ts[i + 1..], x.right, rest, RightPriority(op));
    LoopEnds(x.right, rest, RightPriority(op));
  }

  lemma RightFollows(level: nat, op: BinOpr, rest: seq<Token>)
    requires level == LevelOf(op) && Follows(rest, Limit(level))
    ensures Follows(rest, Limit(RightLevel(level))) && Follows(rest, RightPriority(op))
  {
    Priorities(op);
    if level != CONCAT_LEVEL && level != POWER_LEVEL { Levels(level); }
  }

  // ----- what is parsed is derived by the grammar

  lemma {:induction false} Loosened(level: nat, looser: nat, ts: seq<Token>, x: Expr)
    requires looser <= level <= SIMPLE_LEVEL && Derives(level, ts, x)
    ensures Derives(looser, ts, x)
    decreases level
  {
    if looser < level { Loosened(level - 1, looser, ts, x); }
  }

  /** `p` was read from `ts` as an expression that ends before an operator above `limit`. */
  ghost predicate Sound(ts: seq<Token>, p: Parsed, level: nat, limit: nat)
    requires level <= SIMPLE_LEVEL
  {
    var n := |ts| - |p.rest|;
    && 0 <= n && ts[n..] == p.rest && Derives(level, ts[..n], p.x)
    && (NextOp(p.rest).Some? ==> LeftPriority(NextOp(p.rest).value) <= limit)
  }

  lemma {:induction false} SubSound(ts: seq<Token>, limit: nat)
    requires limit <= 13 && ParseSub(ts, limit).Some?
    ensures Sound(ts, ParseSub(ts, limit).value, LevelFor(limit), limit)
    decreases |ts|, 2
  {
    var u := GetUnOpr(ts[0]);
    if u.Some? {
      SubSound(ts[1..], UNARY_PRIORITY);
      var p := ParseSub(ts[1..], UNARY_PRIORITY).value;
      var n := |ts| - |p.rest|;
      assert ts[..n][1..] == ts[1..][..n - 1] && ts[1..][n - 1..] == ts[n..];
      assert Derives(UNARY_LEVEL, ts[..n], Un(u.value, p.x));
      LoopSound(ts, n, Un(u.value, p.x), limit, UNARY_LEVEL);
    } else {
      SimpleSound(ts);
      var p := ParseSimple(ts).value;
      LoopSound(ts, |ts| - |p.rest|, p.x, limit, SIMPLE_LEVEL);
    }
  }

  lemma {:induction false} SimpleSound(ts: seq<Token>)
    requires ParseSimple(ts).Some?
    ensures Sound(ts, ParseSimple(ts).value, SIMPLE_LEVEL, Limit(SIMPLE_LEVEL))
    decreases |ts|, 0
  {
    if ts[0].TkLParen? {
      SubSound(ts[1..], 0);
      PrefixInside(ts, ParseSub(ts[1..], 0).value, OR_LEVEL);
    }
  }

  lemma PrefixInside(ts: seq<Token>, p: Parsed, level: nat)
    requires level == OR_LEVEL && ts != [] && ts[0].TkLParen? && |p.rest| < |ts| - 1
    requires Sound(ts[1..], p, level, 0) && p.rest != [] && p.rest[0].TkRParen?
    ensures Sound(ts, Parsed(p.x, p.rest[1..]), SIMPLE_LEVEL, Limit(SIMPLE_LEVEL))
  {
    var n := |ts| - |p.rest|;
    var e := ts[..n + 1];
    assert p.rest == ts[n..] && p.rest[1..] == ts[n + 1..];
    assert e[1..|e| - 1] == ts[1..][..n - 1] && e[|e| - 1] == p.rest[0];
  }

  /** With `x` read from the first `i` tokens, at a level that no operator to come can
      take an operand from. */
  lemma {:induction false} LoopSound(ts: seq<Token>, i: nat, x: Expr, limit: nat, level: nat)
    requires limit <= 13 && 0 < i <= |ts| && LevelFor(limit) <= level <= SIMPLE_LEVEL && Derives(level, ts[..i], x)
    requires NextOp(ts[i..]).Some? ==> LeftPriority(NextOp(ts[i..]).value) <= Limit(level)
    requires ParseLoop(x, ts[i..], limit).Some?
    ensures Sound(ts, ParseLoop(x, ts[i..], limit).value, LevelFor(limit), limit)
    decreases |ts| - i, 1
  {
    var op := NextOp(ts[i..]);
    if op.None? || LeftPriority(op.value) <= limit {
      Loosened(level, LevelFor(limit), ts[..i], x);
    } else {
      var n, y := RightSound(ts, i, op.value);
      var l := LevelOf(op.value);
      Priorities(op.value);
      Loosened(level, LeftLevel(l), ts[..i], x);
      assert ts[..n][..i] == ts[..i] && ts[..n][i + 1..] == ts[i + 1..n];
      BinaryDerived(ts[..n], i, l, op.value, x, y);
      LoopSound(ts, n, Bin(op.value, x, y), limit, l);
    }
  }

  lemma BinaryDerived(ts: seq<Token>, i: nat, level: nat, op: BinOpr, x: Expr, y: Expr)
    requires level < SIMPLE_LEVEL && level != UNARY_LEVEL && 0 < i < |ts| && Operator(level, ts[i], op)
    requires Derives(LeftLevel(level), ts[..i], x) && Derives(RightLevel(level), ts[i + 1..], y)
    ensures Derives(level, ts, Bin(op, x, y))
  {
  }

  /** The right operand of the operator at `i` ends at `n`. */
  lemma {:induction false} RightSound(ts: seq<Token>, i: nat, op: BinOpr) returns (n: nat, y: Expr)
    requires i < |ts| && NextOp(ts[i..]) == Some(op) && ParseSub(ts[i..][1..], RightPriority(op)).Some?
    ensures i < n <= |ts| && Operator(LevelOf(op), ts[i], op) && Derives(RightLevel(LevelOf(op)), ts[i + 1..n], y)
    ensures ParseSub(ts[i..][1..], RightPriority(op)) == Some(Parsed(y, ts[n..]))
    ensures NextOp(ts[n..]).Some? ==> LeftPriority(NextOp(ts[n..]).value) <= Limit(LevelOf(op))
    decreases |ts| - i, 0
  {
    var right := ts[i + 1..];
    assert ts[i..][1..] == right;
    Priorities(op);
    OperatorLevel(LevelOf(op), ts[i], op);
    SubSound(right, RightPriority(op));
    var p := ParseSub(right, RightPriority(op)).value;
    n, y := |ts| - |p.rest|, p.x;
    assert right[..n - i - 1] == ts[i + 1..n] && right[n - i - 1..] == ts[n..];
  }

  // ----- the two agree

  /** Whatever follows, what was read is an expression of the grammar. */
  lemma ParsedDerives(ts: seq<Token>, x: Expr, rest: seq<Token>)
    requires ParseSub(ts, 0) == Some(Parsed(x, rest))
    ensures |rest| < |ts| && ts == ts[..|ts| - |rest|] + rest && Expression(ts[..|ts| - |rest|], x)
  {
    SubSound(ts, 0);
    PrefixRead(ts, Parsed(x, rest), LevelFor(0), 0);
  }

  lemma PrefixRead(ts: seq<Token>, p: Parsed, level: nat, limit: nat)
    requires level <= SIMPLE_LEVEL && Sound(ts, p, level, limit)
    ensures ts == ts[..|ts| - |p.rest|] + p.rest && Derives(level, ts[..|ts| - |p.rest|], p.x)
  {
  }

  /** The parser reads an expression with tree `x` up to tokens that cannot continue it
      exactly when the grammar says that it is one. */
  lemma ParsesGrammar(ts: seq<Token>, rest: seq<Token>, x: Expr)
    requires NextOp(rest).None? && !ContinuesPrimary(rest)
    ensures ParseSub(ts + rest, 0) == Some(Parsed(x, rest)) <==> Expression(ts, x)
  {
    if Expression(ts, x) {
      Complete(OR_LEVEL, ts, x, rest, 0);
    }
    if ParseSub(ts + rest, 0) == Some(Parsed(x, rest)) {
      ParsedDerives(ts + rest, x, rest);
      assert (ts + rest)[..|ts|] == ts;
    }
  }

  /** No tokens have two trees. */
  lemma Unambiguous(ts: seq<Token>, x: Expr, y: Expr)
    requires Expression(ts, x) && Expression(ts, y)
    ensures x == y
  {
    ParsesGrammar(ts, [], x);
    ParsesGrammar(ts, [], y);
  }

  /** The printed form of a tree is an expression with that tree. */
  lemma PrintedExpression(x: Expr)
    ensures Expression(Print(x), x)
  {
    ParsePrintRoundTrip(x);
    ParsesGrammar(Print(x), [], x);
    assert Print(x) + [] == Print(x);
  }
}
