/** Priority climbing as a function on token lists, and its partner: printing a
    tree with the parentheses its priorities require. */
module PriorityParser {
  import opened Prelude
  import opened LuaSyntax

  datatype Token =
    | TkPlus | TkMinus | TkStar | TkPercent | TkCaret | TkSlash | TkIDiv
    | TkAmp | TkBar | TkTilde | TkShl | TkShr | TkConcat
    | TkEq | TkLt | TkLe | TkNe | TkGt | TkGe | TkAnd | TkOr
    | TkNot | TkHash | TkLParen | TkRParen
    | TkConst(v: Value)     // nil, true, false, a numeral or a string
    | TkLocal(reg: nat)     // a name that resolves to a local variable
    | TkUpval(idx: nat)     // a name that resolves to an upvalue
    | TkOther

  function GetUnOpr(t: Token): Option<UnOpr> {
    match t
    case TkNot => Some(NOT)
    case TkMinus => Some(MINUS)
    case TkTilde => Some(BNOT)
    case TkHash => Some(LEN)
    case _ => None
  }

  function GetBinOpr(t: Token): Option<BinOpr> {
    match t
    case TkPlus => Some(ADD) case TkMinus => Some(SUB)
    case TkStar => Some(MUL) case TkPercent => Some(MOD)
    case TkCaret => Some(POW) case TkSlash => Some(DIV)
    case TkIDiv => Some(IDIV) case TkAmp => Some(BAND)
    case TkBar => Some(BOR) case TkTilde => Some(BXOR)
    case TkShl => Some(SHL) case TkShr => Some(SHR)
    case TkConcat => Some(CONCAT) case TkNe => Some(NE)
    case TkEq => Some(EQ) case TkLt => Some(LT)
    case TkLe => Some(LE) case TkGt => Some(GT)
    case TkGe => Some(GE) case TkAnd => Some(AND)
    case TkOr => Some(OR)
    case _ => None
  }

  /** The operator the parser sees next, if any. */
  function NextOp(ts: seq<Token>): Option<BinOpr> {
    if ts == [] then None else GetBinOpr(ts[0])
  }

  /** A token that would continue a primary expression as a call, which is outside
      this model (as are '.', '[', ':' and '{', all of them `TkOther` here). */
  predicate ContinuesPrimary(ts: seq<Token>) {
    ts != [] && (ts[0].TkLParen? || ts[0].TkOther? || (ts[0].TkConst? && ts[0].v.Str?))
  }

  datatype Parsed = Parsed(x: Expr, rest: seq<Token>)

  function ParseSimple(ts: seq<Token>): (p: Option<Parsed>)
    ensures p.Some? ==> |p.value.rest| < |ts|
    decreases |ts|, 0
  {
    if ts == [] then None
    else match ts[0]
      case TkConst(v) => Some(Parsed(Const(v), ts[1..]))
      case TkLocal(r) =>
        if ContinuesPrimary(ts[1..]) then None else Some(Parsed(Local(r), ts[1..]))
      case TkUpval(i) =>
        if ContinuesPrimary(ts[1..]) then None else Some(Parsed(Upval(i), ts[1..]))
      case TkLParen =>
        var p := ParseSub(ts[1..], 0);
        if p.None? || p.value.rest == [] || !p.value.rest[0].TkRParen?
           || ContinuesPrimary(p.value.rest[1..])
        then None
        else Some(Parsed(p.value.x, p.value.rest[1..]))
      case _ => None
  }

  /** An operand followed by every binary operator of priority above `limit`. */
  function ParseSub(ts: seq<Token>, limit: nat): (p: Option<Parsed>)
    ensures p.Some? ==> |p.value.rest| < |ts|
    decreases |ts|, 2
  {
    if ts == [] then None
    else
      var u := GetUnOpr(ts[0]);
      if u.Some? then
        var p := ParseSub(ts[1..], UNARY_PRIORITY);
        if p.None? then None else ParseLoop(Un(u.value, p.value.x), p.value.rest, limit)
      else
        var p := ParseSimple(ts);
        if p.None? then None else ParseLoop(p.value.x, p.value.rest, limit)
  }

  function ParseLoop(x: Expr, ts: seq<Token>, limit: nat): (p: Option<Parsed>)
    ensures p.Some? ==> |p.value.rest| <= |ts|
    decreases |ts|, 1
  {
    var op := NextOp(ts);
    if op.None? || LeftPriority(op.value) <= limit then Some(Parsed(x, ts))
    else
      var p := ParseSub(ts[1..], RightPriority(op.value));
      if p.None? then None
      else ParseLoop(Bin(op.value, x, p.value.x), p.value.rest, limit)
  }

  // ----- printing

  function UnToken(u: UnOpr): Token {
    match u
    case NOT => TkNot case MINUS => TkMinus case BNOT => TkTilde case LEN => TkHash
  }

  function BinToken(op: BinOpr): Token {
    match op
    case ADD => TkPlus case SUB => TkMinus case MUL => TkStar case MOD => TkPercent
    case POW => TkCaret case DIV => TkSlash case IDIV => TkIDiv case BAND => TkAmp
    case BOR => TkBar case BXOR => TkTilde case SHL => TkShl case SHR => TkShr
    case CONCAT => TkConcat case NE => TkNe case EQ => TkEq case LT => TkLt
    case LE => TkLe case GT => TkGt case GE => TkGe case AND => TkAnd case OR => TkOr
  }

  /** `x` must be parenthesized as the left operand of `op`. */
  predicate LeftNeedsParens(op: BinOpr, x: Expr) {
    match x
    case Bin(op1, _, _) => RightPriority(op1) < LeftPriority(op)
    case Un(_, _) => UNARY_PRIORITY < LeftPriority(op)
    case _ => false
  }

  /** `x` must be parenthesized where operators up to priority `limit` stop the operand. */
  predicate OperandNeedsParens(limit: nat, x: Expr) {
    x.Bin? && LeftPriority(x.op) <= limit
  }

  function Parens(ts: seq<Token>): seq<Token> {
    [TkLParen] + ts + [TkRParen]
  }

  /** The printed form of `x` as an operand read with priority limit `limit`. */
  function PrintOperand(limit: nat, x: Expr): seq<Token>
    decreases x, 1
  {
    if OperandNeedsParens(limit, x) then Parens(Print(x)) else Print(x)
  }

  function Print(x: Expr): (ts: seq<Token>)
    decreases x, 0
  {
    match x
    case Const(v) => [TkConst(v)]
    case Local(r) => [TkLocal(r)]
    case Upval(i) => [TkUpval(i)]
    case Un(u, a) =>
      [UnToken(u)] + PrintOperand(UNARY_PRIORITY, a)
    case Bin(op, a, b) =>
      (if LeftNeedsParens(op, a) then Parens(Print(a)) else Print(a))
      + [BinToken(op)]
      + PrintOperand(RightPriority(op), b)
  }

  /** The highest left priority an operator may have without being absorbed by
      the right edge of the printed `x`. */
  function RightEdge(x: Expr): nat
  {
    match x
    case Un(_, a) =>
      if OperandNeedsParens(UNARY_PRIORITY, a) then UNARY_PRIORITY
      else Min(UNARY_PRIORITY, RightEdge(a))
    case Bin(op, _, b) =>
      if OperandNeedsParens(RightPriority(op), b) then RightPriority(op)
      else Min(RightPriority(op), RightEdge(b))
    case _ => 15
  }

  function Min(a: nat, b: nat): nat { if a < b then a else b }

  /** What may follow a printed tree: no operator of priority above `edge`, and
      nothing that would turn a name or a closing parenthesis into a call. */
  predicate Follows(rest: seq<Token>, edge: nat) {
    && !ContinuesPrimary(rest)
    && (NextOp(rest).Some? ==> LeftPriority(NextOp(rest).value) <= edge)
  }

  /** An operator that does not need its left operand parenthesized is not absorbed
      anywhere along that operand's right edge. */
  lemma {:induction false} RightEdgeBound(op: BinOpr, x: Expr)
    requires x.Bin? ==> LeftPriority(op) <= RightPriority(x.op)
    requires x.Un? ==> LeftPriority(op) <= UNARY_PRIORITY
    ensures LeftPriority(op) <= RightEdge(x)
    decreases x
  {
    match x
    case Un(_, a) =>
      if !OperandNeedsParens(UNARY_PRIORITY, a) { RightEdgeBound(op, a); }
    case Bin(op1, _, b) =>
      if !OperandNeedsParens(RightPriority(op1), b) { RightEdgeBound(op, b); }
    case _ =>
  }

  lemma OperatorTokens(u: UnOpr, op: BinOpr)
    ensures GetUnOpr(UnToken(u)) == Some(u) && GetBinOpr(BinToken(op)) == Some(op)
    ensures !ContinuesPrimary([BinToken(op)]) && !BinToken(op).TkLParen?
  {
  }

  lemma SubUnary(u: UnOpr, ts: seq<Token>, limit: nat)
    ensures var p := ParseSub(ts, UNARY_PRIORITY);
            ParseSub([UnToken(u)] + ts, limit)
            == if p.None? then None else ParseLoop(Un(u, p.value.x), p.value.rest, limit)
  {
    OperatorTokens(u, ADD);
    assert ([UnToken(u)] + ts)[1..] == ts;
  }

  lemma LoopStep(x: Expr, op: BinOpr, ts: seq<Token>, limit: nat)
    requires LeftPriority(op) > limit
    ensures var p := ParseSub(ts, RightPriority(op));
            ParseLoop(x, [BinToken(op)] + ts, limit)
            == if p.None? then None else ParseLoop(Bin(op, x, p.value.x), p.value.rest, limit)
  {
    OperatorTokens(NOT, op);
    var all := [BinToken(op)] + ts;
    assert all[1..] == ts;
    assert NextOp(all) == Some(op);
  }

  lemma SubLeaf(x: Expr, rest: seq<Token>, limit: nat)
    requires !x.Un? && !x.Bin? && !ContinuesPrimary(rest)
    ensures ParseSub(Print(x) + rest, limit) == ParseLoop(x, rest, limit)
  {
    var ts := Print(x) + rest;
    assert ts[1..] == rest;
    assert GetUnOpr(ts[0]) == None;
    assert ParseSimple(ts) == Some(Parsed(x, rest));
  }

  /** Parsing a printed tree consumes exactly its tokens and goes on with the tree as
      the operand read so far, wherever its own operators bind tighter than `limit`. */
  lemma {:induction false} ParsePrinted(x: Expr, rest: seq<Token>, limit: nat)
    requires !OperandNeedsParens(limit, x)
    requires Follows(rest, RightEdge(x))
    ensures ParseSub(Print(x) + rest, limit) == ParseLoop(x, rest, limit)
    decreases x, 1
  {
    match x
    case Const(_) => SubLeaf(x, rest, limit);
    case Local(_) => SubLeaf(x, rest, limit);
    case Upval(_) => SubLeaf(x, rest, limit);
    case Un(u, a) => ParsePrintedUn(u, a, rest, limit);
    case Bin(op, a, b) => ParsePrintedBin(op, a, b, rest, limit);
  }

  lemma {:induction false} ParsePrintedUn(u: UnOpr, a: Expr, rest: seq<Token>, limit: nat)
    requires Follows(rest, RightEdge(Un(u, a)))
    ensures ParseSub(Print(Un(u, a)) + rest, limit) == ParseLoop(Un(u, a), rest, limit)
    decreases Un(u, a), 0
  {
    var pa := PrintOperand(UNARY_PRIORITY, a);
    assert Print(Un(u, a)) + rest == [UnToken(u)] + (pa + rest);
    SubUnary(u, pa + rest, limit);
    ParseOperand(a, rest, UNARY_PRIORITY);
  }

  /** The tokens after the left operand of a printed binary operator, read as its
      continuation. */
  lemma {:induction false} ParseTail(op: BinOpr, a: Expr, b: Expr, rest: seq<Token>, limit: nat)
    requires LeftPriority(op) > limit && Follows(rest, RightEdge(Bin(op, a, b)))
    ensures var tail := [BinToken(op)] + (PrintOperand(RightPriority(op), b) + rest);
            ParseLoop(a, tail, limit) == ParseLoop(Bin(op, a, b), rest, limit)
    decreases b, 4
  {
    var pb := PrintOperand(RightPriority(op), b);
    ParseOperand(b, rest, RightPriority(op));
    LoopStep(a, op, pb + rest, limit);
  }

  lemma {:induction false} ParsePrintedBin(op: BinOpr, a: Expr, b: Expr, rest: seq<Token>, limit: nat)
    requires LeftPriority(op) > limit && Follows(rest, RightEdge(Bin(op, a, b)))
    ensures ParseSub(Print(Bin(op, a, b)) + rest, limit) == ParseLoop(Bin(op, a, b), rest, limit)
    decreases Bin(op, a, b), 0
  {
    var tail := [BinToken(op)] + (PrintOperand(RightPriority(op), b) + rest);
    ParseTail(op, a, b, rest, limit);
    OperatorTokens(NOT, op);
    assert tail[0] == BinToken(op);
    PrintedBin(op, a, b, rest);
    if LeftNeedsParens(op, a) {
      ParseParens(a, tail, limit);
    } else {
      LeftFits(op, a, limit);
      ParsePrinted(a, tail, limit);
    }
  }

  lemma PrintedBin(op: BinOpr, a: Expr, b: Expr, rest: seq<Token>)
    ensures var tail := [BinToken(op)] + (PrintOperand(RightPriority(op), b) + rest);
            Print(Bin(op, a, b)) + rest == (if LeftNeedsParens(op, a) then Parens(Print(a)) else Print(a)) + tail
  {
  }

  lemma LeftFits(op: BinOpr, a: Expr, limit: nat)
    requires !LeftNeedsParens(op, a) && LeftPriority(op) > limit
    ensures !OperandNeedsParens(limit, a) && LeftPriority(op) <= RightEdge(a)
  {
    RightEdgeBound(op, a);
  }

  /** An operand printed for a position that stops at `limit` is read back exactly. */
  lemma {:induction false} ParseOperand(x: Expr, rest: seq<Token>, limit: nat)
    requires Follows(rest, if OperandNeedsParens(limit, x) then limit else Min(limit, RightEdge(x)))
    ensures ParseSub(PrintOperand(limit, x) + rest, limit) == Some(Parsed(x, rest))
    decreases x, 3
  {
    if OperandNeedsParens(limit, x) {
      ParseParens(x, rest, limit);
    } else {
      ParsePrinted(x, rest, limit);
    }
  }

  /** A parenthesized tree is read as one operand. */
  lemma {:induction false} ParseParens(x: Expr, rest: seq<Token>, limit: nat)
    requires !ContinuesPrimary(rest)
    ensures ParseSub(Parens(Print(x)) + rest, limit) == ParseLoop(x, rest, limit)
    decreases x, 2
  {
    var ts := Parens(Print(x)) + rest;
    var tail := [TkRParen] + rest;
    assert ts[1..] == Print(x) + tail;
    ParsePrinted(x, tail, 0);
    assert ParseLoop(x, tail, 0) == Some(Parsed(x, tail));
    assert tail[1..] == rest;
    assert ParseSimple(ts) == Some(Parsed(x, rest));
  }

  /** Parsing inverts printing: every operator tree comes back, with `^` and `..`
      right associative and unary operators binding at 12. */
  lemma ParsePrintRoundTrip(x: Expr)
    ensures ParseSub(Print(x), 0) == Some(Parsed(x, []))
  {
    ParsePrinted(x, [], 0);
    assert Print(x) + [] == Print(x);
  }
}
