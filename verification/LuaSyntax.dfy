/** Values, operators and expression trees of the part of Lua that the code
    generator model covers, with the meaning the Lua manual gives an expression. */
module LuaSyntax {

  /** A Lua value.  Floats are opaque tokens: their arithmetic is a parameter. */
  datatype Value = Nil | Bool(b: bool) | Int(i: int) | Flt(bits: nat) | Str(s: string)

  /** Only nil and false are false. */
  predicate Truthy(v: Value) {
    !v.Nil? && v != Bool(false)
  }

  datatype BinOpr =
    | ADD | SUB | MUL | MOD | POW | DIV | IDIV
    | BAND | BOR | BXOR | SHL | SHR
    | CONCAT
    | EQ | LT | LE | NE | GT | GE
    | AND | OR

  datatype UnOpr = MINUS | BNOT | NOT | LEN

  /** Logical operators, comparisons, and the operators that compute a new value. */
  datatype OpClass = Logical | Comparison | Arithmetic | Concatenation

  function ClassOf(op: BinOpr): OpClass {
    match op
    case AND => Logical case OR => Logical
    case CONCAT => Concatenation
    case EQ => Comparison case LT => Comparison case LE => Comparison
    case NE => Comparison case GT => Comparison case GE => Comparison
    case _ => Arithmetic
  }

  predicate IsArith(op: BinOpr) { ClassOf(op) == Arithmetic }

  predicate IsComparison(op: BinOpr) { ClassOf(op) == Comparison }

  /** Left binding power of a binary operator. */
  function LeftPriority(op: BinOpr): nat {
    match op
    case ADD => 10 case SUB => 10
    case MUL => 11 case MOD => 11
    case POW => 14
    case DIV => 11 case IDIV => 11
    case BAND => 6 case BOR => 4 case BXOR => 5
    case SHL => 7 case SHR => 7
    case CONCAT => 9
    case EQ => 3 case LT => 3 case LE => 3
    case NE => 3 case GT => 3 case GE => 3
    case AND => 2 case OR => 1
  }

  /** Right binding power; smaller than the left one for the right associative operators. */
  function RightPriority(op: BinOpr): nat {
    match op
    case POW => 13
    case CONCAT => 8
    case _ => LeftPriority(op)
  }

  const UNARY_PRIORITY: nat := 12

  datatype Expr =
    | Const(v: Value)
    | Local(reg: nat)
    | Upval(idx: nat)
    | Un(uop: UnOpr, arg: Expr)
    | Bin(op: BinOpr, left: Expr, right: Expr)

  /** What the code generator takes as given: the arithmetic of the language
      (operators other than the logical ones), the three primitive comparisons,
      the values of the upvalues, and the number tests behind constant folding. */
  datatype Semantics = Semantics(
    arith: (BinOpr, Value, Value) -> Value,
    unary: (UnOpr, Value) -> Value,
    eq: (Value, Value) -> bool,
    lt: (Value, Value) -> bool,
    le: (Value, Value) -> bool,
    upvalue: nat -> Value,
    toInteger: Value -> bool,
    isZero: Value -> bool,
    isNaN: Value -> bool)

  type Regs = map<int, Value>

  function Get(R: Regs, r: int): Value {
    if r in R then R[r] else Nil
  }

  /** The comparisons; `a ~= b` is the negation of `a == b`, and `a > b` and
      `a >= b` swap their operands. */
  function Compare(S: Semantics, op: BinOpr, a: Value, b: Value): bool
    requires IsComparison(op)
  {
    match op
    case EQ => S.eq(a, b)
    case NE => !S.eq(a, b)
    case LT => S.lt(a, b)
    case GT => S.lt(b, a)
    case LE => S.le(a, b)
    case GE => S.le(b, a)
  }

  /** The value of a unary operator applied to a value. */
  function UnValue(S: Semantics, op: UnOpr, va: Value): Value {
    if op.NOT? then Bool(!Truthy(va)) else S.unary(op, va)
  }

  /** The value of a binary operator applied to two values; `and` and `or` give one of
      their operands. */
  function BinValue(S: Semantics, op: BinOpr, va: Value, vb: Value): Value {
    if op.AND? then (if Truthy(va) then vb else va)
    else if op.OR? then (if Truthy(va) then va else vb)
    else if IsComparison(op) then Bool(Compare(S, op, va, vb))
    else S.arith(op, va, vb)
  }

  /** The value of an expression when the locals are in registers `R`. */
  function Eval(S: Semantics, x: Expr, R: Regs): Value {
    match x
    case Const(v) => v
    case Local(r) => Get(R, r)
    case Upval(i) => S.upvalue(i)
    case Un(op, a) => UnValue(S, op, Eval(S, a, R))
    case Bin(op, a, b) => BinValue(S, op, Eval(S, a, R), Eval(S, b, R))
  }

  /** Every local mentioned is below `n`. */
  predicate LocalsBelow(x: Expr, n: nat) {
    match x
    case Const(_) => true
    case Local(r) => r < n
    case Upval(_) => true
    case Un(_, a) => LocalsBelow(a, n)
    case Bin(_, a, b) => LocalsBelow(a, n) && LocalsBelow(b, n)
  }

  /** Every upvalue mentioned is below `n`. */
  predicate UpvalsBelow(x: Expr, n: nat) {
    match x
    case Upval(i) => i < n
    case Un(_, a) => UpvalsBelow(a, n)
    case Bin(_, a, b) => UpvalsBelow(a, n) && UpvalsBelow(b, n)
    case _ => true
  }

  /** An expression depends only on the registers of its locals. */
  lemma EvalFrame(S: Semantics, x: Expr, n: nat, R: Regs, R': Regs)
    requires LocalsBelow(x, n)
    requires forall r :: 0 <= r < n ==> Get(R, r) == Get(R', r)
    ensures Eval(S, x, R) == Eval(S, x, R')
  {
  }
}
