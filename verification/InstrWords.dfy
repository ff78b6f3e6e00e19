/** Instructions as 32-bit words. */
module InstrWords {
  import opened LuaSyntax
  import opened LuaVm

  function ArithCode(op: BinOpr): nat {
    match op
    case ADD => 13 case SUB => 14 case MUL => 15 case MOD => 16 case POW => 17 case DIV => 18
    case IDIV => 19 case BAND => 20 case BOR => 21 case BXOR => 22 case SHL => 23 case SHR => 24
    case _ => 0
  }

  function UnaryCode(op: UnOpr): nat {
    match op
    case MINUS => 25 case BNOT => 26 case LEN => 28 case NOT => 27
  }

  function CompareCode(op: BinOpr): nat {
    match op
    case EQ => 31 case LT => 32 case LE => 33
    case _ => 0
  }

  function Opcode(i: Instr): nat {
    match i
    case MOVE(_, _) => 0 case LOADK(_, _) => 1 case LOADKX(_) => 2 case LOADBOOL(_, _, _) => 3
    case LOADNIL(_, _) => 4 case GETUPVAL(_, _) => 5
    case ARITH(op, _, _, _) => ArithCode(op)
    case UNARY(op, _, _) => UnaryCode(op)
    case OPNOT(_, _) => 27 case OPCONCAT(_, _, _) => 29 case JMP(_, _) => 30
    case COMPARE(op, _, _, _) => CompareCode(op)
    case TEST(_, _) => 34 case TESTSET(_, _, _) => 35 case RETURN(_, _) => 38 case EXTRAARG(_) => 46
  }

  /** Operation code, A, C and B, from the lowest bit on. */
  function CreateABC(o: int, a: int, b: int, c: int): int { o + a * 0x40 + c * 0x4000 + b * 0x800000 }

  function CreateABx(o: int, a: int, bx: int): int { o + a * 0x40 + bx * 0x4000 }

  function CreateAx(o: int, ax: int): int { o + ax * 0x40 }

  function Word(i: Instr): int {
    var o := Opcode(i);
    match i
    case MOVE(a, b) => CreateABC(o, a, b, 0)
    case LOADK(a, bx) => CreateABx(o, a, bx)
    case LOADKX(a) => CreateABx(o, a, 0)
    case EXTRAARG(ax) => CreateAx(o, ax)
    case LOADBOOL(a, b, c) => CreateABC(o, a, b, c)
    case LOADNIL(a, b) => CreateABC(o, a, b, 0)
    case GETUPVAL(a, b) => CreateABC(o, a, b, 0)
    case ARITH(_, a, b, c) => CreateABC(o, a, b, c)
    case UNARY(_, a, b) => CreateABC(o, a, b, 0)
    case OPNOT(a, b) => CreateABC(o, a, b, 0)
    case OPCONCAT(a, b, c) => CreateABC(o, a, b, c)
    case JMP(a, sbx) => CreateABx(o, a, sbx + MAXARG_sBx)
    case COMPARE(_, a, b, c) => CreateABC(o, a, b, c)
    case TEST(a, c) => CreateABC(o, a, 0, c)
    case TESTSET(a, b, c) => CreateABC(o, a, b, c)
    case RETURN(a, b) => CreateABC(o, a, b, 0)
  }

  function GetA(w: int): int { w / 0x40 % 0x100 }
  function GetB(w: int): int { w / 0x800000 % 0x200 }
  function GetC(w: int): int { w / 0x4000 % 0x200 }
  function GetBx(w: int): int { w / 0x4000 % 0x40000 }
  function GetAx(w: int): int { w / 0x40 % 0x4000000 }

  function ArithOp(o: int): BinOpr {
    match o
    case 13 => ADD case 14 => SUB case 15 => MUL case 16 => MOD case 17 => POW case 18 => DIV
    case 19 => IDIV case 20 => BAND case 21 => BOR case 22 => BXOR case 23 => SHL
    case _ => SHR
  }

  /** The instruction of a word whose operation code the expression compiler emits. */
  function Decoded(w: int): Instr {
    var o, a, b, c := w % 0x40, GetA(w), GetB(w), GetC(w);
    if o == 0 then MOVE(a, b)
    else if o == 1 then LOADK(a, GetBx(w))
    else if o == 2 then LOADKX(a)
    else if o == 3 then LOADBOOL(a, b, c)
    else if o == 4 then LOADNIL(a, b)
    else if o == 5 then GETUPVAL(a, b)
    else if 13 <= o <= 24 then ARITH(ArithOp(o), a, b, c)
    else if o == 25 then UNARY(MINUS, a, b)
    else if o == 26 then UNARY(BNOT, a, b)
    else if o == 27 then OPNOT(a, b)
    else if o == 28 then UNARY(LEN, a, b)
    else if o == 29 then OPCONCAT(a, b, c)
    else if o == 30 then JMP(a, GetBx(w) - MAXARG_sBx)
    else if 31 <= o <= 33 then COMPARE(if o == 31 then EQ else if o == 32 then LT else LE, a, b, c)
    else if o == 34 then TEST(a, c)
    else if o == 35 then TESTSET(a, b, c)
    else if o == 38 then RETURN(a, b)
    else EXTRAARG(GetAx(w))
  }

  lemma FieldsABC(o: nat, a: int, b: int, c: int)
    requires o < 0x40 && FitsA(a) && FitsB(b) && FitsC(c)
    ensures var w := CreateABC(o, a, b, c);
      0 <= w < 0x1_0000_0000 && w % 0x40 == o && GetA(w) == a && GetB(w) == b && GetC(w) == c
  {
    var w := CreateABC(o, a, b, c);
    assert w / 0x40 == a + c * 0x100 + b * 0x20000;
    assert w / 0x4000 == c + b * 0x200 && w / 0x800000 == b;
  }

  lemma FieldsABx(o: nat, a: int, bx: int)
    requires o < 0x40 && FitsA(a) && 0 <= bx <= MAXARG_Bx
    ensures var w := CreateABx(o, a, bx);
      0 <= w < 0x1_0000_0000 && w % 0x40 == o && GetA(w) == a && GetBx(w) == bx
  {
    var w := CreateABx(o, a, bx);
    assert w / 0x40 == a + bx * 0x100 && w / 0x4000 == bx;
  }

  lemma FieldsAx(o: nat, ax: int)
    requires o < 0x40 && 0 <= ax <= MAXARG_Ax
    ensures var w := CreateAx(o, ax); 0 <= w < 0x1_0000_0000 && w % 0x40 == o && GetAx(w) == ax
  {
    assert CreateAx(o, ax) / 0x40 == ax;
  }

  /** Whatever the code generator emits fits a word, and is read back from it. */
  lemma WordRoundTrip(i: Encodable)
    ensures 0 <= Word(i) < 0x1_0000_0000 && Decoded(Word(i)) == i
  {
    FitsOut(i);
    if i.LOADK? || i.LOADKX? || i.EXTRAARG? || i.JMP? { WideRoundTrip(i); }
    else if i.ARITH? || i.COMPARE? || i.UNARY? { OperatorRoundTrip(i); }
    else { NarrowRoundTrip(i); }
  }

  lemma WideRoundTrip(i: Instr)
    requires FitsKeyed(i) && (i.LOADK? || i.LOADKX? || i.EXTRAARG? || i.JMP?)
    ensures 0 <= Word(i) < 0x1_0000_0000 && Decoded(Word(i)) == i
  {
    var o := Opcode(i);
    match i
    case LOADK(a, bx) => FieldsABx(o, a, bx);
    case LOADKX(a) => FieldsABx(o, a, 0);
    case EXTRAARG(ax) => FieldsAx(o, ax);
    case JMP(a, sbx) => FieldsABx(o, a, sbx + MAXARG_sBx);
  }

  lemma OperatorRoundTrip(i: Instr)
    requires FitsKeyed(i) && (i.ARITH? || i.COMPARE? || i.UNARY?)
    ensures 0 <= Word(i) < 0x1_0000_0000 && Decoded(Word(i)) == i
  {
    var o := Opcode(i);
    match i
    case ARITH(op, a, b, c) =>
      FieldsABC(o, a, b, c);
      assert 13 <= o <= 24 && ArithOp(o) == op;
    case UNARY(_, a, b) => FieldsABC(o, a, b, 0);
    case COMPARE(_, a, b, c) => FieldsABC(o, a, b, c);
  }

  lemma NarrowRoundTrip(i: Instr)
    requires FitsKeyed(i) && !i.LOADK? && !i.LOADKX? && !i.EXTRAARG? && !i.JMP?
    requires !i.ARITH? && !i.COMPARE? && !i.UNARY?
    ensures 0 <= Word(i) < 0x1_0000_0000 && Decoded(Word(i)) == i
  {
    var o := Opcode(i);
    match i
    case MOVE(a, b) => FieldsABC(o, a, b, 0);
    case LOADBOOL(a, b, c) => FieldsABC(o, a, b, c);
    case LOADNIL(a, b) => FieldsABC(o, a, b, 0);
    case GETUPVAL(a, b) => FieldsABC(o, a, b, 0);
    case OPNOT(a, b) => FieldsABC(o, a, b, 0);
    case OPCONCAT(a, b, c) => FieldsABC(o, a, b, c);
    case TEST(a, c) => FieldsABC(o, a, 0, c);
    case TESTSET(a, b, c) => FieldsABC(o, a, b, c);
    case RETURN(a, b) => FieldsABC(o, a, b, 0);
  }
}
