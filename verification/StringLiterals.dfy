/** String literals: how libshit writes them, and how Lua and C read them back. */
module StringLiterals {
  import opened Prelude
  import Wtf8

  type Byte = Wtf8.Byte
  type Text = seq<Byte>

  const QUOTE: Byte := 34
  const BACKSLASH: Byte := 92
  const LETTER_X: Byte := 120
  const NEWLINE: Byte := 10
  const RETURN: Byte := 13
  const OPEN_BRACE: Byte := 123
  const CLOSE_BRACE: Byte := 125

  /** What the lexer reads at the end of the input. */
  const EOZ: int := -1

  predicate IsPrint(c: Byte) {
    32 <= c <= 126
  }

  predicate IsDigit(c: int) {
    48 <= c <= 57
  }

  predicate IsXDigit(c: int) {
    IsDigit(c) || 65 <= c <= 70 || 97 <= c <= 102
  }

  predicate IsSpace(c: int) {
    9 <= c <= 13 || c == 32
  }

  predicate IsNewline(c: int) {
    c == NEWLINE || c == RETURN
  }

  function HexaValue(c: int): (d: nat)
    requires IsXDigit(c)
    ensures d < 16
  {
    if IsDigit(c) then c - 48 else if c <= 70 then c - 55 else c - 87
  }

  /** The digit of a value below 16, in lower case. */
  function HexDigit(d: nat): (c: Byte)
    requires d < 16
    ensures IsXDigit(c) && HexaValue(c) == d
  {
    if d < 10 then 48 + d else 87 + d
  }

  // ----- the printer -----

  /** The letter after the backslash for the bytes that have one, 0 for the others. */
  function EscapeLetter(c: Byte): Byte {
    match c
    case 7 => 97
    case 8 => 98
    case 9 => 116
    case 10 => 110
    case 11 => 118
    case 12 => 102
    case 13 => 114
    case 34 => QUOTE
    case 92 => BACKSLASH
    case _ => 0
  }

  /** A byte that can only be written as two hexadecimal digits. */
  predicate NeedsHex(c: Byte) {
    EscapeLetter(c) == 0 && !IsPrint(c)
  }

  /** Whether a byte is written as two digits, after a byte that was (`prev`) or not. */
  predicate AsHex(c: Byte, prev: bool) {
    NeedsHex(c) || (prev && IsXDigit(c))
  }

  function ByteText(c: Byte, prev: bool): Text {
    if EscapeLetter(c) != 0 then [BACKSLASH, EscapeLetter(c)]
    else if AsHex(c, prev) then [BACKSLASH, LETTER_X, HexDigit(c / 16), HexDigit(c % 16)]
    else [c]
  }

  function Body(data: Text, prev: bool): Text {
    if data == [] then [] else ByteText(data[0], prev) + Body(data[1..], AsHex(data[0], prev))
  }

  function Literal(data: Text): Text {
    [QUOTE] + Body(data, false) + [QUOTE]
  }

  class Stream {
    var text: Text

    constructor ()
      ensures text == []
    {
      text := [];
    }

    method DumpByte(c: Byte, prevHexEscape: bool) returns (hex: bool)
      modifies this
      ensures text == old(text) + ByteText(c, prevHexEscape) && hex == AsHex(c, prevHexEscape)
    {
      hex := false;
      match c {
        case 34 => text := text + [BACKSLASH, QUOTE];
        case 92 => text := text + [BACKSLASH, BACKSLASH];
        case 7 => text := text + [BACKSLASH, 97];
        case 8 => text := text + [BACKSLASH, 98];
        case 12 => text := text + [BACKSLASH, 102];
        case 10 => text := text + [BACKSLASH, 110];
        case 13 => text := text + [BACKSLASH, 114];
        case 9 => text := text + [BACKSLASH, 116];
        case 11 => text := text + [BACKSLASH, 118];
        case _ =>
          if IsPrint(c) && (!prevHexEscape || !IsXDigit(c)) {
            text := text + [c];
          } else {
            text := text + [BACKSLASH, LETTER_X, HexDigit(c / 16), HexDigit(c % 16)];
            hex := true;
          }
      }
    }

    method DumpBytes(data: Text)
      modifies this
      ensures text == old(text) + Literal(data)
    {
      text := text + [QUOTE];
      var hex := false;
      ghost var head := text;
      for i := 0 to |data|
        invariant text + Body(data[i..], hex) == head + Body(data, false)
      {
        assert data[i..][0] == data[i] && data[i..][1..] == data[i + 1..];
        Associate(text, ByteText(data[i], hex), Body(data[i + 1..], AsHex(data[i], hex)));
        hex := DumpByte(data[i], hex);
      }
      assert text == head + Body(data, false);
      text := text + [QUOTE];
    }
  }

  // ----- reading, as functions -----

  datatype Error =
    | UnfinishedString
    | InvalidEscape
    | HexDigitExpected
    | DecimalTooLarge
    | Utf8TooLarge
    | MissingBrace
    | OutOfRange

  /** What an escape sequence stands for, and the input behind it. */
  datatype Piece = Piece(bytes: Text, rest: Text) | Bad(error: Error)

  datatype Outcome = Done(value: Text, rest: Text) | Failed(error: Error)

  function Prefixed(bytes: Text, o: Outcome): Outcome {
    if o.Done? then o.(value := bytes + o.value) else o
  }

  /** The byte for the letter after a backslash, -1 if the letter has none. */
  function LetterByte(c: Byte): int {
    match c
    case 97 => 7
    case 98 => 8
    case 102 => 12
    case 110 => 10
    case 114 => 13
    case 116 => 9
    case 118 => 11
    case 92 => 92
    case 34 => 34
    case 39 => 39
    case _ => -1
  }

  /** The UTF-8 form of a code point. */
  function Utf8(x: nat): Text
    requires x <= 0x10FFFF
  {
    Wtf8.Encoded(x, false)
  }

  function HexEscape(s: Text): (p: Piece)
    ensures p.Piece? ==> |p.rest| <= |s| && |p.bytes| == 1
  {
    if |s| >= 1 && IsXDigit(s[0]) && |s| >= 2 && IsXDigit(s[1])
    then Piece([16 * HexaValue(s[0]) + HexaValue(s[1])], s[2..])
    else Bad(HexDigitExpected)
  }

  /** The rest of a decimal escape with `i` digits of value `r` read. */
  function DecEscape(s: Text, i: nat, r: nat): (p: Piece)
    requires i <= 3
    ensures p.Piece? ==> |p.rest| <= |s|
    decreases |s|
  {
    if i < 3 && s != [] && IsDigit(s[0]) then DecEscape(s[1..], i + 1, 10 * r + s[0] - 48)
    else if r <= 255 then Piece([r], s)
    else Bad(DecimalTooLarge)
  }

  /** The rest of a braced escape with digits of value `r` read. */
  function Utf8Rest(s: Text, r: nat): (p: Piece)
    requires r <= 0x10FFFF
    ensures p.Piece? ==> |p.rest| <= |s|
    decreases |s|
  {
    if s != [] && IsXDigit(s[0]) then
      var r2 := 16 * r + HexaValue(s[0]);
      if r2 <= 0x10FFFF then Utf8Rest(s[1..], r2) else Bad(Utf8TooLarge)
    else if s != [] && s[0] == CLOSE_BRACE then Piece(Utf8(r), s[1..])
    else Bad(MissingBrace)
  }

  function Utf8Escape(s: Text): (p: Piece)
    ensures p.Piece? ==> |p.rest| <= |s|
  {
    if s == [] || s[0] != OPEN_BRACE then Bad(MissingBrace)
    else if |s| < 2 || !IsXDigit(s[1]) then Bad(HexDigitExpected)
    else Utf8Rest(s[2..], HexaValue(s[1]))
  }

  /** A line break is one character, or two different ones. */
  function AfterNewline(s: Text): (r: Text)
    requires s != []
    ensures |r| < |s|
  {
    if |s| >= 2 && IsNewline(s[1]) && s[1] != s[0] then s[2..] else s[1..]
  }

  function SkipSpaces(s: Text): (r: Text)
    ensures |r| <= |s|
  {
    if s != [] && IsSpace(s[0]) then SkipSpaces(s[1..]) else s
  }

  /** An escape sequence of Lua, read from behind the backslash. */
  function Escape(s: Text): (p: Piece)
    ensures p.Piece? ==> |p.rest| <= |s|
  {
    if s == [] then Piece([], [])
    else if LetterByte(s[0]) >= 0 then Piece([LetterByte(s[0])], s[1..])
    else if s[0] == LETTER_X then HexEscape(s[1..])
    else if s[0] == 117 then Utf8Escape(s[1..])
    else if IsNewline(s[0]) then Piece([NEWLINE], AfterNewline(s))
    else if s[0] == 122 then Piece([], SkipSpaces(s[1..]))
    else if IsDigit(s[0]) then DecEscape(s, 0, 0)
    else Bad(InvalidEscape)
  }

  /** The rest of a string literal of Lua that `del` ends. */
  function Chars(s: Text, del: Byte): (o: Outcome)
    decreases |s|
  {
    if s == [] then Failed(UnfinishedString)
    else if s[0] == del then Done([], s[1..])
    else if IsNewline(s[0]) then Failed(UnfinishedString)
    else if s[0] == BACKSLASH then
      match Escape(s[1..])
      case Piece(bytes, rest) => Prefixed(bytes, Chars(rest, del))
      case Bad(error) => Failed(error)
    else Prefixed([s[0]], Chars(s[1..], del))
  }

  /** The literal goes on at `to` when `bytes` have been read from `from`. */
  ghost predicate Adds(from: Text, bytes: Text, to: Text, del: Byte) {
    forall k :: Key(k) ==> Chars(from, del) == Prefixed(bytes, Chars(to, del))
  }

  lemma AddsNothing(s: Text, del: Byte)
    ensures Adds(s, [], s, del)
  {
    var o := Chars(s, del);
    if o.Done? { assert [] + o.value == o.value; }
  }

  lemma AddsMore(s: Text, a: Text, t: Text, b: Text, u: Text, del: Byte)
    requires Adds(s, a, t, del) && Adds(t, b, u, del)
    ensures Adds(s, a + b, u, del)
  {
    assert Key(0);
    Regroup(a, b, Chars(u, del));
  }

  lemma AddsAll(s: Text, bytes: Text, t: Text, del: Byte)
    requires Adds(s, bytes, t, del) && t != [] && t[0] == del
    ensures Chars(s, del) == Done(bytes, t[1..])
  {
    assert Key(0);
    assert bytes + [] == bytes;
  }

  lemma AddsOne(s: Text, del: Byte)
    requires s != [] && s[0] != del && !IsNewline(s[0]) && s[0] != BACKSLASH
    ensures Adds(s, [s[0]], s[1..], del)
  {
  }

  lemma AddsEscape(s: Text, del: Byte)
    requires s != [] && s[0] == BACKSLASH != del
    ensures var p := Escape(s[1..]);
            if p.Piece? then Adds(s, p.bytes, p.rest, del) else Chars(s, del) == Failed(p.error)
  {
  }

  lemma AddsError(s: Text, bytes: Text, t: Text, del: Byte)
    requires Adds(s, bytes, t, del) && Chars(t, del).Failed?
    ensures Chars(s, del) == Chars(t, del)
  {
    assert Key(0);
  }

  /** A string literal of Lua with its delimiters. */
  function ReadLiteral(s: Text): Outcome
    requires s != []
  {
    Chars(s[1..], s[0])
  }

  // ----- the lexer -----

  datatype Check<T> = Got(value: T) | Raise(error: Error) {
    predicate IsFailure() { Raise? }

    function PropagateFailure<U>(): Check<U>
      requires Raise?
    {
      Raise(error)
    }

    function Extract(): T
      requires Got?
    {
      value
    }
  }

  function Front(s: Text, n: nat): Text
    requires n <= |s|
  {
    s[..|s| - n]
  }

  class LexState {
    var current: int
    var z: Text
    var buff: Text

    ghost predicate Valid()
      reads this
    {
      -1 <= current < 256 && (current == EOZ ==> z == [])
    }

    /** What is still to be read. */
    ghost function Input(): Text
      reads this
      requires Valid()
    {
      if current == EOZ then [] else [current] + z
    }

    constructor (input: Text)
      ensures Valid() && Input() == input && buff == []
    {
      buff := [];
      if input == [] { current, z := EOZ, []; } else { current, z := input[0], input[1..]; }
    }

    method Next()
      requires Valid()
      modifies this`current, this`z
      ensures Valid() && Input() == if old(Input()) == [] then [] else old(Input())[1..]
    {
      if z == [] { current := EOZ; } else { current, z := z[0], z[1..]; }
    }

    method Save(c: Byte)
      modifies this`buff
      ensures buff == old(buff) + [c]
    {
      buff := buff + [c];
    }

    method BuffRemove(n: nat)
      requires n <= |buff|
      modifies this`buff
      ensures buff == Front(old(buff), n)
    {
      buff := buff[..|buff| - n];
    }

    method SaveAndNext()
      requires Valid() && current != EOZ
      modifies this
      ensures Valid() && Input() == old(Input())[1..] && buff == old(buff) + [old(current)]
    {
      Save(current);
      Next();
    }

    method GetHexa() returns (c: Check<nat>)
      requires Valid() && current != EOZ
      modifies this
      ensures Valid()
      ensures c.Got? <==> |old(Input())| >= 2 && IsXDigit(old(Input())[1])
      ensures c.Got? ==> Input() == old(Input())[1..] && buff == old(buff) + [old(current)]
      ensures c.Got? ==> IsXDigit(current) && c.value == HexaValue(current)
      ensures c.Raise? ==> c.error == HexDigitExpected
    {
      SaveAndNext();
      if !IsXDigit(current) {
        return Raise(HexDigitExpected);
      }
      c := Got(HexaValue(current));
    }

    /** Stops at the second digit. */
    method ReadHexaEsc() returns (c: Check<Byte>)
      requires Valid() && current != EOZ
      modifies this
      ensures Valid()
      ensures c.Got? ==> Input() != [] && buff == old(buff)
                         && HexEscape(old(Input())[1..]) == Piece([c.value], Input()[1..])
      ensures c.Raise? ==> HexEscape(old(Input())[1..]) == Bad(c.error)
    {
      ghost var s, b := Input(), buff;
      var r :- GetHexa();
      var r2 :- GetHexa();
      assert buff == b + [s[0]] + [s[1]];
      BuffRemove(2);
      assert buff == b;
      assert s[1..][2..] == Input()[1..];
      c := Got(16 * r + r2);
    }

    method ReadUtf8Esc() returns (c: Check<nat>)
      requires Valid() && current != EOZ && |buff| >= 1
      modifies this
      ensures Valid()
      ensures c.Got? ==> c.value <= 0x10FFFF && buff == Front(old(buff), 1)
                         && Utf8Escape(old(Input())[1..]) == Piece(Utf8(c.value), Input())
      ensures c.Raise? ==> Utf8Escape(old(Input())[1..]) == Bad(c.error)
    {
      ghost var s, b := Input(), buff;
      var i := 4;
      SaveAndNext();
      if current != OPEN_BRACE {
        return Raise(MissingBrace);
      }
      var r :- GetHexa();
      SaveAndNext();
      assert Input() == s[1..][2..];
      while IsXDigit(current)
        invariant Valid() && 0 <= r <= 0x10FFFF && i >= 4
        invariant Utf8Escape(s[1..]) == Utf8Rest(Input(), r)
        invariant |buff| == |b| + i - 1 && b <= buff
        decreases |Input()|
      {
        i := i + 1;
        r := 16 * r + HexaValue(current);
        if r > 0x10FFFF {
          return Raise(Utf8TooLarge);
        }
        SaveAndNext();
      }
      if current != CLOSE_BRACE {
        return Raise(MissingBrace);
      }
      Next();
      BuffRemove(i);
      c := Got(r);
    }

    method Utf8Esc() returns (c: Check<()>, ghost bytes: Text)
      requires Valid() && current != EOZ && |buff| >= 1
      modifies this
      ensures Valid()
      ensures c.Got? ==> Utf8Escape(old(Input())[1..]) == Piece(bytes, Input()) && buff == Front(old(buff), 1) + bytes
      ensures c.Raise? ==> Utf8Escape(old(Input())[1..]) == Bad(c.error)
    {
      bytes := [];
      var x :- ReadUtf8Esc();
      var chars := Utf8Chars(x);
      SaveAll(chars);
      c, bytes := Got(()), chars;
    }

    method SaveAll(chars: Text)
      modifies this`buff
      ensures buff == old(buff) + chars
    {
      for k := 0 to |chars|
        invariant buff == old(buff) + chars[..k]
      {
        Save(chars[k]);
      }
      assert chars[..|chars|] == chars;
    }

    method ReadDecEsc() returns (c: Check<Byte>)
      requires Valid() && current != EOZ
      modifies this
      ensures Valid()
      ensures c.Got? ==> buff == old(buff) && DecEscape(old(Input()), 0, 0) == Piece([c.value], Input())
      ensures c.Raise? ==> DecEscape(old(Input()), 0, 0) == Bad(c.error)
    {
      ghost var s, b := Input(), buff;
      var i, r := 0, 0;
      while i < 3 && IsDigit(current)
        invariant Valid() && 0 <= i <= 3 && 0 <= r
        invariant DecEscape(s, 0, 0) == DecEscape(Input(), i, r)
        invariant |buff| == |b| + i && b <= buff
      {
        r := 10 * r + current - 48;
        SaveAndNext();
        i := i + 1;
      }
      if r > 255 {
        return Raise(DecimalTooLarge);
      }
      BuffRemove(i);
      c := Got(r);
    }

    method IncLineNumber()
      requires Valid() && IsNewline(current)
      modifies this`current, this`z
      ensures Valid() && Input() == AfterNewline(old(Input()))
    {
      var was := current;
      Next();
      if IsNewline(current) && current != was {
        Next();
      }
    }

    method ZapSpaces()
      requires Valid()
      modifies this`current, this`z
      ensures Valid() && Input() == SkipSpaces(old(Input()))
    {
      ghost var s := Input();
      while IsSpace(current)
        invariant Valid() && SkipSpaces(Input()) == SkipSpaces(s)
        decreases |Input()|
      {
        ghost var before := Input();
        if IsNewline(current) {
          IncLineNumber();
          assert before[1..] == Input() || before[1..][1..] == Input();
        } else {
          Next();
        }
      }
    }

    /** Puts a byte where the backslash is. */
    method OnlySave(c: Byte)
      requires |buff| >= 1
      modifies this`buff
      ensures buff == Front(old(buff), 1) + [c]
    {
      BuffRemove(1);
      Save(c);
    }

    /** One escape sequence; the bytes it stands for replace it in the buffer. */
    method ReadEscape() returns (c: Check<()>)
      requires Valid() && current == BACKSLASH
      modifies this
      ensures Valid()
      ensures var p := Escape(old(Input())[1..]);
              if c.Raise? then p == Bad(c.error)
              else p.Piece? && p.rest == Input() && (Input() != [] ==> buff == old(buff) + p.bytes)
    {
      ghost var b := buff;
      SaveAndNext();
      assert Front(buff, 1) == b;
      ghost var s := Input();
      assert s != [] ==> s[0] == current;
      c := Got(());
      if current == EOZ {
        return;
      } else if LetterByte(current) >= 0 {
        var byte := LetterByte(current);
        Next();
        OnlySave(byte);
      } else if current == LETTER_X {
        var byte :- ReadHexaEsc();
        Next();
        OnlySave(byte);
      } else if current == 117 {
        ghost var bytes;
        c, bytes := Utf8Esc();
      } else if IsNewline(current) {
        IncLineNumber();
        OnlySave(NEWLINE);
      } else if current == 122 {
        BuffRemove(1);
        Next();
        ZapSpaces();
      } else {
        if !IsDigit(current) {
          return Raise(InvalidEscape);
        }
        var byte :- ReadDecEsc();
        OnlySave(byte);
      }
    }

    /** One round of the loop of `ReadString`; `bytes` is what it adds to the string. */
    method ReadPart(del: Byte) returns (c: Check<()>, ghost bytes: Text)
      requires Valid() && current != del && (del == QUOTE || del == 39)
      modifies this
      ensures Valid()
      ensures c.Raise? ==> Chars(old(Input()), del) == Failed(c.error)
      ensures c.Got? ==> Adds(old(Input()), bytes, Input(), del)
      ensures c.Got? ==> |Input()| < |old(Input())| && (Input() != [] ==> buff == old(buff) + bytes)
    {
      bytes := [];
      ghost var s := Input();
      if current == EOZ || IsNewline(current) {
        c := Raise(UnfinishedString);
      } else if current == BACKSLASH {
        AddsEscape(s, del);
        bytes := Escaped(Escape(s[1..]));
        c := ReadEscape();
      } else {
        AddsOne(s, del);
        bytes := [current];
        SaveAndNext();
        c := Got(());
      }
    }

    method ReadMore(del: Byte, ghost s: Text, ghost b: Text, ghost acc0: Text) returns (c: Check<()>, ghost acc: Text)
      requires Valid() && current != del && (del == QUOTE || del == 39)
      requires (current != EOZ ==> buff == b + acc0) && Adds(s, acc0, Input(), del)
      modifies this
      ensures Valid()
      ensures c.Raise? ==> Chars(s, del) == Failed(c.error)
      ensures c.Got? ==> Adds(s, acc, Input(), del) && |Input()| < |old(Input())|
      ensures c.Got? && current != EOZ ==> buff == b + acc
    {
      ghost var was := Input();
      ghost var bytes: Text;
      c, bytes := ReadPart(del);
      acc := acc0 + bytes;
      if c.Raise? {
        AddsError(s, acc0, was, del);
      } else {
        AddsMore(s, acc0, was, bytes, Input(), del);
      }
    }

    /** The loop of `ReadString`, up to the delimiter. */
    method ReadParts(del: Byte) returns (c: Check<()>, ghost acc: Text)
      requires Valid() && (del == QUOTE || del == 39)
      modifies this
      ensures Valid()
      ensures c.Raise? ==> Chars(old(Input()), del) == Failed(c.error)
      ensures c.Got? ==> current == del && Adds(old(Input()), acc, Input(), del) && buff == old(buff) + acc
    {
      ghost var s, b := Input(), buff;
      acc := [];
      AddsNothing(s, del);
      while current != del
        invariant Valid() && (current != EOZ ==> buff == b + acc)
        invariant Adds(s, acc, Input(), del)
        decreases |Input()|
      {
        c, acc := ReadMore(del, s, b, acc);
        if c.Raise? { return; }
      }
      c := Got(());
    }

    /** Reads a literal from its first delimiter to its second. */
    method ReadString(del: Byte) returns (c: Check<Text>)
      requires Valid() && current == del && (del == QUOTE || del == 39) && buff == []
      modifies this
      ensures Valid()
      ensures ReadLiteral(old(Input())) == match c case Got(value) => Done(value, Input())
                                                   case Raise(error) => Failed(error)
    {
      ghost var s := Input()[1..];
      SaveAndNext();
      ghost var acc: Text;
      var parts;
      parts, acc := ReadParts(del);
      if parts.Raise? {
        return Raise(parts.error);
      }
      AddsAll(s, acc, Input(), del);
      SaveAndNext();
      assert buff[1..|buff| - 1] == acc;
      c := Got(buff[1..|buff| - 1]);
    }
  }

  function Escaped(p: Piece): Text {
    if p.Piece? then p.bytes else []
  }

  lemma Regroup(a: Text, b: Text, o: Outcome)
    ensures Prefixed(a, Prefixed(b, o)) == Prefixed(a + b, o)
  {
    if o.Done? { assert a + (b + o.value) == (a + b) + o.value; }
  }

  /** Fills the buffer from its end: continuation bytes first, while what is left does not
      fit into the first byte. */
  method Utf8Chars(code: nat) returns (chars: Text)
    requires code <= 0x10FFFF
    ensures chars == Utf8(code)
  {
    if code < 0x80 {
      return [code];
    }
    var x, mfb := code, 0x3F;
    chars := [];
    var more := true;
    while more
      invariant |chars| <= 3 && (|chars| == 0 ==> more)
      invariant more <==> x > mfb
      invariant match |chars|
                case 0 => x == code && mfb == 0x3F && code >= 0x80
                case 1 => x == code / 64 && mfb == 0x1F && chars == [0x80 + code % 64]
                case 2 => x == code / 4096 && mfb == 0x0F && code >= 0x800
                          && chars == [0x80 + code / 64 % 64, 0x80 + code % 64]
                case _ => x == code / 262144 && mfb == 0x07 && code >= 0x10000
                          && chars == [0x80 + code / 4096 % 64, 0x80 + code / 64 % 64, 0x80 + code % 64]
      decreases x
    {
      chars := [0x80 + x % 64] + chars;
      x := x / 64;
      mfb := mfb / 2;
      more := x > mfb;
    }
    chars := [256 - 2 * (mfb + 1) + x] + chars;
  }

  // ----- reading in C -----

  /** The number of hexadecimal digits at the front. */
  function HexRun(s: Text): (n: nat)
    ensures n <= |s|
  {
    if s != [] && IsXDigit(s[0]) then 1 + HexRun(s[1..]) else 0
  }

  function HexNumber(s: Text, r: nat): nat
    requires HexRun(s) == |s|
  {
    if s == [] then r else HexNumber(s[1..], 16 * r + HexaValue(s[0]))
  }

  /** A prefix of what `HexRun` counts is all digits. */
  lemma {:induction false} RunOfPrefix(s: Text)
    ensures HexRun(s[..HexRun(s)]) == HexRun(s)
  {
    if s != [] && IsXDigit(s[0]) {
      RunOfPrefix(s[1..]);
      assert s[..HexRun(s)][1..] == s[1..][..HexRun(s[1..])];
    }
  }

  function OctalEscape(s: Text, i: nat, r: nat): (p: Piece)
    requires i <= 3
    ensures p.Piece? ==> |p.rest| <= |s|
    decreases |s|
  {
    if i < 3 && s != [] && 48 <= s[0] <= 55 then OctalEscape(s[1..], i + 1, 8 * r + s[0] - 48)
    else if r <= 255 then Piece([r], s)
    else Bad(OutOfRange)
  }

  /** An escape sequence of C, read from behind the backslash: a hexadecimal one takes all
      the digits it can get. */
  function CEscape(s: Text): (p: Piece)
    ensures p.Piece? ==> |p.rest| <= |s|
  {
    if s == [] then Bad(UnfinishedString)
    else if LetterByte(s[0]) >= 0 then Piece([LetterByte(s[0])], s[1..])
    else if s[0] == 63 then Piece([63], s[1..])
    else if s[0] == LETTER_X then
      var n := HexRun(s[1..]);
      RunOfPrefix(s[1..]);
      var r := HexNumber(s[1..][..n], 0);
      if n == 0 then Bad(HexDigitExpected)
      else if r <= 255 then Piece([r], s[1 + n..])
      else Bad(OutOfRange)
    else if 48 <= s[0] <= 55 then OctalEscape(s, 0, 0)
    else Bad(InvalidEscape)
  }

  /** The rest of a string literal of C. */
  function CChars(s: Text): Outcome
    decreases |s|
  {
    if s == [] then Failed(UnfinishedString)
    else if s[0] == QUOTE then Done([], s[1..])
    else if s[0] == NEWLINE then Failed(UnfinishedString)
    else if s[0] == BACKSLASH then
      match CEscape(s[1..])
      case Piece(bytes, rest) => Prefixed(bytes, CChars(rest))
      case Bad(error) => Failed(error)
    else Prefixed([s[0]], CChars(s[1..]))
  }

  // ----- round trips -----

  lemma Behind(a: Byte, t: Text, rest: Text)
    ensures ([a] + t + rest)[0] == a && ([a] + t + rest)[1..] == t + rest
  {
  }

  lemma LuaEscaped(t: Text, c: Byte, rest: Text)
    requires Escape(t + rest) == Piece([c], rest)
    ensures Chars([BACKSLASH] + t + rest, QUOTE) == Prefixed([c], Chars(rest, QUOTE))
  {
    Behind(BACKSLASH, t, rest);
  }

  lemma LuaLetter(c: Byte, rest: Text)
    requires EscapeLetter(c) != 0
    ensures Escape([EscapeLetter(c)] + rest) == Piece([c], rest)
  {
    Behind(EscapeLetter(c), [], rest);
    assert LetterByte(EscapeLetter(c)) == c;
  }

  lemma LuaHex(c: Byte, rest: Text)
    ensures Escape([LETTER_X, HexDigit(c / 16), HexDigit(c % 16)] + rest) == Piece([c], rest)
  {
    var t := [HexDigit(c / 16), HexDigit(c % 16)];
    assert [LETTER_X] + t == [LETTER_X, HexDigit(c / 16), HexDigit(c % 16)];
    Behind(LETTER_X, t, rest);
    assert (t + rest)[2..] == rest;
  }

  lemma PlainByte(c: Byte, prev: bool)
    requires EscapeLetter(c) == 0 && !AsHex(c, prev)
    ensures c != QUOTE && c != BACKSLASH && !IsNewline(c) && ByteText(c, prev) == [c]
  {
  }

  /** One byte read back by Lua, whatever follows it. */
  lemma LuaByte(c: Byte, prev: bool, rest: Text)
    ensures Chars(ByteText(c, prev) + rest, QUOTE) == Prefixed([c], Chars(rest, QUOTE))
  {
    if EscapeLetter(c) != 0 {
      LuaLetter(c, rest);
      LuaEscaped([EscapeLetter(c)], c, rest);
      assert ByteText(c, prev) == [BACKSLASH] + [EscapeLetter(c)];
    } else if AsHex(c, prev) {
      LuaHex(c, rest);
      LuaEscaped([LETTER_X, HexDigit(c / 16), HexDigit(c % 16)], c, rest);
      assert ByteText(c, prev) == [BACKSLASH] + [LETTER_X, HexDigit(c / 16), HexDigit(c % 16)];
    } else {
      PlainByte(c, prev);
      LuaPlain(c, rest);
    }
  }

  lemma LuaPlain(c: Byte, rest: Text)
    requires c != QUOTE && c != BACKSLASH && !IsNewline(c)
    ensures Chars([c] + rest, QUOTE) == Prefixed([c], Chars(rest, QUOTE))
  {
    assert ([c] + rest)[1..] == rest;
  }

  lemma BodyText(data: Text, prev: bool, tail: Text)
    requires data != []
    ensures Body(data, prev) + tail == ByteText(data[0], prev) + (Body(data[1..], AsHex(data[0], prev)) + tail)
  {
    Associate(ByteText(data[0], prev), Body(data[1..], AsHex(data[0], prev)), tail);
  }

  lemma Associate(a: Text, b: Text, c: Text)
    ensures a + b + c == a + (b + c)
  {
  }

  lemma {:induction false} LuaBody(data: Text, prev: bool, tail: Text)
    requires tail != [] && tail[0] == QUOTE
    ensures Chars(Body(data, prev) + tail, QUOTE) == Done(data, tail[1..])
    decreases |data|
  {
    if data == [] {
      assert Body(data, prev) + tail == tail;
    } else {
      var hex := AsHex(data[0], prev);
      BodyText(data, prev, tail);
      LuaByte(data[0], prev, Body(data[1..], hex) + tail);
      LuaBody(data[1..], hex, tail);
      assert [data[0]] + data[1..] == data;
    }
  }

  lemma LiteralText(data: Text, rest: Text)
    ensures (Literal(data) + rest)[0] == QUOTE
    ensures (Literal(data) + rest)[1..] == Body(data, false) + ([QUOTE] + rest)
    ensures ([QUOTE] + rest)[1..] == rest
  {
  }

  /** Lua reads back every byte string. */
  lemma LuaRoundTrip(data: Text, rest: Text)
    ensures ReadLiteral(Literal(data) + rest) == Done(data, rest)
  {
    LiteralText(data, rest);
    LuaBody(data, false, [QUOTE] + rest);
  }

  /** The same for the printer and the lexer themselves. */
  method WriteThenRead(data: Text) returns (value: Text)
    ensures value == data
  {
    var os := new Stream();
    os.DumpBytes(data);
    LuaRoundTrip(data, []);
    assert os.text == Literal(data) && os.text + [] == os.text;
    var ls := new LexState(os.text);
    var c := ls.ReadString(QUOTE);
    assert c.Got?;
    value := c.value;
  }

  lemma RunStep(d: Byte, s: Text)
    ensures HexRun([d] + s) == if IsXDigit(d) then 1 + HexRun(s) else 0
  {
    assert ([d] + s)[1..] == s;
  }

  /** A hexadecimal escape takes the digits that follow, and is the byte if none does. */
  lemma CHexByte(c: Byte, more: Text)
    ensures var p := CEscape([LETTER_X, HexDigit(c / 16), HexDigit(c % 16)] + more);
            && (p.Piece? ==> |p.bytes| == 1 && p.rest == more[HexRun(more)..])
            && (HexRun(more) == 0 ==> p == Piece([c], more))
  {
    var h, l, n := HexDigit(c / 16), HexDigit(c % 16), HexRun(more);
    var s := [LETTER_X, h, l] + more;
    var t := [h, l] + more;
    assert s[0] == LETTER_X && s[1..] == t;
    TwoDigits(h, l, more);
    assert s[1 + (2 + n)..] == more[n..];
    RunOfPrefix(t);
    if n == 0 {
      HexPair(h, l);
      assert HexNumber(t[..2], 0) == c;
    }
  }

  lemma TwoDigits(h: Byte, l: Byte, more: Text)
    requires IsXDigit(h) && IsXDigit(l)
    ensures HexRun([h, l] + more) == 2 + HexRun(more) && ([h, l] + more)[..2] == [h, l]
  {
    assert [h, l] + more == [h] + ([l] + more);
    RunStep(h, [l] + more);
    RunStep(l, more);
  }

  lemma HexPair(h: Byte, l: Byte)
    requires IsXDigit(h) && IsXDigit(l)
    ensures HexRun([h, l]) == 2 && HexNumber([h, l], 0) == 16 * HexaValue(h) + HexaValue(l)
  {
    assert [h, l][1..] == [l] && [l][1..] == [];
    assert HexRun([l]) == 1;
    assert HexNumber([l], HexaValue(h)) == HexNumber([], 16 * HexaValue(h) + HexaValue(l));
  }

  lemma CByte(c: Byte, prev: bool, rest: Text)
    requires AsHex(c, prev) ==> HexRun(rest) == 0
    ensures CChars(ByteText(c, prev) + rest) == Prefixed([c], CChars(rest))
  {
    if EscapeLetter(c) != 0 {
      CLetter(c, rest);
      CEscaped([EscapeLetter(c)], c, rest);
      assert ByteText(c, prev) == [BACKSLASH] + [EscapeLetter(c)];
    } else if AsHex(c, prev) {
      CHexByte(c, rest);
      CEscaped([LETTER_X, HexDigit(c / 16), HexDigit(c % 16)], c, rest);
      assert ByteText(c, prev) == [BACKSLASH] + [LETTER_X, HexDigit(c / 16), HexDigit(c % 16)];
    } else {
      PlainByte(c, prev);
      CPlain(c, rest);
    }
  }

  lemma CLetter(c: Byte, rest: Text)
    requires EscapeLetter(c) != 0
    ensures CEscape([EscapeLetter(c)] + rest) == Piece([c], rest)
  {
    Behind(EscapeLetter(c), [], rest);
    assert LetterByte(EscapeLetter(c)) == c;
  }

  lemma CPlain(c: Byte, rest: Text)
    requires c != QUOTE && c != BACKSLASH && c != NEWLINE
    ensures CChars([c] + rest) == Prefixed([c], CChars(rest))
  {
    assert ([c] + rest)[1..] == rest;
  }

  lemma CEscaped(t: Text, c: Byte, rest: Text)
    requires CEscape(t + rest) == Piece([c], rest)
    ensures CChars([BACKSLASH] + t + rest) == Prefixed([c], CChars(rest))
  {
    Behind(BACKSLASH, t, rest);
  }

  /** After a hexadecimal escape the next character is not a digit. */
  lemma NoDigitNext(data: Text, rest: Text)
    requires rest != [] && rest[0] == QUOTE
    ensures HexRun(Body(data, true) + rest) == 0
  {
    var s := Body(data, true) + rest;
    if data == [] {
      assert s == rest;
    } else {
      assert s[0] == ByteText(data[0], true)[0];
    }
  }

  lemma {:induction false} CBody(data: Text, prev: bool, tail: Text)
    requires tail != [] && tail[0] == QUOTE
    ensures CChars(Body(data, prev) + tail) == Done(data, tail[1..])
    decreases |data|
  {
    if data == [] {
      assert Body(data, prev) + tail == tail;
    } else {
      var hex := AsHex(data[0], prev);
      BodyText(data, prev, tail);
      if hex { NoDigitNext(data[1..], tail); }
      CByte(data[0], prev, Body(data[1..], hex) + tail);
      CBody(data[1..], hex, tail);
      assert [data[0]] + data[1..] == data;
    }
  }

  /** C reads back every byte string too. */
  lemma CRoundTrip(data: Text, rest: Text)
    ensures CChars((Literal(data) + rest)[1..]) == Done(data, rest)
  {
    LiteralText(data, rest);
    CBody(data, false, [QUOTE] + rest);
  }

  // ----- what the literals look like -----

  /** The digits in their order, and the value of a digit in either case. */
  lemma HexDigits(d: nat, e: nat)
    requires d < 16 && e < 16
    ensures HexDigit(d) < HexDigit(e) <==> d < e
    ensures 48 <= HexDigit(d) <= 57 || 97 <= HexDigit(d) <= 102
    ensures d >= 10 ==> HexaValue(HexDigit(d) - 32) == d
  {
  }

  /** A literal is printable ASCII. */
  lemma {:induction false} BodyPrintable(data: Text, prev: bool)
    ensures forall i :: 0 <= i < |Body(data, prev)| ==> 32 <= Body(data, prev)[i] <= 126
    decreases |data|
  {
    if data != [] {
      BodyPrintable(data[1..], AsHex(data[0], prev));
      BytePrintable(data[0], prev);
    }
  }

  lemma BytePrintable(c: Byte, prev: bool)
    ensures forall i :: 0 <= i < |ByteText(c, prev)| ==> 32 <= ByteText(c, prev)[i] <= 126
  {
    assert IsPrint(HexDigit(c / 16)) && IsPrint(HexDigit(c % 16));
  }

  /** Text without quotes and backslashes stands in it as it is. */
  lemma {:induction false} BodyOfText(data: Text)
    requires forall i :: 0 <= i < |data| ==> IsPrint(data[i]) && data[i] != QUOTE && data[i] != BACKSLASH
    ensures Body(data, false) == data
  {
    if data != [] {
      BodyOfText(data[1..]);
      assert EscapeLetter(data[0]) == 0;
      assert [data[0]] + data[1..] == data;
    }
  }

  /** The characters the letters stand for (section 3.1 of the Lua manual): bell, backspace,
      form feed and vertical tab are the control characters 7, 8, 12 and 11. */
  lemma LetterEscapes(rest: Text)
    ensures Escape(['n' as int] + rest) == Piece(['\n' as int], rest)
    ensures Escape(['r' as int] + rest) == Piece(['\r' as int], rest)
    ensures Escape(['t' as int] + rest) == Piece(['\t' as int], rest)
    ensures Escape(['\\' as int] + rest) == Piece(['\\' as int], rest)
    ensures Escape(['\"' as int] + rest) == Piece(['\"' as int], rest)
    ensures Escape(['\'' as int] + rest) == Piece(['\'' as int], rest)
    ensures Escape(['a' as int] + rest) == Piece([7], rest) && Escape(['b' as int] + rest) == Piece([8], rest)
    ensures Escape(['f' as int] + rest) == Piece([12], rest) && Escape(['v' as int] + rest) == Piece([11], rest)
  {
    forall c: Byte ensures ([c] + rest)[1..] == rest { }
  }

  // ----- escapes that are only read -----

  /** A number below 1000 in three digits. */
  function ThreeDigits(v: nat): Text
    requires v < 1000
  {
    [48 + v / 100, 48 + v / 10 % 10, 48 + v % 10]
  }

  /** Three digits are a decimal number, whatever follows. */
  lemma DecimalEscape(v: nat, rest: Text)
    requires v < 1000
    ensures Escape(ThreeDigits(v) + rest) == if v < 256 then Piece([v], rest) else Bad(DecimalTooLarge)
  {
    var t := ThreeDigits(v);
    var s := t + rest;
    assert s[1..] == [t[1], t[2]] + rest && s[1..][1..] == [t[2]] + rest && s[1..][1..][1..] == rest;
    var a, b := v / 100, v / 10 % 10;
    assert DecEscape(s, 0, 0) == DecEscape(s[1..], 1, a);
    assert DecEscape(s[1..], 1, a) == DecEscape(s[1..][1..], 2, 10 * a + b);
    assert 10 * (10 * a + b) + v % 10 == v;
    assert DecEscape(s[1..][1..], 2, 10 * a + b) == DecEscape(rest, 3, v);
  }

  /** Fewer digits are one too, where no digit follows. */
  lemma ShortDecimal(v: nat, rest: Text)
    requires v < 100 && (rest != [] ==> !IsDigit(rest[0]))
    ensures Escape([48 + v / 10, 48 + v % 10] + rest) == Piece([v], rest)
    ensures v < 10 ==> Escape([48 + v] + rest) == Piece([v], rest)
  {
    var s := [48 + v / 10, 48 + v % 10] + rest;
    assert s[1..] == [48 + v % 10] + rest && s[1..][1..] == rest;
    assert DecEscape(s, 0, 0) == DecEscape(s[1..], 1, v / 10);
    assert DecEscape(s[1..], 1, v / 10) == DecEscape(rest, 2, v);
    if v < 10 {
      assert ([48 + v] + rest)[1..] == rest;
      assert DecEscape([48 + v] + rest, 0, 0) == DecEscape(rest, 1, v);
    }
  }

  function HexText(n: nat): Text {
    if n < 16 then [HexDigit(n)] else HexText(n / 16) + [HexDigit(n % 16)]
  }

  /** A code point in hexadecimal, between braces. */
  function Braced(n: nat): Text { [117, OPEN_BRACE] + HexText(n) + [CLOSE_BRACE] }

  lemma {:induction false} HexRead(n: nat, tail: Text)
    ensures var s := [OPEN_BRACE] + HexText(n) + tail;
      Utf8Escape(s) == if n <= 0x10FFFF then Utf8Rest(tail, n) else Bad(Utf8TooLarge)
  {
    var s := [OPEN_BRACE] + HexText(n) + tail;
    if n < 16 {
      assert s[1] == HexDigit(n) && s[2..] == tail;
    } else {
      var more := [HexDigit(n % 16)] + tail;
      assert s == [OPEN_BRACE] + HexText(n / 16) + more;
      HexRead(n / 16, more);
      assert more[1..] == tail && n == 16 * (n / 16) + n % 16;
    }
  }

  /** `\u{...}` is the UTF-8 form of the code point, and an error beyond the last one. */
  lemma BracedEscape(n: nat, rest: Text)
    ensures Escape(Braced(n) + rest) == if n <= 0x10FFFF then Piece(Utf8(n), rest) else Bad(Utf8TooLarge)
  {
    var s, tail := Braced(n) + rest, [CLOSE_BRACE] + rest;
    assert s[1..] == [OPEN_BRACE] + HexText(n) + tail && tail[1..] == rest;
    HexRead(n, tail);
  }

  /** `\z` skips all the white space that follows. */
  lemma SkippedSpaces(spaces: Text, rest: Text)
    requires (forall i :: 0 <= i < |spaces| ==> IsSpace(spaces[i])) && (rest != [] ==> !IsSpace(rest[0]))
    ensures Escape([122] + spaces + rest) == Piece([], rest)
  {
    assert ([122] + spaces + rest)[1..] == spaces + rest;
    AllSkipped(spaces, rest);
  }

  lemma {:induction false} AllSkipped(spaces: Text, rest: Text)
    requires (forall i :: 0 <= i < |spaces| ==> IsSpace(spaces[i])) && (rest != [] ==> !IsSpace(rest[0]))
    ensures SkipSpaces(spaces + rest) == rest
  {
    if spaces == [] {
      assert spaces + rest == rest;
    } else {
      AllSkipped(spaces[1..], rest);
      assert (spaces + rest)[1..] == spaces[1..] + rest;
    }
  }

  // ----- what the flag is for -----

  /** Each byte printed as if no escape came before it. */
  function Plain(data: Text): Text {
    if data == [] then [] else ByteText(data[0], false) + Plain(data[1..])
  }

  /** No byte that needs a hexadecimal escape comes right before a hexadecimal digit. */
  predicate Clean(data: Text) {
    forall i :: 0 <= i < |data| - 1 && NeedsHex(data[i]) ==> !IsXDigit(data[i + 1])
  }

  lemma CleanStep(data: Text)
    requires data != []
    ensures Clean(data) <==>
            Clean(data[1..]) && (|data| >= 2 && NeedsHex(data[0]) ==> !IsXDigit(data[1]))
  {
    var t := data[1..];
    if Clean(data) {
      forall i | 0 <= i < |t| - 1 && NeedsHex(t[i]) ensures !IsXDigit(t[i + 1]) {
        assert t[i] == data[i + 1] && t[i + 1] == data[i + 2];
      }
    }
    if Clean(t) {
      forall i | 1 <= i < |data| - 1 && NeedsHex(data[i]) ensures !IsXDigit(data[i + 1]) {
        assert t[i - 1] == data[i] && t[i] == data[i + 1];
      }
    }
  }

  lemma HeadText(c: Byte, rest: Text)
    ensures HexRun(ByteText(c, false) + rest) == if IsXDigit(c) then 1 + HexRun(rest) else 0
    ensures IsXDigit(c) ==> ByteText(c, false) == [c]
  {
    var t := ByteText(c, false);
    assert t + rest == [t[0]] + (t[1..] + rest);
    RunStep(t[0], t[1..] + rest);
    if IsXDigit(c) { assert t[1..] + rest == rest; }
  }

  lemma FrontDigits(data: Text, k: nat, tail: Text)
    requires 1 + k <= |data|
    ensures data[..1 + k] + tail == [data[0]] + (data[1..][..k] + tail) && data[1 + k..] == data[1..][k..]
  {
    assert data[..1 + k] == [data[0]] + data[1..][..k];
  }

  /** Digits are printed as they are, and nothing else starts with one. */
  lemma {:induction false} PlainDigits(data: Text, rest: Text)
    requires HexRun(rest) == 0
    ensures HexRun(Plain(data) + rest) == HexRun(data)
    ensures Plain(data) + rest == data[..HexRun(data)] + (Plain(data[HexRun(data)..]) + rest)
  {
    if data == [] {
      assert Plain(data) + rest == rest;
    } else {
      var more := Plain(data[1..]) + rest;
      Associate(ByteText(data[0], false), Plain(data[1..]), rest);
      HeadText(data[0], more);
      if IsXDigit(data[0]) {
        PlainDigits(data[1..], rest);
        var k := HexRun(data[1..]);
        FrontDigits(data, k, Plain(data[1..][k..]) + rest);
      } else {
        assert data[..0] == [] && data[0..] == data;
      }
    }
  }

  /** Without the flag C never reads more bytes than were written, and reads fewer when a
      digit runs into an escape. */
  lemma {:induction false} PlainLength(data: Text, rest: Text)
    requires rest != [] && rest[0] == QUOTE
    ensures var o := CChars(Plain(data) + rest);
            o.Done? ==> |o.value| <= |data| && (|o.value| == |data| ==> Clean(data))
    decreases |data|
  {
    if data == [] {
      assert Plain(data) + rest == rest;
    } else {
      var c := data[0];
      var more := Plain(data[1..]) + rest;
      assert Plain(data) + rest == ByteText(c, false) + more;
      CleanStep(data);
      PlainDigits(data[1..], rest);
      var k := HexRun(data[1..]);
      if NeedsHex(c) && k > 0 {
        PlainLength(data[1..][k..], rest);
        SwallowedDigits(c, data[1..], rest);
      } else {
        CByte(c, false, more);
        PlainLength(data[1..], rest);
        assert k == 0 && |data| >= 2 ==> !IsXDigit(data[1]);
      }
    }
  }

  lemma SwallowedDigits(c: Byte, data: Text, rest: Text)
    requires NeedsHex(c) && HexRun(rest) == 0
    ensures var o := CChars(ByteText(c, false) + (Plain(data) + rest));
            var left := CChars(Plain(data[HexRun(data)..]) + rest);
            o.Done? ==> left.Done? && |o.value| == 1 + |left.value|
  {
    var more := Plain(data) + rest;
    var s := ByteText(c, false) + more;
    PlainDigits(data, rest);
    CHexByte(c, more);
    assert s[1..] == [LETTER_X, HexDigit(c / 16), HexDigit(c % 16)] + more;
    var k := HexRun(data);
    assert more[k..] == Plain(data[k..]) + rest;
  }

  lemma {:induction false} PlainWhenClean(data: Text, prev: bool)
    requires Clean(data) && (prev && data != [] ==> !IsXDigit(data[0]))
    ensures Body(data, prev) == Plain(data)
    decreases |data|
  {
    if data != [] {
      CleanStep(data);
      PlainWhenClean(data[1..], AsHex(data[0], prev));
    }
  }

  /** Without the flag, C reads back exactly the data in which no digit follows an escape. */
  lemma FlagNeeded(data: Text, rest: Text)
    ensures CChars(Plain(data) + [QUOTE] + rest) == Done(data, rest) <==> Clean(data)
  {
    assert Plain(data) + [QUOTE] + rest == Plain(data) + ([QUOTE] + rest);
    PlainLength(data, [QUOTE] + rest);
    if Clean(data) {
      PlainWhenClean(data, false);
      CBody(data, false, [QUOTE] + rest);
      assert ([QUOTE] + rest)[1..] == rest;
    }
  }
}
