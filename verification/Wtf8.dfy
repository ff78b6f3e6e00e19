/** Conversions between 16-bit units and WTF-8 or CESU-8. The little-endian and the wide
    string variants differ in how units are stored only. */
module Wtf8 {
  type Unit = u: int | 0 <= u < 0x10000
  type Byte = b: int | 0 <= b < 0x100
  type Char = c: int | 0 <= c < 0x1_0000_0000    // char32_t

  const NO_PREV: Char := 0xffffffff

  /** The largest code point. */
  const LAST: int := 0x10ffff

  // ----- surrogates -----

  predicate IsLead(c: int) { 0xd800 <= c <= 0xdbff }
  predicate IsTrail(c: int) { 0xdc00 <= c <= 0xdfff }
  predicate IsSurrogate(c: int) { 0xd800 <= c <= 0xdfff }

  /** Conversion to char16_t. */
  function Truncate(c: Char): Unit { c % 0x10000 }

  function FromPair(a: Unit, b: Unit): Char
    requires IsLead(a) && IsTrail(b)
  {
    0x10000 + (a - 0xd800) * 0x400 + (b - 0xdc00)
  }

  function LeadPair(cp: Char): Unit
    requires 0x10000 <= cp <= LAST
  {
    (cp - 0x10000) / 0x400 + 0xd800
  }

  function TrailPair(cp: Char): Unit
    requires 0x10000 <= cp <= LAST
  {
    (cp - 0x10000) % 0x400 + 0xdc00
  }

  lemma PairRoundTrip(a: Unit, b: Unit)
    requires IsLead(a) && IsTrail(b)
    ensures 0x10000 <= FromPair(a, b) <= LAST
    ensures LeadPair(FromPair(a, b)) == a && TrailPair(FromPair(a, b)) == b
  {
  }

  lemma PointRoundTrip(cp: Char)
    requires 0x10000 <= cp <= LAST
    ensures IsLead(LeadPair(cp)) && IsTrail(TrailPair(cp)) && FromPair(LeadPair(cp), TrailPair(cp)) == cp
  {
  }

  /** Pairs are in the order of their code points, the lead surrogate counting first. */
  lemma {:induction false} PairOrder(a: Unit, b: Unit, a2: Unit, b2: Unit)
    requires 0xd800 <= a <= 0xdbff && 0xdc00 <= b <= 0xdfff
    requires 0xd800 <= a2 <= 0xdbff && 0xdc00 <= b2 <= 0xdfff
    ensures Points([a, b]) == [FromPair(a, b)] && Points([a2, b2]) == [FromPair(a2, b2)]
    ensures FromPair(a, b) < FromPair(a2, b2) <==> a < a2 || (a == a2 && b < b2)
  {
    assert [a, b][2..] == [] && [a2, b2][2..] == [];
  }

  /** The code points of the pairs are those beyond 16 bits. With `PairOrder` this leaves
      one way to number the pairs. */
  lemma {:induction false} PairsOnto(cp: Char)
    ensures 0x10000 <= cp <= LAST <==>
      exists a: Unit, b: Unit :: 0xd800 <= a <= 0xdbff && 0xdc00 <= b <= 0xdfff && Points([a, b]) == [cp]
  {
    if 0x10000 <= cp <= LAST {
      PointRoundTrip(cp);
      PairOrder(LeadPair(cp), TrailPair(cp), LeadPair(cp), TrailPair(cp));
    }
    forall a: Unit, b: Unit | 0xd800 <= a <= 0xdbff && 0xdc00 <= b <= 0xdfff && Points([a, b]) == [cp]
      ensures 0x10000 <= cp <= LAST
    {
      PairOrder(a, b, a, b);
      PairRoundTrip(a, b);
    }
  }

  // ----- from units to code points -----

  /** The code points of a sequence of units: a lead and a trail surrogate make one, any
      other unit stands for itself. */
  function Points(s: seq<Unit>): (r: seq<Char>)
    ensures |r| <= |s|
  {
    if s == [] then []
    else if |s| >= 2 && IsLead(s[0]) && IsTrail(s[1]) then [FromPair(s[0], s[1])] + Points(s[2..])
    else [s[0]] + Points(s[1..])
  }

  /** Unpaired surrogates become U+FFFD. */
  function Replaced(cps: seq<Char>): (r: seq<Char>)
    ensures |r| == |cps|
    ensures forall i :: 0 <= i < |r| ==> r[i] == if IsSurrogate(cps[i]) then 0xfffd else cps[i]
  {
    seq(|cps|, i requires 0 <= i < |cps| => if IsSurrogate(cps[i]) then 0xfffd else cps[i])
  }

  function Joined(s: seq<Unit>, replace: bool): seq<Char> {
    if replace then Replaced(Points(s)) else Points(s)
  }

  /** What is still to come when `prev` is held back. */
  function Held(prev: Char, rest: seq<Unit>, replace: bool): seq<Char> {
    if prev == NO_PREV then Joined(rest, replace)
    else if prev < 0x10000 then Joined([prev] + rest, replace)
    else []
  }

  lemma ReplacedApart(a: seq<Char>, b: seq<Char>)
    ensures Replaced(a + b) == Replaced(a) + Replaced(b)
  {
  }

  /** Joins surrogates, one unit late. */
  class Utf16Parse {
    const replace: bool
    var prev: Char

    constructor (replace: bool)
      ensures this.replace == replace && prev == NO_PREV
    {
      this.replace := replace;
      prev := NO_PREV;
    }

    /** Takes a unit, or a larger code point; returns what it passes on. */
    method Put(c: Char) returns (out: seq<Char>)
      modifies this
      ensures |out| <= 1
      ensures old(prev) == NO_PREV ==> out == [] && prev == c
      ensures old(prev) < 0x10000 && c < 0x10000 && IsLead(old(prev)) && IsTrail(c) ==>
        out == [FromPair(old(prev), c)] && prev == NO_PREV
      ensures old(prev) < 0x10000 && c < 0x10000 && !(IsLead(old(prev)) && IsTrail(c)) ==>
        out == [if replace && IsSurrogate(old(prev)) then 0xfffd else old(prev)] && prev == c
    {
      if prev == NO_PREV {
        prev := c;
        return [];
      }
      if prev <= 0xffff && IsLead(prev) && IsTrail(Truncate(c)) {
        out := [FromPair(prev, Truncate(c))];
        prev := NO_PREV;
        return;
      }
      out := [if replace && c <= 0xffff && IsSurrogate(Truncate(prev)) then 0xfffd else prev];
      prev := c;
    }

    /** The streaming form passes on what the recursive one finds. */
    method PutUnit(c: Unit, ghost rest: seq<Unit>) returns (out: seq<Char>)
      requires prev == NO_PREV || prev < 0x10000
      modifies this
      ensures prev == NO_PREV || prev < 0x10000
      ensures out + Held(prev, rest, replace) == Held(old(prev), [c] + rest, replace)
    {
      ghost var before := prev;
      out := Put(c);
      if before != NO_PREV {
        HeldStep(before, c, rest, replace);
        assert [before] + ([c] + rest) == [before, c] + rest;
      }
    }

    /** Flushes with a zero, which is no trail surrogate. */
    method Flush() returns (out: seq<Char>)
      requires prev == NO_PREV || prev < 0x10000
      modifies this
      ensures out == Held(old(prev), [], replace)
    {
      ghost var before := prev;
      out := Put(0);
      if before != NO_PREV {
        assert [before] + [] == [before];
        assert Points([before]) == [before] + Points([before][1..]);
        if replace { ReplacedApart([before], []); }
      }
    }
  }

  lemma {:induction false} HeldStep(prev: Unit, c: Unit, rest: seq<Unit>, replace: bool)
    ensures IsLead(prev) && IsTrail(c) ==>
      Joined([prev, c] + rest, replace) == [FromPair(prev, c)] + Joined(rest, replace)
    ensures !(IsLead(prev) && IsTrail(c)) ==>
      Joined([prev, c] + rest, replace)
      == [if replace && IsSurrogate(prev) then 0xfffd else prev] + Joined([c] + rest, replace)
  {
    var s := [prev, c] + rest;
    assert s[2..] == rest && s[1..] == [c] + rest;
    if replace {
      if IsLead(prev) && IsTrail(c) {
        ReplacedApart([FromPair(prev, c)], Points(rest));
      } else {
        ReplacedApart([prev], Points([c] + rest));
      }
    }
  }

  // ----- from code points to bytes -----

  /** The bytes of a code point; CESU-8 writes zero in two bytes. */
  function Encoded(cp: Char, overlong0: bool): (r: seq<Byte>)
    requires cp <= LAST
    ensures 1 <= |r| <= 4
  {
    if cp == 0 && overlong0 then [0xc0, 0x80]
    else if cp < 0x80 then [cp]
    else if cp < 0x800 then [0xc0 + cp / 0x40, 0x80 + cp % 0x40]
    else if cp < 0x10000 then [0xe0 + cp / 0x1000, 0x80 + cp / 0x40 % 0x40, 0x80 + cp % 0x40]
    else [0xf0 + cp / 0x40000, 0x80 + cp / 0x1000 % 0x40, 0x80 + cp / 0x40 % 0x40, 0x80 + cp % 0x40]
  }

  predicate InRange(cps: seq<Char>) { forall i :: 0 <= i < |cps| ==> cps[i] <= LAST }

  function EncodedAll(cps: seq<Char>, overlong0: bool): seq<Byte>
    requires InRange(cps)
  {
    if cps == [] then [] else Encoded(cps[0], overlong0) + EncodedAll(cps[1..], overlong0)
  }

  lemma {:induction false} EncodedApart(a: seq<Char>, b: seq<Char>, overlong0: bool)
    requires InRange(a) && InRange(b)
    ensures InRange(a + b)
    ensures EncodedAll(a + b, overlong0) == EncodedAll(a, overlong0) + EncodedAll(b, overlong0)
  {
    if a == [] {
      assert a + b == b;
    } else {
      EncodedApart(a[1..], b, overlong0);
      var x, y, z := Encoded(a[0], overlong0), EncodedAll(a[1..], overlong0), EncodedAll(b, overlong0);
      assert (a + b)[0] == a[0] && (a + b)[1..] == a[1..] + b;
      assert EncodedAll(a + b, overlong0) == x + (y + z);
      assert x + (y + z) == (x + y) + z;
    }
  }

  /** Appends the bytes of the code points it is given. */
  lemma {:induction false} EncodedMore(cps: seq<Char>, i: nat, overlong0: bool)
    requires i < |cps| && InRange(cps)
    ensures EncodedAll(cps[..i + 1], overlong0) == EncodedAll(cps[..i], overlong0) + Encoded(cps[i], overlong0)
  {
    assert cps[..i + 1] == cps[..i] + [cps[i]];
    EncodedApart(cps[..i], [cps[i]], overlong0);
    assert EncodedAll([cps[i]], overlong0) == Encoded(cps[i], overlong0);
  }

  class Utf8Producer {
    const overlong0: bool
    var out: seq<Byte>

    constructor (out: seq<Byte>, overlong0: bool)
      ensures this.overlong0 == overlong0 && this.out == out
    {
      this.overlong0 := overlong0;
      this.out := out;
    }

    method Put(cp: Char)
      requires cp <= LAST
      modifies this
      ensures out == old(out) + Encoded(cp, overlong0)
    {
      if cp == 0 && overlong0 {
        out := out + [0xc0];
        out := out + [0x80];
      } else if cp < 0x80 {
        out := out + [cp];
      } else if cp < 0x800 {
        out := out + [0xc0 + cp / 0x40];
        out := out + [0x80 + cp % 0x40];
      } else if cp < 0x10000 {
        out := out + [0xe0 + cp / 0x1000];
        out := out + [0x80 + cp / 0x40 % 0x40];
        out := out + [0x80 + cp % 0x40];
      } else {
        out := out + [0xf0 + cp / 0x40000];
        out := out + [0x80 + cp / 0x1000 % 0x40];
        out := out + [0x80 + cp / 0x40 % 0x40];
        out := out + [0x80 + cp % 0x40];
      }
    }

    /** The calls of the producer made for one call further up. */
    method PutAll(cps: seq<Char>)
      requires InRange(cps)
      modifies this
      ensures out == old(out) + EncodedAll(cps, overlong0)
    {
      for i := 0 to |cps|
        invariant out == old(out) + EncodedAll(cps[..i], overlong0)
      {
        Put(cps[i]);
        EncodedMore(cps, i, overlong0);
      }
      assert cps[..|cps|] == cps;
    }
  }

  // ----- from bytes to code points -----

  /** The decoder's table for the upper five bits of a first byte: the length of the
      sequence, or zero, and the bits that belong to the code point. */
  function Lead(c: Byte): (int, int) {
    var i := c / 8;
    if i < 16 then (1, i)
    else if i < 24 then (0, 0)
    else if i < 28 then (2, i - 24)
    else if i < 30 then (3, i - 28)
    else if i < 31 then (4, 0)
    else (0, 0)
  }

  datatype Parsed = Parsed(cps: seq<Char>, ok: bool)

  function Value(c: Byte): int { Lead(c).1 * 8 + c % 8 }

  /** Adds the six low bits of each byte; the high ones are not looked at. */
  function Continued(cp: int, bytes: seq<Byte>): (r: int)
    requires cp >= 0
    ensures r >= 0
    ensures |bytes| == 0 ==> r == cp
    decreases |bytes|
  {
    if bytes == [] then cp else Continued(cp * 0x40 + bytes[0] % 0x40, bytes[1..])
  }

  /** The code points found up to the end or up to the first error. */
  function Decoded(b: seq<Byte>): Parsed {
    if b == [] then Parsed([], true)
    else
      var n := Lead(b[0]).0;
      if n == 0 || |b| < n then Parsed([], false)
      else
        FourBytes(b[0], b[1..n]);
        var rest := Decoded(b[n..]);
        Parsed([Continued(Value(b[0]), b[1..n])] + rest.cps, rest.ok)
  }

  lemma {:induction false} FourBytes(c: Byte, tail: seq<Byte>)
    requires |tail| < 4
    ensures 0 <= Continued(Value(c), tail) < 0x1_0000_0000
  {
    assert 0 <= Value(c) < 0x80;
    if |tail| == 1 {
      assert tail == [tail[0]];
      ContinuedOne(Value(c), tail[0]);
    } else if |tail| == 2 {
      assert tail == [tail[0], tail[1]];
      ContinuedTwo(Value(c), tail[0], tail[1]);
    } else if |tail| == 3 {
      assert tail == [tail[0], tail[1], tail[2]];
      ContinuedThree(Value(c), tail[0], tail[1], tail[2]);
    }
  }

  lemma {:induction false} ContinuedOne(cp: int, a: Byte)
    requires cp >= 0
    ensures Continued(cp, [a]) == cp * 0x40 + a % 0x40
  {
    assert [a][1..] == [];
  }

  lemma {:induction false} ContinuedTwo(cp: int, a: Byte, b: Byte)
    requires cp >= 0
    ensures Continued(cp, [a, b]) == (cp * 0x40 + a % 0x40) * 0x40 + b % 0x40
  {
    assert [a, b][1..] == [b];
    ContinuedOne(cp * 0x40 + a % 0x40, b);
  }

  lemma {:induction false} ContinuedThree(cp: int, a: Byte, b: Byte, c: Byte)
    requires cp >= 0
    ensures Continued(cp, [a, b, c]) == ((cp * 0x40 + a % 0x40) * 0x40 + b % 0x40) * 0x40 + c % 0x40
  {
    assert [a, b, c][1..] == [b, c];
    ContinuedTwo(cp * 0x40 + a % 0x40, b, c);
  }

  /** Decoding the bytes of a code point gives it back. */
  lemma {:induction false} EncodedDecodes(cp: Char, overlong0: bool)
    requires cp <= LAST
    ensures var e := Encoded(cp, overlong0);
      Lead(e[0]).0 == |e| && Continued(Value(e[0]), e[1..]) == cp
  {
    var e := Encoded(cp, overlong0);
    FirstByte(cp, overlong0);
    if |e| == 1 {
      assert e[1..] == [];
    } else if |e| == 2 {
      assert e[1..] == [e[1]];
      ContinuedOne(Value(e[0]), e[1]);
    } else if |e| == 3 {
      assert e[1..] == [e[1], e[2]];
      ContinuedTwo(Value(e[0]), e[1], e[2]);
      ThreeDigits(cp);
    } else {
      assert e[1..] == [e[1], e[2], e[3]];
      ContinuedThree(Value(e[0]), e[1], e[2], e[3]);
      FourDigits(cp);
    }
  }

  lemma FirstByte(cp: Char, overlong0: bool)
    requires cp <= LAST
    ensures var e := Encoded(cp, overlong0);
      && Lead(e[0]).0 == |e|
      && (|e| == 1 ==> Value(e[0]) == cp)
      && (|e| == 2 ==> Value(e[0]) == cp / 0x40 && e[1] % 0x40 == cp % 0x40)
      && (|e| == 3 ==> Value(e[0]) == cp / 0x1000 && e[1] % 0x40 == cp / 0x40 % 0x40 && e[2] % 0x40 == cp % 0x40)
      && (|e| == 4 ==> Value(e[0]) == cp / 0x40000 && e[1] % 0x40 == cp / 0x1000 % 0x40)
      && (|e| == 4 ==> e[2] % 0x40 == cp / 0x40 % 0x40 && e[3] % 0x40 == cp % 0x40)
  {
  }

  lemma ThreeDigits(cp: int)
    requires 0 <= cp
    ensures (cp / 0x1000 * 0x40 + cp / 0x40 % 0x40) * 0x40 + cp % 0x40 == cp
  {
  }

  lemma FourDigits(cp: int)
    requires 0 <= cp
    ensures ((cp / 0x40000 * 0x40 + cp / 0x1000 % 0x40) * 0x40 + cp / 0x40 % 0x40) * 0x40 + cp % 0x40 == cp
  {
    var a := cp / 0x40;
    var b := a / 0x40;
    assert b == cp / 0x1000 && b / 0x40 == cp / 0x40000;
    assert b == b / 0x40 * 0x40 + b % 0x40 && a == b * 0x40 + a % 0x40 && cp == a * 0x40 + cp % 0x40;
  }

  lemma {:induction false} DecodedStep(cp: Char, overlong0: bool, rest: seq<Byte>)
    requires cp <= LAST
    ensures Decoded(Encoded(cp, overlong0) + rest) == Parsed([cp] + Decoded(rest).cps, Decoded(rest).ok)
  {
    var e := Encoded(cp, overlong0);
    EncodedDecodes(cp, overlong0);
    assert (e + rest)[0] == e[0] && (e + rest)[1..|e|] == e[1..] && (e + rest)[|e|..] == rest;
  }

  /** Decoding undoes encoding. */
  lemma {:induction false} DecodedAll(cps: seq<Char>, overlong0: bool)
    requires InRange(cps)
    ensures Decoded(EncodedAll(cps, overlong0)) == Parsed(cps, true)
  {
    if cps != [] {
      DecodedAll(cps[1..], overlong0);
      DecodedStep(cps[0], overlong0, EncodedAll(cps[1..], overlong0));
    }
  }

  /** What the bytes from here on give when `cp` and `n` more bytes are one code point. */
  function Pending(cp: Char, n: nat, b: seq<Byte>): Parsed {
    if n == 0 then Decoded(b)
    else if |b| < n || Continued(cp, b[..n]) >= 0x1_0000_0000 then Parsed([], false)
    else Parsed([Continued(cp, b[..n])] + Decoded(b[n..]).cps, Decoded(b[n..]).ok)
  }

  function Before(cps: seq<Char>, p: Parsed): Parsed { Parsed(cps + p.cps, p.ok) }

  lemma {:induction false} PendingStep(cp: Char, n: nat, b: seq<Byte>)
    requires n > 0 && b != [] && cp * 0x40 + 0x40 <= 0x1_0000_0000
    ensures n == 1 ==>
      Pending(cp, n, b) == Before([cp * 0x40 + b[0] % 0x40], Decoded(b[1..]))
    ensures n > 1 ==> Pending(cp, n, b) == Pending(cp * 0x40 + b[0] % 0x40, n - 1, b[1..])
  {
    var cp2 := cp * 0x40 + b[0] % 0x40;
    if |b| >= n {
      assert b[..n][0] == b[0] && b[..n][1..] == b[1..][..n - 1];
      assert Continued(cp, b[..n]) == Continued(cp2, b[1..][..n - 1]);
      assert b[n..] == b[1..][n - 1..];
    }
  }

  lemma {:induction false} DecodedFirst(b: seq<Byte>)
    requires b != []
    ensures Lead(b[0]).0 == 0 ==> Decoded(b) == Parsed([], false)
    ensures Lead(b[0]).0 == 1 ==> Decoded(b) == Before([Value(b[0])], Decoded(b[1..]))
    ensures Lead(b[0]).0 > 1 ==> Decoded(b) == Pending(Value(b[0]), Lead(b[0]).0 - 1, b[1..])
  {
    var n := Lead(b[0]).0;
    if n > 0 && |b| >= n {
      assert b[1..n] == b[1..][..n - 1] && b[n..] == b[1..][n - 1..];
      FourBytes(b[0], b[1..n]);
    }
  }

  /** One byte more: `cp2` is the code point so far, and `rem2` counts this byte. */
  lemma {:induction false} ParseStep(cps: seq<Char>, cp: Char, rem: nat, rest: seq<Byte>, cp2: Char, rem2: int)
    requires rest != [] && rem <= 3 && rem2 != 0
    requires rem == 0 ==> rem2 == Lead(rest[0]).0 && cp2 == Value(rest[0])
    requires rem > 0 ==> cp * 0x40 + 0x40 <= 0x1_0000_0000 && rem2 == rem && cp2 == cp * 0x40 + rest[0] % 0x40
    ensures rem2 == 1 ==> Before(cps, Pending(cp, rem, rest)) == Before(cps + [cp2], Decoded(rest[1..]))
    ensures rem2 >= 1
    ensures rem2 > 1 ==> Before(cps, Pending(cp, rem, rest)) == Before(cps, Pending(cp2, rem2 - 1, rest[1..]))
  {
    if rem == 0 { DecodedFirst(rest); } else { PendingStep(cp, rem, rest); }
    assert forall p: Parsed :: Before(cps, Before([cp2], p)).cps == (cps + [cp2]) + p.cps;
  }

  /** Decodes byte by byte; returns the code points found and whether there was no error. */
  method Utf8Parse(b: seq<Byte>) returns (cps: seq<Char>, ok: bool)
    ensures Parsed(cps, ok) == Decoded(b)
  {
    cps := [];
    var rem := 0;
    var cp: Char := 0;
    ghost var n := 0;   // bytes of the present code point so far
    assert b[0..] == b;
    for i := 0 to |b|
      invariant 0 <= rem <= 3 && n + rem <= 4 && (rem > 0 ==> n >= 1 && cp < Power64(n))
      invariant Before(cps, Pending(cp, rem, b[i..])) == Decoded(b)
    {
      ghost var rest := b[i..];
      ghost var cp0, rem0 := cp, rem;
      if rem == 0 {
        var (len, extra) := Lead(b[i]);
        if len == 0 {
          DecodedFirst(rest);
          return cps, false;
        }
        rem := len;
        cp := extra * 8 + b[i] % 8;
        n := 1;
      } else {
        Power64Grows(cp, n);
        cp := cp * 0x40 + b[i] % 0x40;
        n := n + 1;
      }
      ParseStep(cps, cp0, rem0, rest, cp, rem);
      assert rest[1..] == b[i + 1..];
      rem := rem - 1;
      if rem == 0 {
        cps := cps + [cp];
      }
    }
    ok := rem == 0;
    assert b[|b|..] == [];
  }

  function Power64(n: nat): int {
    if n == 0 then 1 else if n == 1 then 0x80 else if n == 2 then 0x2000 else if n == 3 then 0x80000 else 0x2000000
  }

  lemma Power64Grows(cp: Char, n: nat)
    requires 1 <= n <= 3 && cp < Power64(n)
    ensures cp * 0x40 + 0x40 <= Power64(n + 1) <= 0x1_0000_0000
  {
  }

  // ----- from code points to units -----

  function Units(cp: Char): seq<Unit>
    requires cp <= LAST
  {
    if cp >= 0x10000 then [LeadPair(cp), TrailPair(cp)] else [cp]
  }

  function UnitsAll(cps: seq<Char>): seq<Unit>
    requires InRange(cps)
  {
    if cps == [] then [] else Units(cps[0]) + UnitsAll(cps[1..])
  }

  lemma {:induction false} UnitsApart(a: seq<Char>, b: seq<Char>)
    requires InRange(a) && InRange(b)
    ensures InRange(a + b) && UnitsAll(a + b) == UnitsAll(a) + UnitsAll(b)
  {
    if a == [] {
      assert a + b == b;
    } else {
      UnitsApart(a[1..], b);
      var x, y, z := Units(a[0]), UnitsAll(a[1..]), UnitsAll(b);
      assert (a + b)[0] == a[0] && (a + b)[1..] == a[1..] + b;
      assert UnitsAll(a + b) == x + (y + z);
      assert x + (y + z) == (x + y) + z;
    }
  }

  lemma {:induction false} PointsInRange(s: seq<Unit>)
    ensures InRange(Points(s))
  {
    if s != [] {
      if |s| >= 2 && IsLead(s[0]) && IsTrail(s[1]) {
        PairRoundTrip(s[0], s[1]);
        PointsInRange(s[2..]);
      } else {
        PointsInRange(s[1..]);
      }
    }
  }

  /** Taking the code points apart again gives the units. */
  lemma {:induction false} UnitsOfPoints(s: seq<Unit>)
    ensures InRange(Points(s)) && UnitsAll(Points(s)) == s
  {
    PointsInRange(s);
    if s != [] {
      if |s| >= 2 && IsLead(s[0]) && IsTrail(s[1]) {
        PairRoundTrip(s[0], s[1]);
        UnitsOfPoints(s[2..]);
        assert Points(s)[1..] == Points(s[2..]);
        assert s == [s[0], s[1]] + s[2..];
      } else {
        UnitsOfPoints(s[1..]);
        assert Points(s)[1..] == Points(s[1..]);
        assert s == [s[0]] + s[1..];
      }
    }
  }

  /** No lead surrogate is directly followed by a trail surrogate. */
  predicate Canonical(cps: seq<Char>) {
    forall i :: 0 <= i < |cps| - 1 ==> !(IsLead(cps[i]) && IsTrail(cps[i + 1]))
  }

  /** Joining leaves no pair of surrogates behind. */
  lemma {:induction false} PointsCanonical(s: seq<Unit>)
    ensures Canonical(Points(s))
  {
    if s != [] {
      if |s| >= 2 && IsLead(s[0]) && IsTrail(s[1]) {
        PairRoundTrip(s[0], s[1]);
        PointsCanonical(s[2..]);
        CanonicalStep(FromPair(s[0], s[1]), Points(s[2..]));
      } else {
        PointsCanonical(s[1..]);
        if |s| >= 2 { FirstPoint(s[1..]); }
        CanonicalStep(s[0], Points(s[1..]));
      }
    }
  }

  lemma {:induction false} FirstPoint(s: seq<Unit>)
    requires s != []
    ensures Points(s) != [] && (Points(s)[0] < 0x10000 ==> Points(s)[0] == s[0])
  {
  }

  lemma {:induction false} CanonicalStep(cp: Char, rest: seq<Char>)
    requires Canonical(rest) && (rest != [] ==> !(IsLead(cp) && IsTrail(rest[0])))
    ensures Canonical([cp] + rest)
  {
    var s := [cp] + rest;
    forall i | 0 <= i < |s| - 1 ensures !(IsLead(s[i]) && IsTrail(s[i + 1])) {
      if i > 0 { assert s[i] == rest[i - 1] && s[i + 1] == rest[i - 1 + 1]; }
    }
  }

  /** Joining undoes taking apart, where there is no pair of surrogates to begin with. */
  lemma {:induction false} PointsOfUnits(cps: seq<Char>)
    requires InRange(cps) && Canonical(cps)
    ensures Points(UnitsAll(cps)) == cps
  {
    if cps != [] {
      var rest := cps[1..];
      assert Canonical(rest) by {
        forall i | 0 <= i < |rest| - 1 ensures !(IsLead(rest[i]) && IsTrail(rest[i + 1])) {
          assert rest[i] == cps[i + 1] && rest[i + 1] == cps[i + 1 + 1];
        }
      }
      PointsOfUnits(rest);
      var u, us := Units(cps[0]), UnitsAll(rest);
      assert cps == [cps[0]] + rest;
      if cps[0] >= 0x10000 {
        PointRoundTrip(cps[0]);
        assert (u + us)[2..] == us;
      } else {
        assert (u + us)[1..] == us;
        if |u + us| >= 2 && IsTrail((u + us)[1]) { NextUnit(rest); }
      }
    }
  }

  lemma {:induction false} NextUnit(cps: seq<Char>)
    requires InRange(cps) && UnitsAll(cps) != [] && IsTrail(UnitsAll(cps)[0])
    ensures cps != [] && cps[0] == UnitsAll(cps)[0]
  {
    if cps[0] >= 0x10000 { PointRoundTrip(cps[0]); }
  }

  // ----- the conversions -----

  function Wtf8Of(s: seq<Unit>): seq<Byte> {
    PointsInRange(s);
    EncodedAll(Points(s), false)
  }

  function Utf8Of(s: seq<Unit>): seq<Byte> {
    PointsInRange(s);
    EncodedAll(Replaced(Points(s)), false)
  }

  function Cesu8Of(s: seq<Unit>): seq<Byte> {
    EncodedAll(s, true)
  }

  lemma {:induction false} ProducedMore(out: seq<Byte>, done: seq<Char>, cps: seq<Char>, overlong0: bool)
    requires InRange(done) && InRange(cps)
    ensures InRange(done + cps)
    ensures (out + EncodedAll(done, overlong0)) + EncodedAll(cps, overlong0)
      == out + EncodedAll(done + cps, overlong0)
  {
    EncodedApart(done, cps, overlong0);
  }

  /** What the joiner `p` and the producer behind it have done, and have still to do, of
      the code points `whole`. */
  ghost predicate Halfway(p: Utf16Parse, producer: Utf8Producer, out: seq<Byte>, done: seq<Char>,
                          rest: seq<Unit>, whole: seq<Char>)
    reads p, producer
  {
    && (p.prev == NO_PREV || p.prev < 0x10000)
    && InRange(whole) && InRange(done) && done + Held(p.prev, rest, p.replace) == whole
    && producer.out == out + EncodedAll(done, producer.overlong0)
  }

  /** Feeds a unit to the joiner and what that passes on to the producer. */
  method Pass(p: Utf16Parse, producer: Utf8Producer, c: Unit, ghost out: seq<Byte>, ghost done: seq<Char>,
              ghost rest: seq<Unit>, ghost whole: seq<Char>)
    returns (ghost done2: seq<Char>)
    requires Halfway(p, producer, out, done, [c] + rest, whole)
    modifies p, producer
    ensures Halfway(p, producer, out, done2, rest, whole)
  {
    var cps := p.PutUnit(c, rest);
    PartInRange(done, cps, Held(p.prev, rest, p.replace), whole);
    ProducedMore(out, done, cps, producer.overlong0);
    producer.PutAll(cps);
    done2 := done + cps;
  }

  method PassLast(p: Utf16Parse, producer: Utf8Producer, ghost out: seq<Byte>, ghost done: seq<Char>,
                  ghost whole: seq<Char>)
    requires Halfway(p, producer, out, done, [], whole)
    modifies p, producer
    ensures InRange(whole) && producer.out == out + EncodedAll(whole, producer.overlong0)
  {
    var cps := p.Flush();
    assert cps + [] == cps && done + cps + [] == done + cps;
    PartInRange(done, cps, [], whole);
    ProducedMore(out, done, cps, producer.overlong0);
    producer.PutAll(cps);
  }

  method GenWtf16ToWtf8(out: seq<Byte>, s: seq<Unit>, replace: bool) returns (r: seq<Byte>)
    ensures r == out + if replace then Utf8Of(s) else Wtf8Of(s)
  {
    var producer := new Utf8Producer(out, false);
    var p := new Utf16Parse(replace);
    PointsInRange(s);
    ghost var done := PassAll(p, producer, s, out, Joined(s, replace));
    PassLast(p, producer, out, done, Joined(s, replace));
    r := producer.out;
  }

  method PassAll(p: Utf16Parse, producer: Utf8Producer, s: seq<Unit>, ghost out: seq<Byte>, ghost whole: seq<Char>)
    returns (ghost done: seq<Char>)
    requires Halfway(p, producer, out, [], s, whole)
    modifies p, producer
    ensures Halfway(p, producer, out, done, [], whole)
  {
    done := [];
    assert s[0..] == s;
    for i := 0 to |s|
      invariant Halfway(p, producer, out, done, s[i..], whole)
    {
      assert s[i..] == [s[i]] + s[i + 1..];
      done := Pass(p, producer, s[i], out, done, s[i + 1..], whole);
    }
    assert s[|s|..] == [];
  }

  lemma {:induction false} PartInRange(a: seq<Char>, b: seq<Char>, c: seq<Char>, whole: seq<Char>)
    requires InRange(whole) && a + (b + c) == whole
    ensures InRange(b) && (a + b) + c == whole
  {
    forall i | 0 <= i < |b| ensures b[i] <= LAST {
      assert b[i] == whole[|a| + i];
    }
    assert (a + b) + c == a + (b + c);
  }

  method GenWtf16ToCesu8(out: seq<Byte>, s: seq<Unit>) returns (r: seq<Byte>)
    ensures r == out + Cesu8Of(s)
  {
    var p := new Utf8Producer(out, true);
    for i := 0 to |s|
      invariant p.overlong0 && p.out == out + EncodedAll(s[..i], true)
    {
      p.Put(s[i]);
      assert s[..i + 1] == s[..i] + [s[i]];
      EncodedApart(s[..i], [s[i]], true);
      assert EncodedAll([s[i]], true) == Encoded(s[i], true);
    }
    assert s[..|s|] == s;
    r := p.out;
  }

  /** Decodes to units; what was decoded before an error has been appended. */
  method GenWtf8ToWtf16(out: seq<Unit>, b: seq<Byte>) returns (r: seq<Unit>, ok: bool)
    requires InRange(Decoded(b).cps)
    ensures r == out + UnitsAll(Decoded(b).cps) && ok == Decoded(b).ok
  {
    var cps;
    cps, ok := Utf8Parse(b);
    r := out;
    for i := 0 to |cps|
      invariant r == out + UnitsAll(cps[..i])
    {
      UnitsStep(cps, i);
      if cps[i] >= 0x10000 {
        r := r + [LeadPair(cps[i])];
        r := r + [TrailPair(cps[i])];
      } else {
        r := r + [cps[i]];
      }
    }
    assert cps[..|cps|] == cps;
  }

  lemma {:induction false} UnitsStep(cps: seq<Char>, i: nat)
    requires InRange(cps) && i < |cps|
    ensures UnitsAll(cps[..i + 1]) == UnitsAll(cps[..i]) + Units(cps[i])
  {
    assert cps[..i + 1] == cps[..i] + [cps[i]];
    UnitsApart(cps[..i], [cps[i]]);
    assert UnitsAll([cps[i]]) == Units(cps[i]);
  }

  method Wtf8ToCesu8(out: seq<Byte>, b: seq<Byte>) returns (r: seq<Byte>, ok: bool)
    requires InRange(Decoded(b).cps)
    ensures r == out + Cesu8Of(UnitsAll(Decoded(b).cps)) && ok == Decoded(b).ok
  {
    var cps;
    cps, ok := Utf8Parse(b);
    var p := new Utf8Producer(out, true);
    for i := 0 to |cps|
      invariant p.overlong0 && p.out == out + Cesu8Of(UnitsAll(cps[..i]))
    {
      UnitsStep(cps, i);
      ProducedMore(out, UnitsAll(cps[..i]), Units(cps[i]), true);
      p.PutAll(Units(cps[i]));
    }
    assert cps[..|cps|] == cps;
    r := p.out;
  }

  predicate AllUnits(cps: seq<Char>) { forall i :: 0 <= i < |cps| ==> cps[i] < 0x10000 }

  /** Flushes only if there was no error. */
  method Cesu8ToWtf8(out: seq<Byte>, b: seq<Byte>) returns (r: seq<Byte>, ok: bool)
    requires AllUnits(Decoded(b).cps)
    ensures ok == Decoded(b).ok
    ensures ok ==> r == out + Wtf8Of(Decoded(b).cps)
  {
    var cps;
    cps, ok := Utf8Parse(b);
    var producer := new Utf8Producer(out, false);
    var p := new Utf16Parse(false);
    PointsInRange(cps);
    ghost var done := PassAll(p, producer, cps, out, Points(cps));
    if ok {
      PassLast(p, producer, out, done, Points(cps));
    }
    r := producer.out;
  }

  // ----- round trips -----

  /** From units to WTF-8 and back. */
  lemma Wtf8RoundTrip(s: seq<Unit>)
    ensures Decoded(Wtf8Of(s)).ok && InRange(Decoded(Wtf8Of(s)).cps)
    ensures UnitsAll(Decoded(Wtf8Of(s)).cps) == s
  {
    PointsInRange(s);
    DecodedAll(Points(s), false);
    UnitsOfPoints(s);
  }

  /** From units to CESU-8 and back. */
  lemma Cesu8RoundTrip(s: seq<Unit>)
    ensures Decoded(Cesu8Of(s)) == Parsed(s, true) && InRange(s) && UnitsAll(s) == s
  {
    DecodedAll(s, true);
    UnitsOfUnits(s);
  }

  lemma {:induction false} UnitsOfUnits(s: seq<Unit>)
    ensures InRange(s) && UnitsAll(s) == s
  {
    if s != [] {
      UnitsOfUnits(s[1..]);
      assert s == [s[0]] + s[1..];
    }
  }

  /** Different sequences of units have different WTF-8 and different CESU-8. */
  lemma Injective(s: seq<Unit>, t: seq<Unit>)
    ensures Wtf8Of(s) == Wtf8Of(t) ==> s == t
    ensures Cesu8Of(s) == Cesu8Of(t) ==> s == t
  {
    Wtf8RoundTrip(s);
    Wtf8RoundTrip(t);
    Cesu8RoundTrip(s);
    Cesu8RoundTrip(t);
  }

  /** From WTF-8 without encoded pairs of surrogates to units and back. */
  lemma PointsRoundTrip(cps: seq<Char>)
    requires InRange(cps) && Canonical(cps)
    ensures Decoded(EncodedAll(cps, false)) == Parsed(cps, true)
    ensures Wtf8Of(UnitsAll(cps)) == EncodedAll(cps, false)
  {
    DecodedAll(cps, false);
    PointsOfUnits(cps);
  }

  /** Converting from CESU-8 to WTF-8, or from WTF-8 to CESU-8, gives what converting the
      units gives. */
  lemma Commutes(s: seq<Unit>)
    ensures Decoded(Cesu8Of(s)).ok && AllUnits(Decoded(Cesu8Of(s)).cps)
    ensures Wtf8Of(Decoded(Cesu8Of(s)).cps) == Wtf8Of(s)
    ensures Decoded(Wtf8Of(s)).ok && InRange(Decoded(Wtf8Of(s)).cps)
    ensures Cesu8Of(UnitsAll(Decoded(Wtf8Of(s)).cps)) == Cesu8Of(s)
  {
    Cesu8RoundTrip(s);
    Wtf8RoundTrip(s);
  }

  // ----- well-formed UTF-8 -----

  predicate Tail(b: Byte) { 0x80 <= b <= 0xbf }

  /** The syntax of UTF-8 byte sequences of section 4 of RFC 3629. */
  predicate WellFormed(b: seq<Byte>) {
    if b == [] then true
    else if b[0] <= 0x7f then WellFormed(b[1..])
    else if 0xc2 <= b[0] <= 0xdf then |b| >= 2 && Tail(b[1]) && WellFormed(b[2..])
    else if 0xe0 <= b[0] <= 0xef then
      && |b| >= 3 && Tail(b[1]) && Tail(b[2]) && WellFormed(b[3..])
      && (b[0] == 0xe0 ==> 0xa0 <= b[1]) && (b[0] == 0xed ==> b[1] <= 0x9f)
    else if 0xf0 <= b[0] <= 0xf4 then
      && |b| >= 4 && Tail(b[1]) && Tail(b[2]) && Tail(b[3]) && WellFormed(b[4..])
      && (b[0] == 0xf0 ==> 0x90 <= b[1]) && (b[0] == 0xf4 ==> b[1] <= 0x8f)
    else false
  }

  lemma {:induction false} EncodedWellFormed(cp: Char, rest: seq<Byte>)
    requires cp <= LAST && !IsSurrogate(cp) && WellFormed(rest)
    ensures WellFormed(Encoded(cp, false) + rest)
  {
    var e := Encoded(cp, false);
    assert (e + rest)[|e|..] == rest;
  }

  /** Byte by byte, a proper prefix first. */
  predicate Before8(s: seq<Byte>, t: seq<Byte>) {
    t != [] && (s == [] || s[0] < t[0] || (s[0] == t[0] && Before8(s[1..], t[1..])))
  }

  /** Number by number, a proper prefix first. */
  predicate Before32(s: seq<Char>, t: seq<Char>) {
    t != [] && (s == [] || s[0] < t[0] || (s[0] == t[0] && Before32(s[1..], t[1..])))
  }

  lemma {:induction false} CommonPrefix(e: seq<Byte>, s: seq<Byte>, t: seq<Byte>)
    ensures Before8(e + s, e + t) <==> Before8(s, t)
  {
    if e == [] {
      assert e + s == s && e + t == t;
    } else {
      assert (e + s)[1..] == e[1..] + s && (e + t)[1..] == e[1..] + t;
      CommonPrefix(e[1..], s, t);
    }
  }

  /** The smaller code point has the smaller one of the first bytes that differ. */
  lemma FirstDifference(c: Char, d: Char) returns (k: nat)
    requires c < d <= LAST
    ensures var e, f := Encoded(c, false), Encoded(d, false);
      k < |e| && k < |f| && e[..k] == f[..k] && e[k] < f[k]
  {
    k := 0;
    if 0x80 <= c && d < 0x800 {
      k := FirstOfTwo(c, d);
    } else if 0x800 <= c && d < 0x10000 {
      k := FirstOfThree(c, d);
    } else if 0x10000 <= c {
      k := FirstOfFour(c, d);
    }
  }

  lemma FirstOfTwo(c: Char, d: Char) returns (k: nat)
    requires 0x80 <= c < d < 0x800
    ensures var e, f := Encoded(c, false), Encoded(d, false);
      k < |e| == |f| && e[..k] == f[..k] && e[k] < f[k]
  {
    k := if c / 0x40 == d / 0x40 then 1 else 0;
  }

  lemma FirstOfThree(c: Char, d: Char) returns (k: nat)
    requires 0x800 <= c < d < 0x10000
    ensures var e, f := Encoded(c, false), Encoded(d, false);
      k < |e| == |f| && e[..k] == f[..k] && e[k] < f[k]
  {
    ThreeDigits(c);
    ThreeDigits(d);
    var i := Lexicographic([0, c / 0x1000, c / 0x40 % 0x40, c % 0x40], [0, d / 0x1000, d / 0x40 % 0x40, d % 0x40]);
    k := i - 1;
  }

  lemma FirstOfFour(c: Char, d: Char) returns (k: nat)
    requires 0x10000 <= c < d <= LAST
    ensures var e, f := Encoded(c, false), Encoded(d, false);
      k < |e| == |f| && e[..k] == f[..k] && e[k] < f[k]
  {
    FourDigits(c);
    FourDigits(d);
    k := FourOrder(c / 0x40000, c / 0x1000 % 0x40, c / 0x40 % 0x40, c % 0x40,
                   d / 0x40000, d / 0x1000 % 0x40, d / 0x40 % 0x40, d % 0x40);
  }

  lemma FourOrder(x0: nat, x1: nat, x2: nat, x3: nat, y0: nat, y1: nat, y2: nat, y3: nat) returns (k: nat)
    requires x0 < 5 && x1 < 0x40 && x2 < 0x40 && x3 < 0x40 && y0 < 5 && y1 < 0x40 && y2 < 0x40 && y3 < 0x40
    requires ((x0 * 0x40 + x1) * 0x40 + x2) * 0x40 + x3 < ((y0 * 0x40 + y1) * 0x40 + y2) * 0x40 + y3
    ensures var e, f := [0xf0 + x0, 0x80 + x1, 0x80 + x2, 0x80 + x3], [0xf0 + y0, 0x80 + y1, 0x80 + y2, 0x80 + y3];
      k < 4 && e[..k] == f[..k] && e[k] < f[k]
  {
    k := Lexicographic([x0, x1, x2, x3], [y0, y1, y2, y3]);
  }

  lemma Lexicographic(x: seq<int>, y: seq<int>) returns (k: nat)
    requires |x| == |y| == 4 && forall i :: 0 <= i < 4 ==> 0 <= x[i] < 0x40 && 0 <= y[i] < 0x40
    requires ((x[0] * 0x40 + x[1]) * 0x40 + x[2]) * 0x40 + x[3] < ((y[0] * 0x40 + y[1]) * 0x40 + y[2]) * 0x40 + y[3]
    ensures k < 4 && x[k] < y[k] && forall i :: 0 <= i < k ==> x[i] == y[i]
  {
    k := if x[0] != y[0] then 0 else if x[1] != y[1] then 1 else if x[2] != y[2] then 2 else 3;
  }

  lemma {:induction false} EncodedOrder(c: Char, d: Char, s: seq<Byte>, t: seq<Byte>)
    requires c < d <= LAST
    ensures Before8(Encoded(c, false) + s, Encoded(d, false) + t)
    ensures !Before8(Encoded(d, false) + t, Encoded(c, false) + s)
  {
    var k := FirstDifference(c, d);
    var e, f := Encoded(c, false), Encoded(d, false);
    assert e + s == e[..k] + (e[k..] + s) && f + t == f[..k] + (f[k..] + t);
    CommonPrefix(e[..k], e[k..] + s, f[k..] + t);
    CommonPrefix(e[..k], f[k..] + t, e[k..] + s);
  }

  /** Sorting UTF-8 byte by byte sorts the text by code points (section 1 of RFC 3629). */
  lemma {:induction false} SortsAlike(s: seq<Char>, t: seq<Char>)
    requires InRange(s) && InRange(t)
    ensures Before8(EncodedAll(s, false), EncodedAll(t, false)) <==> Before32(s, t)
  {
    if s != [] && t != [] {
      if s[0] == t[0] {
        SortsAlike(s[1..], t[1..]);
        CommonPrefix(Encoded(s[0], false), EncodedAll(s[1..], false), EncodedAll(t[1..], false));
      } else if s[0] < t[0] {
        EncodedOrder(s[0], t[0], EncodedAll(s[1..], false), EncodedAll(t[1..], false));
      } else {
        EncodedOrder(t[0], s[0], EncodedAll(t[1..], false), EncodedAll(s[1..], false));
      }
    }
  }

  /** The bytes are those of one code point, which is no surrogate. */
  predicate Character(e: seq<Byte>) {
    && e != [] && Lead(e[0]).0 == |e| && Continued(Value(e[0]), e[1..]) <= LAST
    && !IsSurrogate(Continued(Value(e[0]), e[1..]))
    && Encoded(Continued(Value(e[0]), e[1..]), false) == e
  }

  lemma {:induction false} OneByte(a: Byte)
    requires a <= 0x7f
    ensures Character([a])
  {
    assert [a][1..] == [];
  }

  lemma {:induction false} TwoBytes(a: Byte, b: Byte)
    requires 0xc2 <= a <= 0xdf && Tail(b)
    ensures Character([a, b])
  {
    assert [a, b][1..] == [b];
    ContinuedOne(Value(a), b);
  }

  lemma {:induction false} ThreeBytes(a: Byte, b: Byte, c: Byte)
    requires 0xe0 <= a <= 0xef && Tail(b) && Tail(c)
    requires (a == 0xe0 ==> 0xa0 <= b) && (a == 0xed ==> b <= 0x9f)
    ensures Character([a, b, c])
  {
    assert [a, b, c][1..] == [b, c];
    ContinuedTwo(Value(a), b, c);
    assert Value(a) == a - 0xe0 && b % 0x40 == b - 0x80 && c % 0x40 == c - 0x80;
    ThreeDigitsOf(a - 0xe0, b - 0x80, c - 0x80);
  }

  lemma ThreeDigitsOf(x: nat, y: nat, z: nat)
    requires x < 0x10 && y < 0x40 && z < 0x40
    requires 0x20 <= x * 0x40 + y && !(0x360 <= x * 0x40 + y < 0x380)
    ensures var cp := (x * 0x40 + y) * 0x40 + z;
      cp <= LAST && !IsSurrogate(cp) && Encoded(cp, false) == [0xe0 + x, 0x80 + y, 0x80 + z]
  {
    var cp := (x * 0x40 + y) * 0x40 + z;
    assert cp / 0x40 == x * 0x40 + y;
  }

  lemma {:induction false} AllBytes(a: Byte, b: Byte, c: Byte, d: Byte)
    requires 0xf0 <= a <= 0xf4 && Tail(b) && Tail(c) && Tail(d)
    requires (a == 0xf0 ==> 0x90 <= b) && (a == 0xf4 ==> b <= 0x8f)
    ensures Character([a, b, c, d])
  {
    assert [a, b, c, d][1..] == [b, c, d];
    ContinuedThree(Value(a), b, c, d);
    EncodedFour(a, b, c, d);
  }

  lemma EncodedFour(a: Byte, b: Byte, c: Byte, d: Byte)
    requires 0xf0 <= a <= 0xf4 && Tail(b) && Tail(c) && Tail(d)
    requires (a == 0xf0 ==> 0x90 <= b) && (a == 0xf4 ==> b <= 0x8f)
    ensures var cp := ((Value(a) * 0x40 + b % 0x40) * 0x40 + c % 0x40) * 0x40 + d % 0x40;
      0x10000 <= cp <= LAST && Encoded(cp, false) == [a, b, c, d]
  {
    assert Value(a) == a - 0xf0 && b % 0x40 == b - 0x80 && c % 0x40 == c - 0x80 && d % 0x40 == d - 0x80;
    DigitsOf(a - 0xf0, b - 0x80, c - 0x80, d - 0x80);
  }

  lemma DigitsOf(x: nat, y: nat, z: nat, u: nat)
    requires x < 5 && y < 0x40 && z < 0x40 && u < 0x40
    requires 0x10 <= x * 0x40 + y < 0x110
    ensures var cp := ((x * 0x40 + y) * 0x40 + z) * 0x40 + u;
      0x10000 <= cp <= LAST && Encoded(cp, false) == [0xf0 + x, 0x80 + y, 0x80 + z, 0x80 + u]
  {
    var cp := ((x * 0x40 + y) * 0x40 + z) * 0x40 + u;
    assert cp / 0x40 == (x * 0x40 + y) * 0x40 + z && cp / 0x1000 == x * 0x40 + y;
  }

  /** Well-formed text starts with the bytes of a code point. */
  lemma {:induction false} FirstCharacter(b: seq<Byte>) returns (n: nat)
    requires WellFormed(b) && b != []
    ensures 1 <= n <= |b| && WellFormed(b[n..]) && Character(b[..n])
  {
    if b[0] <= 0x7f {
      OneByte(b[0]);
      assert b[..1] == [b[0]];
      n := 1;
    } else if b[0] <= 0xdf {
      TwoBytes(b[0], b[1]);
      assert b[..2] == [b[0], b[1]];
      n := 2;
    } else if b[0] <= 0xef {
      ThreeBytes(b[0], b[1], b[2]);
      assert b[..3] == [b[0], b[1], b[2]];
      n := 3;
    } else {
      AllBytes(b[0], b[1], b[2], b[3]);
      assert b[..4] == [b[0], b[1], b[2], b[3]];
      n := 4;
    }
  }

  /** Well-formed UTF-8 is what encoding makes of code points that are no surrogates, and
      of these only. */
  lemma {:induction false} WellFormedDecodes(b: seq<Byte>)
    requires WellFormed(b)
    ensures var d := Decoded(b);
      d.ok && InRange(d.cps) && NoSurrogates(d.cps) && EncodedAll(d.cps, false) == b
  {
    if b != [] {
      var n := FirstCharacter(b);
      WellFormedDecodes(b[n..]);
      DecodedStep(Continued(Value(b[0]), b[..n][1..]), false, b[n..]);
      assert b == b[..n] + b[n..];
      assert Decoded(b).cps[1..] == Decoded(b[n..]).cps;
    }
  }

  lemma {:induction false} DecodedMore(cp: Char, overlong0: bool, b: seq<Byte>, cps: seq<Char>, p: Parsed)
    requires cp <= LAST && Decoded(b) == Before(cps, p)
    ensures Decoded(Encoded(cp, overlong0) + b) == Before([cp] + cps, p)
  {
    DecodedStep(cp, overlong0, b);
    assert [cp] + (cps + p.cps) == [cp] + cps + p.cps;
  }

  lemma {:induction false} EncodedSplit(cps: seq<Char>, overlong0: bool, rest: seq<Byte>)
    requires InRange(cps) && cps != []
    ensures EncodedAll(cps, overlong0) + rest == Encoded(cps[0], overlong0) + (EncodedAll(cps[1..], overlong0) + rest)
  {
  }

  lemma {:induction false} DecodedOn(cps: seq<Char>, overlong0: bool, rest: seq<Byte>)
    requires InRange(cps)
    ensures Decoded(EncodedAll(cps, overlong0) + rest) == Before(cps, Decoded(rest))
  {
    if cps == [] {
      assert EncodedAll(cps, overlong0) + rest == rest;
    } else {
      var b := EncodedAll(cps[1..], overlong0) + rest;
      assert Decoded(b) == Before(cps[1..], Decoded(rest)) by { DecodedOn(cps[1..], overlong0, rest); }
      DecodedMore(cps[0], overlong0, b, cps[1..], Decoded(rest));
      assert EncodedAll(cps, overlong0) + rest == Encoded(cps[0], overlong0) + b by {
        EncodedSplit(cps, overlong0, rest);
      }
      assert [cps[0]] + cps[1..] == cps;
    }
  }

  /** A continuation byte where a code point should start, or a byte that starts none, is
      an error, and so is a code point cut short by the end of the text; what was found
      before stays. */
  lemma {:induction false} DecodingFails(cps: seq<Char>, overlong0: bool, rest: seq<Byte>)
    requires InRange(cps) && rest != []
    ensures 0x80 <= rest[0] <= 0xbf || 0xf8 <= rest[0] ==>
      Decoded(EncodedAll(cps, overlong0) + rest) == Parsed(cps, false)
    ensures (exists cp: Char | cp <= LAST :: rest < Encoded(cp, overlong0)) ==>
      Decoded(EncodedAll(cps, overlong0) + rest) == Parsed(cps, false)
  {
    DecodedOn(cps, overlong0, rest);
    if cp: Char :| cp <= LAST && rest < Encoded(cp, overlong0) {
      EncodedDecodes(cp, overlong0);
      assert rest[0] == Encoded(cp, overlong0)[0];
    }
  }

  predicate NoSurrogates(cps: seq<Char>) { forall i :: 0 <= i < |cps| ==> !IsSurrogate(cps[i]) }

  lemma {:induction false} AllWellFormed(cps: seq<Char>)
    requires InRange(cps) && NoSurrogates(cps)
    ensures WellFormed(EncodedAll(cps, false))
  {
    if cps != [] {
      AllWellFormed(cps[1..]);
      EncodedWellFormed(cps[0], EncodedAll(cps[1..], false));
    }
  }

  /** The replacing conversion gives well-formed UTF-8, whatever the units, and decodes to
      their code points with each unpaired surrogate replaced by U+FFFD. */
  lemma Utf8WellFormed(s: seq<Unit>)
    ensures WellFormed(Utf8Of(s))
    ensures Decoded(Utf8Of(s)) == Parsed(Replaced(Points(s)), true)
    ensures NoSurrogates(Points(s)) <==> Utf8Of(s) == Wtf8Of(s)
  {
    PointsInRange(s);
    AllWellFormed(Replaced(Points(s)));
    DecodedAll(Replaced(Points(s)), false);
    DecodedAll(Points(s), false);
    if NoSurrogates(Points(s)) {
      assert Replaced(Points(s)) == Points(s);
    } else {
      var i :| 0 <= i < |Points(s)| && IsSurrogate(Points(s)[i]);
      assert Replaced(Points(s))[i] != Points(s)[i];
    }
  }
}
