/** The xoshiro generator, and the draw of a number below a bound from its blocks. */
module Random {
  import opened Prelude

  function Pow2(n: nat): (p: nat)
    ensures p >= 1
  {
    if n == 0 then 1 else 2 * Pow2(n - 1)
  }

  // ----- the draw -----

  /** How many of the `size` inputs go to each value; the subtraction and the addition keep
      the division inside the machine word. */
  function Div(size: nat, mod: nat): (d: nat)
    requires 1 <= mod < size
    ensures d >= 1
  {
    (size - 1 - (mod - 1)) / mod + 1
  }

  /** What the loop compares with: `div * mod` wraps to zero when it is `size`. */
  function Bound(size: nat, mod: nat): nat
    requires 1 <= mod < size
  {
    (Div(size, mod) * mod % size - 1) % size
  }

  predicate Rejected(size: nat, mod: nat, g: nat)
    requires 1 <= mod < size
  {
    g > Bound(size, mod)
  }

  lemma DivIsFloor(size: nat, mod: nat)
    requires 1 <= mod < size
    ensures Div(size, mod) == size / mod
    ensures size - mod < Div(size, mod) * mod <= size
  {
    var q, r := (size - mod) / mod, (size - mod) % mod;
    assert size == (q + 1) * mod + r;
    Quotient(size, mod, q + 1);
  }

  lemma Quotient(x: nat, d: nat, q: nat)
    requires d >= 1
    ensures x / d == q <==> q * d <= x < (q + 1) * d
  {
    var p, r := x / d, x % d;
    assert x == p * d + r;
    if q < p { assert (q + 1) * d <= p * d by { Monotone(q + 1, p, d); } }
    if q > p { assert (p + 1) * d <= q * d by { Monotone(p + 1, q, d); } }
  }

  lemma Monotone(a: nat, b: nat, d: nat)
    requires a <= b
    ensures a * d <= b * d
  {
    assert (b - a) * d >= 0;
  }

  /** The bound of the comparison, where `m` is `div * mod`, which fits or is just `size`. */
  lemma WrappedBound(size: nat, m: nat)
    requires 1 <= m <= size
    ensures (m % size - 1) % size == m - 1
  {
    if m == size {
      Reduced(size, -1);
    } else {
      Reduced(size, m);
      Reduced(size, m - 1);
    }
  }

  lemma Reduced(size: nat, x: int)
    requires size >= 1 && -1 <= x < size
    ensures x % size == if x == -1 then size - 1 else x
  {
    if x == -1 { assert -1 == (-1) * size + (size - 1); }
  }

  /** Wrapping does not matter: rejected are just the inputs from `div * mod` on. */
  lemma RejectedAt(size: nat, mod: nat, g: nat)
    requires 1 <= mod < size
    ensures Rejected(size, mod, g) <==> g >= Div(size, mod) * mod
  {
    DivIsFloor(size, mod);
    WrappedBound(size, Div(size, mod) * mod);
  }

  /** The inputs that give `v`. */
  function InputsOf(size: nat, mod: nat, v: nat): set<nat>
    requires 1 <= mod < size
  {
    set g: nat | g < size && !Rejected(size, mod, g) && g / Div(size, mod) == v
  }

  function RejectedInputs(size: nat, mod: nat): set<nat>
    requires 1 <= mod < size
  {
    set g: nat | g < size && Rejected(size, mod, g)
  }

  function Range(lo: nat, hi: nat): (r: set<nat>)
    requires lo <= hi
    ensures (forall g: nat :: g in r <==> lo <= g < hi) && |r| == hi - lo
    decreases hi
  {
    if lo == hi then {} else Range(lo, hi - 1) + {hi - 1}
  }

  lemma InputsAre(size: nat, mod: nat, v: nat)
    requires 1 <= mod < size
    ensures var d := Div(size, mod);
            && v * d <= (v + 1) * d
            && InputsOf(size, mod, v) == if v < mod then Range(v * d, (v + 1) * d) else {}
  {
    DivIsFloor(size, mod);
    var d := Div(size, mod);
    Monotone(v, v + 1, d);
    if v < mod { Monotone(v + 1, mod, d); } else { Monotone(mod, v, d); }
    forall g: nat
      ensures g in InputsOf(size, mod, v) <==> v < mod && v * d <= g < (v + 1) * d
    {
      RejectedAt(size, mod, g);
      Quotient(g, d, v);
    }
  }

  lemma RejectedAre(size: nat, mod: nat)
    requires 1 <= mod < size
    ensures Div(size, mod) * mod <= size && RejectedInputs(size, mod) == Range(Div(size, mod) * mod, size)
  {
    DivIsFloor(size, mod);
    forall g: nat ensures Rejected(size, mod, g) <==> g >= Div(size, mod) * mod {
      RejectedAt(size, mod, g);
    }
  }

  /** The draw is unbiased: every value has the same number of inputs, and fewer than
      `mod` inputs are rejected, which is less than half. */
  lemma Unbiased(size: nat, mod: nat, v: nat)
    requires 1 <= mod < size
    ensures |InputsOf(size, mod, v)| == if v < mod then size / mod else 0
    ensures |RejectedInputs(size, mod)| == size % mod < mod
    ensures 2 * |RejectedInputs(size, mod)| < size
  {
    InputsAre(size, mod, v);
    RejectedAre(size, mod);
    DivIsFloor(size, mod);
    Monotone(1, Div(size, mod), mod);
    var d := Div(size, mod);
    assert (v + 1) * d - v * d == d;
    Parts(size, mod);
  }

  lemma Parts(x: nat, d: nat)
    requires d >= 1
    ensures x == x / d * d + x % d && x % d < d
  {
  }

  /** The first block that is not above the bound decides. */
  function First(bound: nat, div: nat, blocks: seq<nat>): (r: Option<nat>)
    requires div >= 1
  {
    if blocks == [] then None
    else if blocks[0] > bound then First(bound, div, blocks[1..])
    else Some(blocks[0] / div)
  }

  /** The value drawn from a run of blocks. */
  function Draw(size: nat, mod: nat, blocks: seq<nat>): (r: Option<nat>)
    requires 1 <= mod < size
  {
    First(Bound(size, mod), Div(size, mod), blocks)
  }

  lemma Drawn(size: nat, mod: nat, g: nat)
    requires 1 <= mod < size && g < size && !Rejected(size, mod, g)
    ensures g / Div(size, mod) < mod
  {
    DivIsFloor(size, mod);
    RejectedAt(size, mod, g);
    var d := Div(size, mod);
    Quotient(g, d, g / d);
    if g / d >= mod { Monotone(mod, g / d, d); }
  }

  lemma {:induction false} DrawInRange(size: nat, mod: nat, blocks: seq<nat>)
    requires 1 <= mod < size && forall g :: g in blocks ==> g < size
    ensures Draw(size, mod, blocks).Some? ==> Draw(size, mod, blocks).value < mod
  {
    if blocks != [] {
      assert blocks[0] in blocks && forall h :: h in blocks[1..] ==> h in blocks;
      if !Rejected(size, mod, blocks[0]) { Drawn(size, mod, blocks[0]); }
      DrawInRange(size, mod, blocks[1..]);
    }
  }

  /** Exchanges the inputs of two values, one for one, and keeps all others. */
  function Exchange(size: nat, mod: nat, v: nat, u: nat, g: nat): nat
    requires 1 <= mod < size && v < mod && u < mod && g < size
  {
    var d := Div(size, mod);
    if Rejected(size, mod, g) then g
    else if g / d == v then u * d + g % d
    else if g / d == u then v * d + g % d
    else g
  }

  function Other(v: nat, u: nat, x: nat): nat {
    if x == v then u else if x == u then v else x
  }

  lemma ExchangeTwice(size: nat, mod: nat, v: nat, u: nat, g: nat)
    requires 1 <= mod < size && v < mod && u < mod && g < size
    ensures var h := Exchange(size, mod, v, u, g);
            && h < size
            && (Rejected(size, mod, h) <==> Rejected(size, mod, g))
            && (!Rejected(size, mod, g) ==> h / Div(size, mod) == Other(v, u, g / Div(size, mod)))
            && Exchange(size, mod, v, u, h) == g
  {
    DivIsFloor(size, mod);
    var d := Div(size, mod);
    var h := Exchange(size, mod, v, u, g);
    RejectedAt(size, mod, g);
    if !Rejected(size, mod, g) && (g / d == v || g / d == u) {
      var x := if g / d == v then u else v;
      Placed(size, mod, x, g % d);
      Parts(g, d);
    }
  }

  /** The `r`-th input of the value `x`. */
  lemma Placed(size: nat, mod: nat, x: nat, r: nat)
    requires 1 <= mod < size && x < mod && r < Div(size, mod)
    ensures var d := Div(size, mod); var h := x * d + r;
            h < size && !Rejected(size, mod, h) && h / d == x && h % d == r
  {
    DivIsFloor(size, mod);
    var d := Div(size, mod);
    Composed(x, d, r);
    Monotone(x + 1, mod, d);
    RejectedAt(size, mod, x * d + r);
  }

  lemma Composed(x: nat, d: nat, r: nat)
    requires d >= 1 && r < d
    ensures x * d + r < (x + 1) * d && (x * d + r) / d == x && (x * d + r) % d == r
  {
    Quotient(x * d + r, d, x);
  }

  function ExchangeAll(size: nat, mod: nat, v: nat, u: nat, blocks: seq<nat>): (r: seq<nat>)
    requires 1 <= mod < size && v < mod && u < mod && forall g :: g in blocks ==> g < size
  {
    if blocks == [] then []
    else
      assert blocks[0] in blocks && forall g :: g in blocks[1..] ==> g in blocks;
      [Exchange(size, mod, v, u, blocks[0])] + ExchangeAll(size, mod, v, u, blocks[1..])
  }

  /** Unbiased over whole runs: exchanging the inputs of two values is its own inverse on
      runs of blocks, and exchanges the two values in what is drawn. */
  lemma {:induction false} ExchangedDraw(size: nat, mod: nat, v: nat, u: nat, blocks: seq<nat>)
    requires 1 <= mod < size && v < mod && u < mod && forall g :: g in blocks ==> g < size
    ensures var other := ExchangeAll(size, mod, v, u, blocks);
            && |other| == |blocks|
            && (forall g :: g in other ==> g < size)
            && ExchangeAll(size, mod, v, u, other) == blocks
            && Draw(size, mod, other) == match Draw(size, mod, blocks) case None => None
                                                                       case Some(x) => Some(Other(v, u, x))
  {
    if blocks != [] {
      var g, rest := blocks[0], blocks[1..];
      assert g in blocks && forall h :: h in rest ==> h in blocks;
      ExchangeTwice(size, mod, v, u, g);
      ExchangedDraw(size, mod, v, u, rest);
      var other := ExchangeAll(size, mod, v, u, blocks);
      assert other[1..] == ExchangeAll(size, mod, v, u, rest);
    }
  }

  /** Taking the high bits of a block is the draw for a power of two, with nothing
      rejected. */
  lemma HighBits(w: nat, n: nat, g: nat)
    requires 1 <= n < w && g < Pow2(w)
    ensures Pow2(n) < Pow2(w) && !Rejected(Pow2(w), Pow2(n), g)
    ensures Draw(Pow2(w), Pow2(n), [g]) == Some(g / Pow2(w - n))
  {
    Powers(n, w - n);
    var k := Pow2(w - n);
    assert k >= 2;
    Monotone(2, k, Pow2(n));
    DivIsFloor(Pow2(w), Pow2(n));
    Quotient(Pow2(w), Pow2(n), k);
    RejectedAt(Pow2(w), Pow2(n), g);
  }

  lemma {:induction false} Powers(a: nat, b: nat)
    ensures Pow2(a + b) == Pow2(b) * Pow2(a)
  {
    if a > 0 {
      Powers(a - 1, b);
      assert 2 * (Pow2(b) * Pow2(a - 1)) == Pow2(b) * (2 * Pow2(a - 1));
    }
  }

  // ----- words -----

  /** A machine word, lowest bit first. */
  type Word = seq<bool>

  function Value(x: Word): (n: nat)
    ensures n < Pow2(|x|)
  {
    if x == [] then 0 else (if x[0] then 1 else 0) + 2 * Value(x[1..])
  }

  function Xor(x: Word, y: Word): (r: Word)
    requires |x| == |y|
    ensures |r| == |x| && forall i {:trigger r[i]} :: 0 <= i < |r| ==> r[i] == (x[i] != y[i])
  {
    seq(|x|, i requires 0 <= i < |x| => x[i] != y[i])
  }

  function ShiftLeft(x: Word, k: nat): (r: Word)
    ensures |r| == |x| && forall i {:trigger r[i]} :: 0 <= i < |r| ==> r[i] == (i >= k && x[i - k])
  {
    seq(|x|, i requires 0 <= i < |x| => i >= k && x[i - k])
  }

  function RotateLeft(x: Word, k: nat): (r: Word)
    requires k <= |x|
    ensures |r| == |x|
  {
    x[|x| - k..] + x[..|x| - k]
  }

  /** Addition in the machine word. */
  function Sum(x: Word, y: Word): (n: nat)
    requires |x| == |y|
    ensures n < Pow2(|x|)
  {
    (Value(x) + Value(y)) % Pow2(|x|)
  }

  function Zeros(w: nat): (x: Word)
    ensures |x| == w
  {
    seq(w, i => false)
  }

  // ----- what the operations on words are in arithmetic -----

  lemma {:induction false} Joined(x: Word, y: Word)
    ensures Value(x + y) == Value(x) + Pow2(|x|) * Value(y)
  {
    if x == [] {
      assert x + y == y;
    } else {
      Joined(x[1..], y);
      assert (x + y)[0] == x[0] && (x + y)[1..] == x[1..] + y;
      Doubled(Pow2(|x| - 1), Value(y));
    }
  }

  lemma Doubled(a: nat, b: nat)
    ensures 2 * (a * b) == 2 * a * b
  {
  }

  lemma Halves(x: Word, k: nat)
    requires k <= |x|
    ensures Value(x[..k]) == Value(x) % Pow2(k) && Value(x[k..]) == Value(x) / Pow2(k)
  {
    assert x == x[..k] + x[k..];
    Joined(x[..k], x[k..]);
    QuotientOf(Value(x), Pow2(k), Value(x[k..]), Value(x[..k]));
  }

  lemma QuotientOf(n: nat, d: nat, q: nat, r: nat)
    requires n == r + d * q && r < d
    ensures n / d == q && n % d == r
  {
    var e := n / d;
    assert n == d * e + n % d;
    if e > q { Multiples(d, q, e); } else if e < q { Multiples(d, e, q); }
  }

  lemma Multiples(d: nat, a: nat, b: nat)
    requires a < b
    ensures d * a + d <= d * b
  {
    var c := b - a - 1;
    assert d * b == d * (a + 1 + c) == d * (a + 1) + d * c;
    assert d * (a + 1) == d * a + d;
  }

  lemma {:induction false} ZerosValue(w: nat)
    ensures Value(Zeros(w)) == 0
  {
    if w > 0 {
      assert Zeros(w)[1..] == Zeros(w - 1);
      ZerosValue(w - 1);
    }
  }

  /** A shift multiplies, and loses what does not fit. */
  lemma ShiftValue(x: Word, k: nat)
    requires k <= |x|
    ensures Value(ShiftLeft(x, k)) == Value(x) % Pow2(|x| - k) * Pow2(k)
  {
    var low := x[..|x| - k];
    assert Value(low) == Value(x) % Pow2(|x| - k) by { Halves(x, |x| - k); }
    assert ShiftLeft(x, k) == Zeros(k) + low;
    Joined(Zeros(k), low);
    ZerosValue(k);
    Commutes(Pow2(k), Value(low));
  }

  lemma Commutes(a: nat, b: nat)
    ensures a * b == b * a
  {
  }

  /** A rotation puts at the lower end what a shift would lose. */
  lemma RotateValue(x: Word, k: nat)
    requires k <= |x|
    ensures Value(RotateLeft(x, k)) == Value(x) % Pow2(|x| - k) * Pow2(k) + Value(x) / Pow2(|x| - k)
  {
    var low, high := x[..|x| - k], x[|x| - k..];
    assert Value(low) == Value(x) % Pow2(|x| - k) && Value(high) == Value(x) / Pow2(|x| - k) by {
      Halves(x, |x| - k);
    }
    Joined(high, low);
    Commutes(Pow2(k), Value(low));
  }

  // ----- the generator -----

  datatype State = State(s0: Word, s1: Word, s2: Word, s3: Word)

  predicate Shaped(s: State, w: nat) {
    |s.s0| == w && |s.s1| == w && |s.s2| == w && |s.s3| == w
  }

  function ZeroState(w: nat): State {
    State(Zeros(w), Zeros(w), Zeros(w), Zeros(w))
  }

  /** The new state, word by word, as a linear map of the old one. */
  function Advance(s: State, w: nat, shift: nat, rot: nat): (r: State)
    requires Shaped(s, w) && rot <= w
    ensures Shaped(r, w)
  {
    State(Xor(s.s0, Xor(s.s3, s.s1)),
          Xor(s.s1, Xor(s.s2, s.s0)),
          Xor(Xor(s.s2, s.s0), ShiftLeft(s.s1, shift)),
          RotateLeft(Xor(s.s3, s.s1), rot))
  }

  function Output(s: State, w: nat): (n: nat)
    requires Shaped(s, w)
    ensures n < Pow2(w)
  {
    Sum(s.s0, s.s3)
  }

  lemma XorCancels(x: Word, y: Word, z: Word)
    requires |x| == |y| == |z| && Xor(x, y) == Xor(x, z)
    ensures y == z
  {
    forall i | 0 <= i < |x| ensures y[i] == z[i] {
      assert Xor(x, y)[i] == Xor(x, z)[i];
    }
  }

  lemma RotateCancels(x: Word, y: Word, k: nat)
    requires |x| == |y| && k <= |x| && RotateLeft(x, k) == RotateLeft(y, k)
    ensures x == y
  {
    var r := RotateLeft(x, k);
    assert r[..k] == x[|x| - k..] && r[k..] == x[..|x| - k];
    assert r[..k] == y[|x| - k..] && r[k..] == y[..|x| - k];
    assert x == x[..|x| - k] + x[|x| - k..] && y == y[..|x| - k] + y[|x| - k..];
  }

  /** A word combined with its own shift determines the word, from the lowest bit up. */
  lemma {:induction false} ShiftBit(x: Word, y: Word, k: nat, i: nat)
    requires |x| == |y| && k >= 1 && i < |x|
    requires Xor(x, ShiftLeft(x, k)) == Xor(y, ShiftLeft(y, k))
    ensures x[i] == y[i]
    decreases i
  {
    assert Xor(x, ShiftLeft(x, k))[i] == Xor(y, ShiftLeft(y, k))[i];
    if i >= k { ShiftBit(x, y, k, i - k); }
  }

  lemma ShiftCancels(x: Word, y: Word, k: nat)
    requires |x| == |y| && k >= 1
    requires Xor(x, ShiftLeft(x, k)) == Xor(y, ShiftLeft(y, k))
    ensures x == y
  {
    forall i | 0 <= i < |x| ensures x[i] == y[i] { ShiftBit(x, y, k, i); }
  }

  /** No two states have the same successor. */
  lemma Injective(s: State, t: State, w: nat, shift: nat, rot: nat)
    requires Shaped(s, w) && Shaped(t, w) && rot <= w && shift >= 1
    requires Advance(s, w, shift, rot) == Advance(t, w, shift, rot)
    ensures s == t
  {
    RotateCancels(Xor(s.s3, s.s1), Xor(t.s3, t.s1), rot);
    var a3 := Xor(s.s3, s.s1);
    assert Xor(a3, s.s0) == Xor(s.s0, a3) && Xor(a3, t.s0) == Xor(t.s0, a3);
    XorCancels(a3, s.s0, t.s0);
    assert Xor(s.s1, ShiftLeft(s.s1, shift)) == Xor(t.s1, ShiftLeft(t.s1, shift)) by {
      SecondAndThird(s, w, shift, rot);
      SecondAndThird(t, w, shift, rot);
    }
    ShiftCancels(s.s1, t.s1, shift);
    XorCancels(s.s1, Xor(s.s2, s.s0), Xor(t.s2, t.s0));
    assert Xor(s.s0, s.s2) == Xor(s.s2, s.s0) && Xor(t.s0, t.s2) == Xor(t.s2, t.s0);
    XorCancels(s.s0, s.s2, t.s2);
    assert Xor(s.s1, s.s3) == Xor(s.s3, s.s1) && Xor(t.s1, t.s3) == Xor(t.s3, t.s1);
    XorCancels(s.s1, s.s3, t.s3);
  }

  lemma SecondAndThird(s: State, w: nat, shift: nat, rot: nat)
    requires Shaped(s, w) && rot <= w
    ensures var r := Advance(s, w, shift, rot); Xor(r.s1, r.s2) == Xor(s.s1, ShiftLeft(s.s1, shift))
  {
  }

  lemma ZeroStays(w: nat, shift: nat, rot: nat)
    requires rot <= w
    ensures Advance(ZeroState(w), w, shift, rot) == ZeroState(w)
  {
    var z := Zeros(w);
    assert Xor(z, z) == z && ShiftLeft(z, shift) == z;
    assert RotateLeft(z, rot) == z;
  }

  /** Only the zero state leads to the zero state. */
  lemma ZeroOnlyFromZero(s: State, w: nat, shift: nat, rot: nat)
    requires Shaped(s, w) && rot <= w && shift >= 1
    ensures Advance(s, w, shift, rot) == ZeroState(w) <==> s == ZeroState(w)
  {
    ZeroStays(w, shift, rot);
    if Advance(s, w, shift, rot) == ZeroState(w) {
      Injective(s, ZeroState(w), w, shift, rot);
    }
  }

  /** What the next `n` calls return. */
  function Blocks(s: State, n: nat, w: nat, shift: nat, rot: nat): seq<nat>
    requires Shaped(s, w) && rot <= w
    decreases n
  {
    if n == 0 then [] else [Output(s, w)] + Blocks(Advance(s, w, shift, rot), n - 1, w, shift, rot)
  }

  lemma {:induction false} BlocksFit(s: State, n: nat, w: nat, shift: nat, rot: nat)
    requires Shaped(s, w) && rot <= w
    ensures forall g :: g in Blocks(s, n, w, shift, rot) ==> g < Pow2(w)
    decreases n
  {
    if n > 0 { BlocksFit(Advance(s, w, shift, rot), n - 1, w, shift, rot); }
  }

  lemma NextBlock(bound: nat, div: nat, s: State, n: nat, w: nat, shift: nat, rot: nat)
    requires Shaped(s, w) && rot <= w && n >= 1 && div >= 1
    ensures var g := Output(s, w);
            First(bound, div, Blocks(s, n, w, shift, rot))
            == if g > bound then First(bound, div, Blocks(Advance(s, w, shift, rot), n - 1, w, shift, rot))
               else Some(g / div)
  {
    var blocks, rest := Blocks(s, n, w, shift, rot), Blocks(Advance(s, w, shift, rot), n - 1, w, shift, rot);
    assert blocks == [Output(s, w)] + rest && blocks[1..] == rest;
  }

  class Xoshirop {
    const w: nat
    const shift: nat
    const rot: nat
    const state: array<Word>

    ghost predicate Valid()
      reads this, state
    {
      && 1 <= shift && rot <= w && w >= 2 && state.Length == 4
      && Shaped(Now(), w) && Now() != ZeroState(w)
    }

    ghost function Now(): State
      reads this, state
    {
      if state.Length == 4 then State(state[0], state[1], state[2], state[3])
      else State([], [], [], [])
    }

    constructor (w: nat, shift: nat, rot: nat, seed: State)
      requires 1 <= shift && rot <= w && w >= 2 && Shaped(seed, w)
      requires seed.s0 != Zeros(w) && seed.s1 != Zeros(w) && seed.s2 != Zeros(w) && seed.s3 != Zeros(w)
      ensures Valid() && fresh(state) && Now() == seed
      ensures this.w == w && this.shift == shift && this.rot == rot
    {
      this.w, this.shift, this.rot := w, shift, rot;
      state := new Word[4](i => []);
      new;
      state[0], state[1], state[2], state[3] := seed.s0, seed.s1, seed.s2, seed.s3;
    }

    method GenBlock() returns (block: nat)
      requires Valid()
      modifies state
      ensures Valid() && block == Output(old(Now()), w)
      ensures Now() == Advance(old(Now()), w, shift, rot)
    {
      ghost var s := Now();
      block := Sum(state[0], state[3]);
      var t := ShiftLeft(state[1], shift);
      state[2] := Xor(state[2], state[0]);
      state[3] := Xor(state[3], state[1]);
      state[1] := Xor(state[1], state[2]);
      state[0] := Xor(state[0], state[3]);
      state[2] := Xor(state[2], t);
      state[3] := RotateLeft(state[3], rot);
      assert Now() == Advance(s, w, shift, rot);
      ZeroOnlyFromZero(s, w, shift, rot);
    }

    /** One round of the loop below. */
    method OneBlock(bound: nat, div: nat, left: nat) returns (g: nat)
      requires Valid() && div >= 1 && left >= 1
      modifies state
      ensures Valid()
      ensures var goal := First(bound, div, Blocks(old(Now()), left, w, shift, rot));
              if g > bound then goal == First(bound, div, Blocks(Now(), left - 1, w, shift, rot))
              else goal == Some(g / div)
    {
      NextBlock(bound, div, Now(), left, w, shift, rot);
      g := GenBlock();
    }

    /** Takes blocks until one is not above the bound. */
    method NotAbove(bound: nat, div: nat, tries: nat) returns (r: Option<nat>)
      requires Valid() && div >= 1
      modifies state
      ensures Valid() && r == First(bound, div, Blocks(old(Now()), tries, w, shift, rot))
    {
      ghost var goal := First(bound, div, Blocks(Now(), tries, w, shift, rot));
      var left := tries;
      while left > 0
        invariant Valid() && 0 <= left <= tries
        invariant goal == First(bound, div, Blocks(Now(), left, w, shift, rot))
      {
        var g := OneBlock(bound, div, left);
        left := left - 1;
        if g <= bound {
          return Some(g / div);
        }
      }
      r := None;
    }

    /** A number below `mod`, from at most `tries` blocks. */
    method Gen(mod: nat, tries: nat) returns (r: Option<nat>)
      requires Valid() && mod < Pow2(w)
      modifies state
      ensures Valid()
      ensures mod < 2 ==> r == Some(0) && Now() == old(Now())
      ensures mod >= 2 ==> r == Draw(Pow2(w), mod, Blocks(old(Now()), tries, w, shift, rot))
      ensures mod >= 2 && r.Some? ==> r.value < mod
    {
      if mod < 2 {
        return Some(0);
      }
      BlocksFit(Now(), tries, w, shift, rot);
      DrawInRange(Pow2(w), mod, Blocks(Now(), tries, w, shift, rot));
      r := NotAbove(Bound(Pow2(w), mod), Div(Pow2(w), mod), tries);
    }
  }

  /** No run from a seed reaches the zero state. */
  lemma {:induction false} NeverZero(s: State, n: nat, w: nat, shift: nat, rot: nat)
    requires Shaped(s, w) && rot <= w && shift >= 1
    ensures After(s, n, w, shift, rot) == ZeroState(w) <==> s == ZeroState(w)
    decreases n
  {
    if n > 0 {
      ZeroOnlyFromZero(s, w, shift, rot);
      NeverZero(Advance(s, w, shift, rot), n - 1, w, shift, rot);
    }
  }

  function After(s: State, n: nat, w: nat, shift: nat, rot: nat): (r: State)
    requires Shaped(s, w) && rot <= w
    ensures Shaped(r, w)
    decreases n
  {
    if n == 0 then s else After(Advance(s, w, shift, rot), n - 1, w, shift, rot)
  }

  /** Runs of the same length from different states end in different states. */
  lemma {:induction false} RunsInjective(s: State, t: State, n: nat, w: nat, shift: nat, rot: nat)
    requires Shaped(s, w) && Shaped(t, w) && rot <= w && shift >= 1
    requires After(s, n, w, shift, rot) == After(t, n, w, shift, rot)
    ensures s == t
    decreases n
  {
    if n > 0 {
      RunsInjective(Advance(s, w, shift, rot), Advance(t, w, shift, rot), n - 1, w, shift, rot);
      Injective(s, t, w, shift, rot);
    }
  }
}
