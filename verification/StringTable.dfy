/** The table of short strings, which makes equal strings one object, and the cache of
    strings by address. */
module StringTable {
  const MAXSHORTLEN: nat := 40
  const STRCACHE_N: nat := 53
  const STRCACHE_M: nat := 2

  /** A string object; two of them may have the same contents. */
  datatype TString = TString(id: nat, str: string)

  predicate Short(s: string) { |s| <= MAXSHORTLEN }

  // ----- buckets -----

  type Buckets = seq<seq<TString>>

  /** All the strings in the buckets. */
  ghost function Total(b: Buckets): multiset<TString> {
    if b == [] then multiset{} else multiset(b[0]) + Total(b[1..])
  }

  lemma {:induction false} TotalApart(a: Buckets, b: Buckets)
    ensures Total(a + b) == Total(a) + Total(b)
  {
    if a == [] {
      assert a + b == b;
    } else {
      assert (a + b)[0] == a[0] && (a + b)[1..] == a[1..] + b;
      TotalApart(a[1..], b);
    }
  }

  lemma {:induction false} TotalSplit(b: Buckets, i: nat)
    requires i < |b|
    ensures Total(b) == Total(b[..i]) + multiset(b[i]) + Total(b[i + 1..])
  {
    var l, c, r := b[..i], b[i], b[i + 1..];
    var whole := l + ([c] + r);
    assert b == whole;
    assert Total(whole) == Total(l) + multiset(c) + Total(r) by { TotalMiddle(l, c, r); }
  }

  lemma {:induction false} TotalMiddle(a: Buckets, c: seq<TString>, b: Buckets)
    ensures Total(a + ([c] + b)) == Total(a) + multiset(c) + Total(b)
  {
    TotalApart(a, [c] + b);
    assert ([c] + b)[1..] == b;
  }

  /** Replacing a bucket. */
  lemma {:induction false} TotalSet(b: Buckets, i: nat, c: seq<TString>)
    requires i < |b|
    ensures Total(b[i := c]) + multiset(b[i]) == Total(b) + multiset(c)
  {
    var b2 := b[i := c];
    TotalSplit(b, i);
    TotalSplit(b2, i);
    assert b2[..i] == b[..i] && b2[i + 1..] == b[i + 1..];
  }

  lemma {:induction false} TotalPush(b: Buckets, i: nat, p: TString)
    requires i < |b|
    ensures Total(b[i := [p] + b[i]]) == Total(b) + multiset{p}
  {
    var b2 := b[i := [p] + b[i]];
    TotalSplit(b, i);
    TotalSplit(b2, i);
    assert b2[..i] == b[..i] && b2[i + 1..] == b[i + 1..];
    assert multiset([p] + b[i]) == multiset{p} + multiset(b[i]);
  }

  lemma {:induction false} TotalOf(b: Buckets, ts: TString)
    ensures ts in Total(b) <==> exists i :: 0 <= i < |b| && ts in b[i]
  {
    if b != [] {
      TotalOf(b[1..], ts);
      if exists i :: 0 <= i < |b| && ts in b[i] {
        var i :| 0 <= i < |b| && ts in b[i];
        if i > 0 { assert ts in b[1..][i - 1]; }
      }
      if exists j :: 0 <= j < |b[1..]| && ts in b[1..][j] {
        var j :| 0 <= j < |b[1..]| && ts in b[1..][j];
        assert ts in b[j + 1];
      }
    }
  }

  lemma {:induction false} TotalEmpty(b: Buckets)
    requires forall i :: 0 <= i < |b| ==> b[i] == []
    ensures Total(b) == multiset{}
  {
    if b != [] { TotalEmpty(b[1..]); }
  }

  /** `b[i]` holds only strings whose hash belongs there when there are `size` buckets. */
  ghost predicate Placed(H: string -> nat, b: Buckets, i: nat, size: nat)
    requires i < |b| && size > 0
  {
    forall ts :: ts in b[i] ==> H(ts.str) % size == i
  }

  ghost predicate AllPlaced(H: string -> nat, b: Buckets) {
    forall i :: 0 <= i < |b| ==> Placed(H, b, i, |b|)
  }

  /** How far rehashing has got: buckets before `i` and new ones are in order. */
  ghost predicate Rehashed(H: string -> nat, b: Buckets, i: nat, size: nat, newsize: nat) {
    && newsize > 0 && |b| >= newsize && |b| >= size && i <= size
    && (forall j :: 0 <= j < i ==> Placed(H, b, j, newsize))
    && (forall j :: size <= j < |b| ==> Placed(H, b, j, newsize))
  }

  /** Putting a string in its new bucket keeps in order what is. */
  lemma PlacedMore(H: string -> nat, b: Buckets, p: TString, j: nat, newsize: nat)
    requires newsize > 0 && |b| >= newsize && j < |b| && Placed(H, b, j, newsize)
    ensures var h := H(p.str) % newsize; Placed(H, b[h := [p] + b[h]], j, newsize)
  {
    var h := H(p.str) % newsize;
    forall ts | ts in b[h := [p] + b[h]][j] ensures H(ts.str) % newsize == j {
      if ts !in b[j] { assert ts == p && j == h; }
    }
  }

  lemma RehashedMore(H: string -> nat, b: Buckets, p: TString, i: nat, size: nat, newsize: nat)
    requires Rehashed(H, b, i, size, newsize) && i < |b| && Placed(H, b, i, newsize)
    ensures var h := H(p.str) % newsize;
      Rehashed(H, b[h := [p] + b[h]], i, size, newsize) && Placed(H, b[h := [p] + b[h]], i, newsize)
  {
    var h := H(p.str) % newsize;
    var b2 := b[h := [p] + b[h]];
    forall j | 0 <= j < |b| && Placed(H, b, j, newsize) ensures Placed(H, b2, j, newsize) {
      PlacedMore(H, b, p, j, newsize);
    }
  }

  lemma RehashedEmptied(H: string -> nat, b: Buckets, i: nat, size: nat, newsize: nat)
    requires Rehashed(H, b, i, size, newsize) && i < size
    ensures Rehashed(H, b[i := []], i, size, newsize) && Placed(H, b[i := []], i, newsize)
  {
    var b2 := b[i := []];
    forall j | 0 <= j < |b2| && (j < i || size <= j) ensures Placed(H, b2, j, newsize) {
      assert Placed(H, b, j, newsize);
    }
  }

  lemma EmptyIf(s: seq<TString>)
    ensures (forall ts :: ts !in s) ==> s == []
  {
    if s != [] { assert s[0] in s; }
  }

  /** The slice that a shrinking table loses is empty. */
  lemma VanishingEmpty(H: string -> nat, b: Buckets, size: nat, newsize: nat)
    requires Rehashed(H, b, size, size, newsize) && newsize < size == |b|
    ensures forall j :: newsize <= j < size ==> b[j] == []
    ensures Total(b[..newsize]) == Total(b) && AllPlaced(H, b[..newsize])
  {
    forall j | newsize <= j < size ensures b[j] == [] {
      assert Placed(H, b, j, newsize);
      EmptyIf(b[j]);
    }
    TotalEmpty(b[newsize..]);
    TotalApart(b[..newsize], b[newsize..]);
    assert b == b[..newsize] + b[newsize..];
    forall i | 0 <= i < newsize ensures Placed(H, b[..newsize], i, newsize) {
      assert Placed(H, b, i, newsize);
    }
  }

  /** Equal strings are one object, which is there once. */
  ghost predicate Canonical(all: multiset<TString>) {
    && (forall ts :: ts in all ==> all[ts] == 1 && Short(ts.str))
    && (forall s, t :: s in all && t in all && s.str == t.str ==> s == t)
  }

  lemma OneString(H: string -> nat, size: nat, ts: TString)
    requires size > 0
    ensures var b: Buckets := seq(size, _ => []);
      var b2 := b[H(ts.str) % size := [ts]];
      AllPlaced(H, b2) && Total(b2) == multiset{ts}
  {
    var b: Buckets := seq(size, _ => []);
    var h := H(ts.str) % size;
    TotalEmpty(b);
    TotalPush(b, h, ts);
    assert [ts] + b[h] == [ts];
    var b2 := b[h := [ts]];
    forall j | 0 <= j < |b2| ensures Placed(H, b2, j, size) {
      assert j != h ==> b2[j] == [];
    }
  }

  /** A string is in the bucket its hash says. */
  lemma InBucket(H: string -> nat, b: Buckets, ts: TString)
    requires |b| > 0 && AllPlaced(H, b) && ts in Total(b)
    ensures ts in b[H(ts.str) % |b|]
  {
    TotalOf(b, ts);
    var i :| 0 <= i < |b| && ts in b[i];
    assert Placed(H, b, i, |b|);
  }

  /** A new string at the head of its bucket. */
  lemma Linked(H: string -> nat, b: Buckets, ts: TString)
    requires |b| > 0 && AllPlaced(H, b)
    ensures var i := H(ts.str) % |b|;
      AllPlaced(H, b[i := [ts] + b[i]]) && Total(b[i := [ts] + b[i]]) == Total(b) + multiset{ts}
  {
    var i := H(ts.str) % |b|;
    var b2 := b[i := [ts] + b[i]];
    TotalPush(b, i, ts);
    forall j | 0 <= j < |b2| ensures Placed(H, b2, j, |b2|) {
      assert Placed(H, b, j, |b|);
      PlacedMore(H, b, ts, j, |b|);
    }
  }

  /** A string unlinked from its bucket. */
  lemma Unlinked(H: string -> nat, b: Buckets, i: nat, k: nat)
    requires i < |b| && k < |b[i]| && AllPlaced(H, b)
    ensures var b2 := b[i := b[i][..k] + b[i][k + 1..]];
      AllPlaced(H, b2) && Total(b2) + multiset{b[i][k]} == Total(b)
  {
    var c := b[i][..k] + b[i][k + 1..];
    var b2 := b[i := c];
    assert b[i] == b[i][..k] + [b[i][k]] + b[i][k + 1..];
    assert multiset(b[i]) == multiset(c) + multiset{b[i][k]};
    TotalSplit(b, i);
    TotalSplit(b2, i);
    assert b2[..i] == b[..i] && b2[i + 1..] == b[i + 1..];
    forall j | 0 <= j < |b2| ensures Placed(H, b2, j, |b2|) {
      assert Placed(H, b, j, |b|);
    }
  }

  /** A string with new contents keeps equal strings one. */
  lemma CanonicalMore(all: multiset<TString>, ts: TString)
    requires Canonical(all) && Short(ts.str) && forall t :: t in all ==> t.str != ts.str
    ensures Canonical(all + multiset{ts}) && |all + multiset{ts}| == |all| + 1
  {
  }

  /** A short string in the cache is one of `all`; no string in the cache is dead. */
  ghost predicate Fits(ts: TString, all: multiset<TString>, dead: set<nat>, nextId: nat) {
    ts.id < nextId && ts.id !in dead && (Short(ts.str) ==> ts in all)
  }

  ghost predicate CacheFits(c: seq<seq<TString>>, all: multiset<TString>, dead: set<nat>, nextId: nat) {
    && |c| == STRCACHE_N && (forall i :: 0 <= i < STRCACHE_N ==> |c[i]| == STRCACHE_M)
    && forall i, j :: 0 <= i < STRCACHE_N && 0 <= j < STRCACHE_M ==> Fits(c[i][j], all, dead, nextId)
  }

  lemma StillFits(c: seq<seq<TString>>, all: multiset<TString>, dead: set<nat>, nextId: nat,
                  all2: multiset<TString>, dead2: set<nat>, nextId2: nat)
    requires CacheFits(c, all, dead, nextId)
    requires forall ts :: Fits(ts, all, dead, nextId) ==> Fits(ts, all2, dead2, nextId2)
    ensures CacheFits(c, all2, dead2, nextId2)
  {
  }

  class Table {
    const H: string -> nat       // the hash function with its seed
    var hash: Buckets
    var nuse: nat
    const memerrmsg: TString     // fills the cache; never freed
    var dead: set<nat>           // objects the collector has found dead but not yet freed
    var nextId: nat              // addresses from here on are free
    var strcache: seq<seq<TString>>

    ghost function All(): multiset<TString>
      reads this
    {
      Total(hash)
    }

    ghost predicate Valid()
      reads this
    {
      && |hash| > 0 && AllPlaced(H, hash) && Canonical(All()) && nuse == |All()|
      && (forall ts :: ts in All() ==> ts.id < nextId)
      && CacheFits(strcache, All(), dead, nextId)
      && memerrmsg in All() && memerrmsg.id !in dead
    }

    ghost predicate CacheOk(ts: TString)
      reads this
    {
      Fits(ts, All(), dead, nextId)
    }

    /** A table with one string, which also fills the cache. */
    constructor (H: string -> nat, size: nat, filler: string)
      requires size > 0 && Short(filler)
      ensures Valid() && this.H == H && All() == multiset{TString(0, filler)}
    {
      var ts := TString(0, filler);
      var b: Buckets := seq(size, _ => []);
      OneString(H, size, ts);
      this.H := H;
      memerrmsg := ts;
      hash := b[H(filler) % size := [ts]];
      nuse, dead, nextId := 1, {}, 1;
      strcache := seq(STRCACHE_N, _ => [ts, ts]);
    }

    // ----- resizing -----

    /** Moves one string to its new bucket. */
    method Rechain(p: TString, ghost i: nat, ghost size: nat, newsize: nat)
      requires Rehashed(H, hash, i, size, newsize) && i < size && Placed(H, hash, i, newsize)
      modifies this`hash
      ensures Rehashed(H, hash, i, size, newsize) && Placed(H, hash, i, newsize) && |hash| == |old(hash)|
      ensures Total(hash) == old(Total(hash)) + multiset{p}
    {
      var h := H(p.str) % newsize;
      TotalPush(hash, h, p);
      RehashedMore(H, hash, p, i, size, newsize);
      hash := hash[h := [p] + hash[h]];
    }

    /** Empties bucket `i` and puts its strings where they belong now. */
    method RehashBucket(i: nat, ghost size: nat, newsize: nat)
      requires Rehashed(H, hash, i, size, newsize) && i < size
      modifies this`hash
      ensures Rehashed(H, hash, i + 1, size, newsize) && |hash| == |old(hash)|
      ensures Total(hash) == old(Total(hash))
    {
      var p := hash[i];
      TotalSet(hash, i, []);
      RehashedEmptied(H, hash, i, size, newsize);
      hash := hash[i := []];
      while p != []
        invariant Rehashed(H, hash, i, size, newsize) && Placed(H, hash, i, newsize)
        invariant |hash| == |old(hash)| && Total(hash) + multiset(p) == old(Total(hash))
        decreases |p|
      {
        var hnext := p[1..];
        assert p == [p[0]] + hnext;
        Rechain(p[0], i, size, newsize);
        p := hnext;
      }
    }

    /** Rehashes in place, growing before or shrinking after. A string moved to a bucket not
        yet visited is moved once more. */
    method Resize(newsize: nat)
      requires Valid() && newsize > 0
      modifies this`hash
      ensures Valid() && |hash| == newsize && All() == old(All())
    {
      var size := |hash|;
      if newsize > size {
        ghost var more: Buckets := seq(newsize - size, _ => []);
        TotalEmpty(more);
        TotalApart(hash, more);
        hash := hash + seq(newsize - size, _ => []);
        assert hash == old(hash) + more;
      }
      for i := 0 to size
        invariant Rehashed(H, hash, i, size, newsize) && |hash| == if newsize > size then newsize else size
        invariant Total(hash) == old(Total(hash))
      {
        RehashBucket(i, size, newsize);
      }
      if newsize < size {
        VanishingEmpty(H, hash, size, newsize);
        hash := hash[..newsize];
      }
    }

    // ----- making and freeing strings -----

    /** Looks for a string in its bucket. */
    method Find(str: string) returns (found: bool, ts: TString)
      requires Valid()
      ensures found ==> ts in All() && ts.str == str
      ensures !found ==> forall t :: t in All() ==> t.str != str
    {
      var list := hash[H(str) % |hash|];
      found, ts := false, memerrmsg;
      for k := 0 to |list|
        invariant forall j :: 0 <= j < k ==> list[j].str != str
      {
        if list[k].str == str {
          TotalOf(hash, list[k]);
          return true, list[k];
        }
      }
      forall t | t in All() ensures t.str != str {
        InBucket(H, hash, t);
      }
    }

    /** The string object for `str`: the one there is, even if the collector has already
        found it dead, or else a new one. */
    method Intern(str: string) returns (ts: TString)
      requires Valid() && Short(str)
      modifies this
      ensures Valid() && ts.str == str && ts in All() && ts.id !in dead
      ensures if exists t :: t in old(All()) && t.str == str
              then ts in old(All()) && All() == old(All()) && dead == old(dead) - {ts.id}
              else ts.id == old(nextId) && All() == old(All()) + multiset{ts} && dead == old(dead) - {ts.id}
      ensures strcache == old(strcache) && nextId >= old(nextId)
      ensures |hash| == if nuse > old(nuse) >= |old(hash)| then 2 * |old(hash)| else |old(hash)|
      ensures old(nuse) <= |old(hash)| ==> nuse <= |hash|
    {
      var found;
      found, ts := Find(str);
      if found {
        dead := dead - {ts.id};
        return;
      }
      MakeRoom();
      ts := Create(str);
    }

    /** Twice as many buckets when there are as many strings. */
    method MakeRoom()
      requires Valid()
      modifies this`hash
      ensures Valid() && All() == old(All())
      ensures |hash| == if nuse >= |old(hash)| then 2 * |old(hash)| else |old(hash)|
    {
      if nuse >= |hash| {
        Resize(|hash| * 2);
      }
    }

    method Create(str: string) returns (ts: TString)
      requires Valid() && Short(str) && forall t :: t in All() ==> t.str != str
      modifies this
      ensures Valid() && ts == TString(old(nextId), str)
      ensures All() == old(All()) + multiset{ts} && dead == old(dead) - {ts.id}
      ensures strcache == old(strcache) && nextId == old(nextId) + 1
      ensures nuse == old(nuse) + 1 && |hash| == |old(hash)|
    {
      ts := TString(nextId, str);
      Linked(H, hash, ts);
      CanonicalMore(All(), ts);
      ghost var before, dead0, nextId0 := All(), dead, nextId;
      var i := H(str) % |hash|;
      hash := hash[i := [ts] + hash[i]];
      dead := dead - {ts.id};
      nuse, nextId := nuse + 1, nextId + 1;
      assert All() == before + multiset{ts};
      StillFits(strcache, before, dead0, nextId0, All(), dead, nextId);
    }

    method PlaceOf(ts: TString) returns (i: nat, k: nat)
      requires Valid() && ts in All()
      ensures i == H(ts.str) % |hash| && k < |hash[i]| && hash[i][k] == ts
    {
      i, k := H(ts.str) % |hash|, 0;
      InBucket(H, hash, ts);
      while hash[i][k] != ts
        invariant k < |hash[i]| && ts in hash[i][k..]
        decreases |hash[i]| - k
      {
        k := k + 1;
      }
    }

    /** Unlinks a dead string that the collector frees. */
    method Remove(ts: TString)
      requires Valid() && ts in All() && ts.id in dead
      modifies this`hash, this`nuse
      ensures Valid() && All() + multiset{ts} == old(All()) && nuse == old(nuse) - 1
    {
      var i, k := PlaceOf(ts);
      Unlinked(H, hash, i, k);
      var after := hash[i := hash[i][..k] + hash[i][k + 1..]];
      Fewer(All(), Total(after), ts);
      StillFits(strcache, All(), dead, nextId, Total(after), dead, nextId);
      hash := after;
      nuse := nuse - 1;
    }

    lemma Fewer(before: multiset<TString>, after: multiset<TString>, ts: TString)
      requires before == after + multiset{ts} && Canonical(before)
      ensures Canonical(after) && |after| == |before| - 1
      ensures forall t :: t in after ==> t in before && t != ts
      ensures forall t :: t in before && t != ts ==> t in after
    {
      assert before[ts] == 1;
    }

    function Kept(ts: TString, whites: set<nat>): TString {
      if ts.id in whites then memerrmsg else ts
    }

    /** The collector has found out which strings are dead; they leave the cache. */
    method ClearCache(whites: set<nat>)
      requires Valid() && memerrmsg.id !in whites
      modifies this`strcache, this`dead
      ensures Valid() && dead == whites && |strcache| == |old(strcache)|
      ensures forall i, j :: 0 <= i < STRCACHE_N && 0 <= j < STRCACHE_M ==>
        strcache[i][j] == Kept(old(strcache)[i][j], whites)
    {
      ghost var before := strcache;
      for i := 0 to STRCACHE_N
        invariant |strcache| == STRCACHE_N && (forall k :: 0 <= k < STRCACHE_N ==> |strcache[k]| == STRCACHE_M)
        invariant forall k, j :: 0 <= k < i && 0 <= j < STRCACHE_M ==> strcache[k][j] == Kept(before[k][j], whites)
        invariant (forall k :: i <= k < STRCACHE_N ==> strcache[k] == before[k]) && dead == old(dead)
      {
        ClearRow(i, whites);
      }
      CacheCleared(before, strcache, whites);
      dead := whites;
    }

    method ClearRow(i: nat, whites: set<nat>)
      requires i < |strcache| && |strcache[i]| == STRCACHE_M
      modifies this`strcache
      ensures |strcache| == |old(strcache)| && |strcache[i]| == STRCACHE_M
      ensures forall k :: 0 <= k < |strcache| && k != i ==> strcache[k] == old(strcache)[k]
      ensures forall j :: 0 <= j < STRCACHE_M ==> strcache[i][j] == Kept(old(strcache)[i][j], whites)
    {
      ghost var before := strcache;
      for j := 0 to STRCACHE_M
        invariant |strcache| == |before| && |strcache[i]| == STRCACHE_M
        invariant forall k :: 0 <= k < |before| && k != i ==> strcache[k] == before[k]
        invariant forall l :: 0 <= l < j ==> strcache[i][l] == Kept(before[i][l], whites)
        invariant forall l :: j <= l < STRCACHE_M ==> strcache[i][l] == before[i][l]
      {
        strcache := strcache[i := strcache[i][j := Kept(strcache[i][j], whites)]];
      }
    }

    lemma CacheCleared(before: seq<seq<TString>>, after: seq<seq<TString>>, whites: set<nat>)
      requires CacheFits(before, All(), dead, nextId) && |after| == STRCACHE_N
      requires forall i :: 0 <= i < STRCACHE_N ==> |after[i]| == STRCACHE_M
      requires forall i, j :: 0 <= i < STRCACHE_N && 0 <= j < STRCACHE_M ==> after[i][j] == Kept(before[i][j], whites)
      requires memerrmsg in All() && memerrmsg.id !in whites && memerrmsg.id < nextId
      ensures CacheFits(after, All(), whites, nextId)
    {
      forall i, j | 0 <= i < STRCACHE_N && 0 <= j < STRCACHE_M ensures Fits(after[i][j], All(), whites, nextId) {
        assert Fits(before[i][j], All(), dead, nextId);
      }
    }

    // ----- the cache -----

    /** A string made from a C string, long or short. */
    method NewLStr(str: string) returns (ts: TString)
      requires Valid()
      modifies this
      ensures Valid() && ts.str == str && ts.id < nextId && ts.id !in dead
      ensures Short(str) ==> ts in All()
      ensures strcache == old(strcache)
    {
      if Short(str) {
        ts := Intern(str);
      } else {
        ts := TString(nextId, str);
        dead := dead - {nextId};
        nextId := nextId + 1;
      }
    }

    /** The string at address `addr`, which now holds `str`: what the cache has for the
        address if that is still the same, and the cached string is the very object that
        interning would give if it is short. */
    method New(addr: nat, str: string) returns (ts: TString)
      requires Valid()
      modifies this
      ensures Valid() && ts.str == str
      ensures Short(str) ==> ts in All() && forall t :: t in All() && t.str == str ==> t == ts
    {
      var i := addr % STRCACHE_N;
      for j := 0 to STRCACHE_M {
        if strcache[i][j].str == str {
          ts := strcache[i][j];
          assert CacheOk(ts);
          return;
        }
      }
      ts := NewLStr(str);
      Cache(i, ts);
    }

    /** Puts a string first among those of its slot. */
    method Cache(i: nat, ts: TString)
      requires Valid() && i < STRCACHE_N && CacheOk(ts)
      modifies this`strcache
      ensures Valid() && strcache[i] == [ts, old(strcache)[i][0]]
    {
      var p := strcache[i];
      for j := STRCACHE_M - 1 downto 0
        invariant |p| == STRCACHE_M && p[0] == strcache[i][0] && (j < 1 ==> p[1] == strcache[i][0])
      {
        if j + 1 < STRCACHE_M {
          p := p[j + 1 := p[j]];
        }
      }
      p := p[0 := ts];
      assert CacheOk(strcache[i][0]);
      strcache := strcache[i := p];
    }
  }

  // ----- runs -----

  datatype Action =
    | Make(str: string) | MakeAt(addr: nat, str: string)
    | Shrink                                  // when the table is mostly empty
    | Mark(whites: set<nat>) | Free(ts: TString)

  /** In every run equal short strings are one object. */
  method Run(t: Table, actions: seq<Action>)
    requires t.Valid()
    modifies t
    ensures t.Valid() && Canonical(t.All())
  {
    for i := 0 to |actions|
      invariant t.Valid()
    {
      match actions[i] {
        case Make(str) => var _ := t.NewLStr(str);
        case MakeAt(addr, str) => var _ := t.New(addr, str);
        case Shrink =>
          if t.nuse < |t.hash| / 4 {
            t.Resize(|t.hash| / 2);
          }
        case Mark(whites) =>
          if t.memerrmsg.id !in whites {
            t.ClearCache(whites);
          }
        case Free(ts) =>
          var found, it := t.Find(ts.str);
          if found && it.id in t.dead {
            t.Remove(it);
          }
      }
    }
  }
}
