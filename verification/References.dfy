/** References to values kept in a table, with the free slots linked through the table. */
module References {
  /** A value that is not nil; a slot that is nil is not in the table. */
  datatype Value = Number(n: int) | Other(x: int)

  type Slots = map<int, Value>

  const REFNIL: int := -1

  /** The slot that holds the head of the list of free slots. */
  const FREELIST: int := 0

  /** lua_tointeger of a slot: nil and what is not a number count as zero. */
  function ToInteger(t: Slots, i: int): int {
    if i in t && t[i].Number? then t[i].n else 0
  }

  /** t[to] = t[from], which may be nil. */
  function CopySlot(t: Slots, from: int, to: int): Slots {
    if from in t then t[to := t[from]] else t - {to}
  }

  /** What the length operator may give: a slot in use followed by one that is not. */
  predicate Border(t: Slots, n: nat) {
    (n == 0 || n in t) && n + 1 !in t
  }

  /** The free slots `free` are linked from slot `head` on. */
  ghost predicate Linked(t: Slots, head: int, free: seq<int>)
    decreases |free|
  {
    if free == [] then head == 0
    else head == free[0] && head != 0 && Linked(t, ToInteger(t, head), free[1..])
  }

  /** Slots 1 to `n` are the live references and the free slots, each once. */
  ghost predicate Valid(t: Slots, n: nat, live: map<int, Value>, free: seq<int>) {
    && Linked(t, ToInteger(t, FREELIST), free)
    && (forall i, j :: 0 <= i < j < |free| ==> free[i] != free[j])
    && (forall i :: i in live || i in free <==> 1 <= i <= n)
    && (forall i :: i in live ==> i !in free && i in t && t[i] == live[i])
    && (forall i :: i in t ==> 0 <= i <= n)
  }

  /** Slots that are not free do not matter to the list. */
  lemma {:induction false} LinkedFrame(t: Slots, t2: Slots, head: int, free: seq<int>)
    requires Linked(t, head, free)
    requires forall i :: i in free ==> ToInteger(t2, i) == ToInteger(t, i)
    ensures Linked(t2, head, free)
    decreases |free|
  {
    if free != [] {
      assert head in free;
      assert forall i :: i in free[1..] ==> i in free;
      LinkedFrame(t, t2, ToInteger(t, head), free[1..]);
    }
  }

  /** Without free slots the table has no hole, and so a single border. */
  lemma SingleBorder(t: Slots, n: nat, live: map<int, Value>, m: nat)
    requires Valid(t, n, live, []) && Border(t, m)
    ensures m == n
  {
    assert m in t ==> m <= n;
    assert 1 <= m + 1 <= n ==> m + 1 in live;
  }

  class Table {
    var t: Slots
    ghost var n: nat
    ghost var live: map<int, Value>    // the live references and their values
    ghost var free: seq<int>

    ghost predicate Ok()
      reads this
    {
      Valid(t, n, live, free)
    }

    constructor ()
      ensures Ok() && live == map[]
    {
      t, n, live, free := map[], 0, map[], [];
    }

    /** Makes a reference to `v`; `border` is what the length operator gives if asked. */
    method Ref(v: Value, border: nat) returns (ref: int)
      requires Ok() && Border(t, border)
      modifies this
      ensures Ok() && ref >= 1 && ref !in old(live) && live == old(live)[ref := v]
      ensures old(free) != [] ==> ref == old(free)[0] && free == old(free)[1..] && n == old(n)
      ensures old(free) == [] ==> ref == n == old(n) + 1 && free == []
    {
      ghost var t0 := t;
      ref := ToInteger(t, FREELIST);
      if ref != 0 {
        Taken(t, n, live, free, v);
        t := CopySlot(t, ref, FREELIST);
        free := free[1..];
      } else {
        SingleBorder(t, n, live, border);
        Appended(t, n, live, v);
        ref := border + 1;
        n := n + 1;
      }
      t := t[ref := v];
      live := live[ref := v];
    }

    /** Drops a reference that is live; a negative one stands for nil. */
    method Unref(ref: int)
      requires Ok() && (ref in live || ref < 0)
      modifies this
      ensures Ok() && live == if ref >= 0 then old(live) - {ref} else old(live)
      ensures n == old(n) && free == if ref >= 0 then [ref] + old(free) else old(free)
    {
      if ref >= 0 {
        Dropped(t, n, live, free, ref);
        t := CopySlot(t, FREELIST, ref);
        t := t[FREELIST := Number(ref)];
        free := [ref] + free;
        live := live - {ref};
      } else {
        assert ref !in live;
      }
    }
  }

  /** Each of the first `n` numbers is in use or free, so that a new number is taken only
      when all are in use. */
  lemma SlotCount(t: Slots, n: nat, live: map<int, Value>, free: seq<int>)
    requires Valid(t, n, live, free)
    ensures |live| + |free| == n
  {
    var used, left, all := live.Keys, Members(free), UpTo(n);
    assert used + left == all by {
      forall i ensures i in used + left <==> i in all {
        assert i in live || i in free <==> 1 <= i <= n;
      }
    }
    assert used !! left;
    assert |all| == |used| + |left|;
  }

  /** The numbers from 1 to `n`. */
  function UpTo(n: nat): (r: set<int>)
    ensures |r| == n && forall i :: i in r <==> 1 <= i <= n
  {
    if n == 0 then {} else UpTo(n - 1) + {n}
  }

  function Members(s: seq<int>): (r: set<int>)
    requires forall i, j :: 0 <= i < j < |s| ==> s[i] != s[j]
    ensures |r| == |s| && forall i :: i in r <==> i in s
  {
    if s == [] then {}
    else
      assert s == [s[0]] + s[1..];
      Members(s[1..]) + {s[0]}
  }

  lemma Taken(t: Slots, n: nat, live: map<int, Value>, free: seq<int>, v: Value)
    requires Valid(t, n, live, free) && ToInteger(t, FREELIST) != 0
    ensures free != [] && var ref := ToInteger(t, FREELIST);
      ref !in live && ref >= 1 && Valid(CopySlot(t, ref, FREELIST)[ref := v], n, live[ref := v], free[1..])
  {
    var ref := ToInteger(t, FREELIST);
    assert ref == free[0] && ref in free;
    var t2 := CopySlot(t, ref, FREELIST)[ref := v];
    var rest := free[1..];
    assert forall i :: i in rest ==> i in free;
    assert forall i :: i in free && i != ref ==> i in rest;
    assert ref !in rest;
    LinkedFrame(t, t2, ToInteger(t, ref), rest);
    assert ToInteger(t2, FREELIST) == ToInteger(t, ref);
  }

  lemma Appended(t: Slots, n: nat, live: map<int, Value>, v: Value)
    requires Valid(t, n, live, [])
    ensures n + 1 !in live && Valid(t[n + 1 := v], n + 1, live[n + 1 := v], [])
  {
    var t2, live2 := t[n + 1 := v], live[n + 1 := v];
    assert n + 1 !in live;
    forall i ensures i in live2 <==> 1 <= i <= n + 1 {
      assert i in live || i in [] <==> 1 <= i <= n;
    }
  }

  lemma Dropped(t: Slots, n: nat, live: map<int, Value>, free: seq<int>, ref: int)
    requires Valid(t, n, live, free) && ref in live
    ensures Valid(CopySlot(t, FREELIST, ref)[FREELIST := Number(ref)], n, live - {ref}, [ref] + free)
  {
    var t2 := CopySlot(t, FREELIST, ref)[FREELIST := Number(ref)];
    var free2, live2 := [ref] + free, live - {ref};
    LinkedFrame(t, t2, ToInteger(t, FREELIST), free);
    assert free2[1..] == free;
    assert ToInteger(t2, ref) == ToInteger(t, FREELIST);
    forall i ensures i in live2 || i in free2 <==> 1 <= i <= n {
      assert i in live || i in free <==> 1 <= i <= n;
      assert i in free2 <==> i == ref || i in free;
    }
  }

  // ----- runs -----

  datatype Action = Make(v: Value, border: nat) | Drop(ref: int)

  /** In every run live references are distinct and keep their values. */
  method Run(table: Table, actions: seq<Action>) returns (made: map<int, Value>)
    requires table.Ok() && table.live == map[]
    modifies table
    ensures table.Ok() && made == table.live
    ensures forall ref :: ref in made ==> ref in table.t && table.t[ref] == made[ref]
  {
    made := map[];
    for i := 0 to |actions|
      invariant table.Ok() && made == table.live
    {
      match actions[i] {
        case Make(v, border) =>
          if Border(table.t, border) {
            var ref := table.Ref(v, border);
            made := made[ref := v];
          }
        case Drop(ref) =>
          if ref in made {
            table.Unref(ref);
            made := if ref >= 0 then made - {ref} else made;
          }
      }
    }
  }
}
