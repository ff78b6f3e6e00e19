/** The invariant of the collector in every phase, and the sweep. */
module GcState {
  import opened Prelude
  import opened GcHeap
  import opened GcWorld
  import opened GcLimits
  import opened GcVisit
  import opened GcAtomic

  // ----- ownership -----

  ghost function Owners(w: World): multiset<Obj> {
    multiset(w.allgc) + multiset(w.finobj) + multiset(w.tobefnz) + multiset(w.fixedgc)
  }

  /** Every object but the main thread is in exactly one of the four lists, and has
      the finalized bit exactly when it is in `finobj` or `tobefnz`. */
  ghost predicate Owned(w: World) {
    && (forall o :: Owners(w)[o] == if o in w.heap.objs && o != w.mainthread then 1 else 0)
    && (forall o :: o in w.fin <==> o in w.finobj || o in w.tobefnz)
  }

  ghost predicate Base(w: World) {
    Owned(w) && WellFormed(w)
  }

  ghost predicate WellFormed(w: World) {
    && w.color.Keys == w.heap.objs.Keys
    && (forall o :: o in w.heap.objs ==> Shaped(w.heap.objs[o]))
    && w.mainthread in w.heap.objs && w.heap.objs[w.mainthread].kind == Thread
    && (forall o :: o in w.fixedgc ==>
          o in w.heap.objs && w.heap.objs[o].kind == Str && !w.color[o].White?)
    && w.memerrmsg in w.fixedgc
    && (w.tobefnz != [] ==> w.gcfinnum > 0)
    && (forall o :: o in w.fin && o in w.heap.objs ==> w.heap.objs[o].kind != Str)
  }

  // ----- nothing dangles -----

  ghost function Alive(w: World): iset<Obj> { Live(w.color, w.white) }

  /** An object that is not dead refers only to objects that are not dead, and so do
      the roots, the string cache and the lists of objects with finalizers; an object that
      a sweep has missed need not. */
  ghost predicate Sealed(w: World) {
    && w.color.Keys == w.heap.objs.Keys
    && (forall o :: o in w.heap.objs && o in Alive(w) && o !in w.blind ==> RefsIn(w.heap, Alive(w), o))
    && (forall o :: o in w.blind ==> o in Alive(w))
    && Rooted(w, Alive(w)) && ListIn(Alive(w), w.finobj) && ListIn(Alive(w), w.strcache)
  }

  /** What holds in every phase. */
  ghost predicate Intact(w: World) {
    && w.color.Keys == w.heap.objs.Keys
    && forall k :: Key(k) ==> Base(w) && Sealed(w)
  }

  lemma IntactOut(w: World)
    requires Intact(w)
    ensures Base(w) && Sealed(w)
  {
    assert Key(0);
  }

  // ----- the sweep -----

  /** The objects of `s` have the current white, those apart that a sweep has missed. */
  ghost predicate Current(w: World, s: seq<Obj>) {
    forall o :: o in s ==> o in w.color && (o in w.blind || w.color[o] == White(w.white))
  }

  function ListOf(w: World, which: List): seq<Obj> {
    match which
    case AllGc => w.allgc
    case FinObj => w.finobj
    case ToBeFnz => w.tobefnz
  }

  function IndexOf(l: seq<Obj>, o: Obj): (i: nat)
    ensures i <= |l| && (i < |l| ==> l[i] == o) && (o in l ==> i < |l|)
  {
    if l == [] || l[0] == o then 0 else 1 + IndexOf(l[1..], o)
  }

  /** Where in list `l` the sweep continues. */
  function Position(l: seq<Obj>, p: Cursor): (i: nat)
    ensures i <= |l| || p.NextOf?
  {
    match p
    case NoCursor => |l|
    case Header(_) => 0
    case NextOf(o) => IndexOf(l, o) + 1
  }

  function CursorAt(which: List, l: seq<Obj>, i: nat): Cursor
    requires i <= |l|
  {
    if i == |l| then NoCursor else if i == 0 then Header(which) else NextOf(l[i - 1])
  }

  /** `sweepgc` points into list `which`, and all before it has been swept. */
  ghost predicate Sweeping(w: World, which: List) { SweptTo(w, which, w.sweepgc) }

  /** A sweep of list `which` that has got to `p` has whitened all before. */
  ghost predicate SweptTo(w: World, which: List, p: Cursor) {
    var l := ListOf(w, which);
    && (p.Header? ==> p.list == which) && (p.NextOf? ==> p.o in l)
    && Position(l, p) <= |l| && Current(w, l[..Position(l, p)])
  }

  ghost predicate SweepPhase(w: World) {
    match w.phase
    case SwpAllgc => Sweeping(w, AllGc)
    case SwpFinobj => Current(w, w.allgc) && Sweeping(w, FinObj)
    case SwpTobefnz =>
      && Current(w, w.allgc) && Current(w, w.finobj)
      && ((Sweeping(w, ToBeFnz) && w.blind == map[]) || Astray(w))
    case SwpEnd => AllSwept(w) && w.sweepgc == NoCursor
    case CallFin => AllSwept(w) && Current(w, [w.mainthread]) && w.sweepgc == NoCursor
    case Pause => AllSwept(w) && Current(w, [w.mainthread]) && w.sweepgc == NoCursor
    case _ => false
  }

  /** The sweep of `tobefnz` has got into `allgc`; what it has missed on the way keeps its
      colour. */
  ghost predicate Astray(w: World) {
    SweptTo(w, AllGc, w.sweepgc) && Current(w, w.tobefnz) && forall o :: o in w.blind ==> o !in w.allgc
  }

  ghost predicate AllSwept(w: World) {
    Current(w, w.allgc) && Current(w, w.finobj) && Current(w, w.tobefnz)
  }

  // ----- the invariant -----

  predicate MarkingPhase(p: Phase) { p == Propagate || p == Atomic }

  predicate SweepingPhase(p: Phase) {
    p == SwpAllgc || p == SwpFinobj || p == SwpTobefnz || p == SwpEnd
  }

  /** Every gray object that is not fixed is in one of the gray lists. */
  ghost predicate GrayInLists(w: World) {
    forall o :: o in w.color && w.color[o] == Gray && o !in w.fixedgc && o !in w.blind ==>
      Pending(w, [], o) || Cleared(w, o)
  }

  /** While the mutator runs, a table in `allweak` that has stopped being an all-weak table
      is stale. */
  ghost predicate MarkPhase(w: World, X: iset<Obj>) { MarkPhaseBut(w, iset{}, X) }

  ghost predicate MarkPhaseBut(w: World, busy: iset<Obj>, X: iset<Obj>) {
    && Marking(w, [], busy, X)
    && w.weak == [] && w.ephemeron == []
    && (w.phase == Propagate ==> w.gray != []) && w.sweepgc == NoCursor
    && forall k :: Key(k) ==> MarkPhaseKeyed(w, X)
  }

  ghost predicate MarkPhaseKeyed(w: World, X: iset<Obj>) {
    GrayInLists(w) && AllWeakTables(w) && Alive(w) == Allocated(w.color) && Started(w) && Bounds(w, X)
  }

  ghost predicate AllWeakTables(w: World) {
    forall o :: o in w.allweak && o in w.heap.objs && o !in w.stale ==>
      TableMode(w.heap, o) == AllWeak
  }

  ghost predicate Started(w: World) {
    && w.mainthread in Marked(w.color) && ListIn(Marked(w.color), w.tobefnz)
  }

  lemma MarkPhaseOut(w: World, X: iset<Obj>)
    requires MarkPhase(w, X)
    ensures MarkPhaseKeyed(w, X)
  {
    assert Key(0);
  }

  /** What a sweep has missed still holds what it held then. Until the next atomic step it
      has its old mark, and refers to live objects. */
  ghost predicate BlindOk(w: World) {
    && w.mainthread !in w.blind
    && forall o :: o in w.blind ==>
         && o in w.heap.objs && w.heap.objs[o] == w.blind[o]
         && (w.phase != SwpAllgc && w.phase != SwpFinobj ==>
               KeptBlind(w, o))
  }

  ghost predicate KeptBlind(w: World, o: Obj)
    requires o in w.heap.objs
  {
    o in w.color && !w.color[o].White? && RefsIn(w.heap, Alive(w), o)
  }

  /** The sweep of the two big lists may turn what was missed white at last. */
  lemma SweptBlind(w: World, w2: World)
    requires Intact(w) && BlindOk(w) && Sweeps(w, w2)
    requires w2.phase != SwpAllgc && w2.phase != SwpFinobj ==>
      && w.phase != SwpAllgc && w.phase != SwpFinobj
      && forall o :: o in w.blind && o in w.color ==> o in w2.color && w2.color[o] == w.color[o]
    ensures BlindOk(w2)
  {
    IntactOut(w);
    SweepsOut(w, w2);
    forall o | o in w2.blind
      ensures o in w2.heap.objs && w2.heap.objs[o] == w2.blind[o]
      ensures w2.phase != SwpAllgc && w2.phase != SwpFinobj ==> KeptBlind(w2, o)
    {
      assert o in Alive(w);
      if w2.phase != SwpAllgc && w2.phase != SwpFinobj {
        assert KeptBlind(w, o);
        UpsSame(w.heap, w2.heap, Alive(w), w.heap.objs[o].ups);
      }
    }
  }

  /** What holds even when a sweep has gone astray, or a metatable has come too late.
      Nothing outside `X` is marked, or kept after the atomic step. */
  ghost predicate Loose(w: World, X: iset<Obj>) {
    w.color.Keys == w.heap.objs.Keys && forall k :: Key(k) ==> LooseKeyed(w, X)
  }

  lemma LooseOut(w: World, X: iset<Obj>)
    requires Loose(w, X)
    ensures LooseKeyed(w, X)
  {
    assert Key(0);
  }

  ghost predicate LooseKeyed(w: World, X: iset<Obj>) {
    && Intact(w) && BlindOk(w)
    && (if MarkingPhase(w.phase) then MarkPhase(w, X) else w.stale == {} && SweepPhase(w))
    && (w.phase == Pause ==> Kept(w, X))
    && (SweepingPhase(w.phase) || w.phase == CallFin ==> Alive(w) <= X)
  }

  /** The invariant: no sweep has missed an object, and no metatable came too late. */
  ghost predicate Valid(w: World, X: iset<Obj>) {
    Loose(w, X) && w.blind == map[] && StaleMarked(w)
  }

  lemma LooseMark(w: World, X: iset<Obj>)
    requires Intact(w) && BlindOk(w) && MarkingPhase(w.phase) && MarkPhase(w, X)
    ensures Loose(w, X)
  {
    assert LooseKeyed(w, X);
  }

  lemma LooseSweep(w: World, X: iset<Obj>)
    requires Intact(w) && BlindOk(w) && !MarkingPhase(w.phase) && w.stale == {} && SweepPhase(w)
    requires w.phase == Pause ==> Kept(w, X)
    requires SweepingPhase(w.phase) || w.phase == CallFin ==> Alive(w) <= X
    ensures Loose(w, X)
  {
    assert LooseKeyed(w, X);
  }

  // ----- what the invariant means for the program -----

  ghost predicate Differs(q: Obj, o: Obj) { q != o }

  ghost function AllBut(o: Obj): iset<Obj> { iset q | Differs(q, o) }

  ghost predicate Refers(h: Heap, o: Obj, p: Obj) {
    o in h.objs && !RecordIn(h, AllBut(p), h.objs[o])
  }

  /** A chain of references, weak ones included. */
  ghost predicate Chain(h: Heap, path: seq<Obj>) {
    forall i :: 0 <= i < |path| - 1 ==> Refers(h, path[i], path[i + 1])
  }

  ghost predicate Root(w: World, o: Obj) { !Rooted(w, AllBut(o)) || o in w.strcache }

  /** Whatever the program can get at is allocated and will not be freed. */
  lemma {:induction false} AccessibleAlive(w: World, path: seq<Obj>)
    requires Sealed(w) && w.blind == map[] && path != [] && Root(w, path[0]) && Chain(w.heap, path)
    ensures path[|path| - 1] in w.heap.objs && path[|path| - 1] in Alive(w)
  {
    var last := path[|path| - 1];
    if |path| == 1 {
      if last !in Alive(w) { RootedGrows(w, Alive(w), AllBut(last)); }
    } else {
      var front := path[..|path| - 1];
      forall i | 0 <= i < |front| - 1 ensures Refers(w.heap, front[i], front[i + 1]) {
        assert Refers(w.heap, path[i], path[i + 1]);
      }
      AccessibleAlive(w, front);
      var o := front[|front| - 1];
      assert Refers(w.heap, path[|path| - 2], path[|path| - 2 + 1]);
      if last !in Alive(w) { RecordGrows(w.heap, Alive(w), AllBut(last), w.heap.objs[o]); }
    }
  }

  /** In particular whatever is strongly reachable. */
  lemma ReachedAlive(w: World)
    requires Sealed(w)
    ensures Reached(w) <= Alive(w)
  {
    forall o | o in w.heap.objs && o in Alive(w) && o !in w.blind
      ensures In(Alive(w), w.heap.objs[o].meta) && StrongIn(w.heap, Alive(w), o, false)
    {
      assert RefsIn(w.heap, Alive(w), o);
    }
    assert Encloses(w, Alive(w));
  }

  // ----- sweeping one object -----

  /** From `w` to `w2` dead objects were freed and others turned white. */
  ghost predicate Sweeps(w: World, w2: World) {
    && w2 == w.(heap := w2.heap, color := w2.color, allgc := w2.allgc, phase := w2.phase,
                sweepgc := w2.sweepgc)
    && forall k :: Key(k) ==> SweepsKeyed(w, w2)
  }

  ghost predicate SweepsKeyed(w: World, w2: World) {
    && Alive(w2) == Alive(w) && w2.heap.ups == w.heap.ups
    && (forall o :: o in w2.heap.objs ==> o in w.heap.objs && w2.heap.objs[o] == w.heap.objs[o])
    && (forall o :: o in w.heap.objs && o in Alive(w) ==> o in w2.heap.objs)
    && w2.color.Keys == w2.heap.objs.Keys
    && (forall o :: o in w2.color && o in w.color ==>
          w2.color[o] == w.color[o] || w2.color[o] == White(w.white))
  }

  lemma CurrentKept(w: World, w2: World, s: seq<Obj>)
    requires Sweeps(w, w2) && Intact(w) && Current(w, s)
    ensures Current(w2, s)
  {
    SweepsOut(w, w2);
    IntactOut(w);
    forall o | o in s ensures o in w2.color && (o in w2.blind || w2.color[o] == White(w2.white)) {
      assert o in Alive(w);
    }
  }

  lemma SweepsOut(w: World, w2: World)
    requires Sweeps(w, w2)
    ensures SweepsKeyed(w, w2)
  {
    assert Key(0);
  }

  /** Every object that is alive is still there and holds what it held. */
  ghost predicate LiveSame(w: World, w2: World) {
    w2.heap.ups == w.heap.ups && forall k :: Key(k) ==> LiveKeyed(w, w2)
  }

  ghost predicate LiveKeyed(w: World, w2: World) {
    forall o :: o in w.heap.objs && o in Alive(w) ==> o in w2.heap.objs && w2.heap.objs[o] == w.heap.objs[o]
  }

  lemma SweepsLive(w: World, w2: World)
    requires Sweeps(w, w2)
    ensures LiveSame(w, w2)
  {
    SweepsOut(w, w2);
    assert LiveKeyed(w, w2);
  }

  lemma SameHeapLive(w: World, w2: World)
    requires w2.heap == w.heap
    ensures LiveSame(w, w2)
  {
    assert LiveKeyed(w, w2);
  }

  lemma LiveThere(w: World, w2: World, o: Obj)
    requires LiveSame(w, w2) && o in w.heap.objs && o in Alive(w)
    ensures o in w2.heap.objs && w2.heap.objs[o] == w.heap.objs[o]
  {
    assert LiveKeyed(w, w2) by { assert Key(0); }
  }

  lemma LiveOn(w: World, w1: World, w2: World)
    requires LiveSame(w, w1) && w2.heap == w1.heap
    ensures LiveSame(w, w2)
  {
    assert LiveKeyed(w, w1) by { assert Key(0); }
    assert LiveKeyed(w, w2);
  }

  /** The same, but for `o`, which holds `r` now. */
  ghost predicate LiveBut(w: World, w2: World, o: Obj, r: Object) {
    && o in w2.heap.objs && w2.heap.objs[o] == r && w2.heap.ups == w.heap.ups
    && forall p :: p in w.heap.objs && p in Alive(w) && p != o ==>
         p in w2.heap.objs && w2.heap.objs[p] == w.heap.objs[p]
  }

  lemma ChangedLive(w: World, w1: World, w2: World, o: Obj, r: Object)
    requires w1.heap == w.heap.(objs := w.heap.objs[o := r]) && Alive(w1) == Alive(w) && o in Alive(w)
    requires LiveSame(w1, w2)
    ensures LiveBut(w, w2, o, r)
  {
    assert LiveKeyed(w1, w2) by { assert Key(0); }
  }

  lemma SweepsTransitive(w: World, w1: World, w2: World)
    requires Sweeps(w, w1) && Sweeps(w1, w2)
    ensures Sweeps(w, w2)
  {
    SweepsOut(w, w1);
    SweepsOut(w1, w2);
  }

  ghost function Without(w: World, o: Obj): World {
    w.(heap := w.heap.(objs := w.heap.objs - {o}), color := w.color - {o})
  }

  /** A dead object can be unlinked and freed. */
  lemma Freed(w: World, which: List, i: nat)
    requires Intact(w) && i < |ListOf(w, which)| && ListOf(w, which)[i] !in Alive(w)
    ensures which == AllGc
    ensures var w2 := Without(w.(allgc := w.allgc[..i] + w.allgc[i + 1..]), w.allgc[i]);
      Intact(w2) && Sweeps(w, w2)
  {
    IntactOut(w);
    assert ListOf(w, which)[i] in ListOf(w, which);
    var w2 := Without(w.(allgc := w.allgc[..i] + w.allgc[i + 1..]), w.allgc[i]);
    FreedBase(w, i, w2);
    FreedSealed(w, w.allgc[i], w2);
  }

  lemma FreedSealed(w: World, o: Obj, w2: World)
    requires Sealed(w) && o !in Alive(w)
    requires w2 == Without(w, o).(allgc := w2.allgc)
    ensures Sealed(w2) && Sweeps(w, w2)
  {
    assert Alive(w2) == Alive(w);
    forall p | p in w2.heap.objs && p in Alive(w2) && p !in w2.blind ensures RefsIn(w2.heap, Alive(w2), p) {
      assert RefsIn(w.heap, Alive(w), p);
      UpsSame(w.heap, w2.heap, Alive(w), w.heap.objs[p].ups);
    }
    assert SweepsKeyed(w, w2);
  }

  lemma UpsSame(h: Heap, h2: Heap, S: iset<Obj>, us: seq<UpVal>)
    requires h2.ups == h.ups && UpsIn(h, S, us)
    ensures UpsIn(h2, S, us)
  {
    forall i | 0 <= i < |us| ensures In(S, Up(h2, us[i])) { assert In(S, Up(h, us[i])); }
  }

  lemma FreedBase(w: World, i: nat, w2: World)
    requires Base(w) && Sealed(w) && i < |w.allgc| && w.allgc[i] !in Alive(w)
    requires w2 == Without(w.(allgc := w.allgc[..i] + w.allgc[i + 1..]), w.allgc[i])
    ensures Base(w2)
  {
    var o := w.allgc[i];
    FreedOwners(w, i, w2);
    FreedOwned(w, o, w2);
    FreedWellFormed(w, o, w2);
  }

  lemma FreedOwners(w: World, i: nat, w2: World)
    requires Owned(w) && i < |w.allgc|
    requires w2 == Without(w.(allgc := w.allgc[..i] + w.allgc[i + 1..]), w.allgc[i])
    ensures Owners(w) == Owners(w2) + multiset{w.allgc[i]} && Owners(w)[w.allgc[i]] == 1
    ensures w.allgc[i] != w.mainthread && w.allgc[i] !in w.fixedgc
  {
    var o := w.allgc[i];
    assert w.allgc == w.allgc[..i] + [o] + w.allgc[i + 1..];
    assert o in w.allgc && Owners(w)[o] >= 1;
  }

  lemma FreedWellFormed(w: World, o: Obj, w2: World)
    requires WellFormed(w) && w2 == Without(w, o).(allgc := w2.allgc)
    requires o != w.mainthread && o !in w.fixedgc
    ensures WellFormed(w2)
  {
  }

  lemma FreedOwned(w: World, o: Obj, w2: World)
    requires Owned(w) && Owners(w)[o] == 1 && Owners(w) == Owners(w2) + multiset{o}
    requires w2 == Without(w, o).(allgc := w2.allgc) && o != w.mainthread
    ensures Owned(w2)
  {
    forall p ensures Owners(w2)[p] == if p in w2.heap.objs && p != w2.mainthread then 1 else 0 {
      assert Owners(w)[p] == if p in w.heap.objs && p != w.mainthread then 1 else 0;
    }
  }

  /** An object that is not dead gets the current white. */
  lemma Whitened(w: World, o: Obj)
    requires Intact(w) && o in Alive(w) && o !in w.fixedgc
    ensures var w2 := w.(color := w.color[o := White(w.white)]);
      Intact(w2) && Sweeps(w, w2) && Alive(w2) == Alive(w)
  {
    var w2 := w.(color := w.color[o := White(w.white)]);
    assert Alive(w2) == Alive(w);
    WhitenedIntact(w, o, w2);
    assert SweepsKeyed(w, w2);
  }

  lemma WhitenedIntact(w: World, o: Obj, w2: World)
    requires Intact(w) && o in Alive(w) && o !in w.fixedgc && Alive(w2) == Alive(w)
    requires w2 == w.(color := w.color[o := White(w.white)])
    ensures Intact(w2)
  {
    IntactOut(w);
    WhitenedBase(w, o, w2);
    WhitenedSealed(w, w2);
  }

  lemma WhitenedBase(w: World, o: Obj, w2: World)
    requires Base(w) && o in w.color && o !in w.fixedgc && w2 == w.(color := w.color[o := White(w.white)])
    ensures Base(w2)
  {
    assert Owners(w2) == Owners(w);
    assert forall p :: Owners(w2)[p] == Owners(w)[p];
  }

  lemma WhitenedSealed(w: World, w2: World)
    requires Sealed(w) && w2 == w.(color := w2.color) && w2.color.Keys == w.color.Keys
    requires Alive(w2) == Alive(w)
    ensures Sealed(w2)
  {
    forall p | p in w2.heap.objs && p in Alive(w2) && p !in w2.blind ensures RefsIn(w2.heap, Alive(w2), p) {
      assert RefsIn(w.heap, Alive(w), p);
    }
  }

  /** An object is found where it is, since no list holds an object twice. */
  lemma {:induction false} IndexOfAt(l: seq<Obj>, i: nat)
    requires i < |l| && multiset(l)[l[i]] <= 1
    ensures IndexOf(l, l[i]) == i
  {
    if i > 0 {
      assert l == [l[0]] + l[1..];
      assert l[1..][i - 1] == l[i] && l[i] in l[1..];
      IndexOfAt(l[1..], i - 1);
    }
  }

  lemma CursorPosition(w: World, which: List, i: nat)
    requires Intact(w) && i <= |ListOf(w, which)|
    ensures Position(ListOf(w, which), CursorAt(which, ListOf(w, which), i)) == i
  {
    if 0 < i < |ListOf(w, which)| {
      assert Owned(w) by { IntactOut(w); }
      OnceIn(w, which, ListOf(w, which)[i - 1]);
      IndexOfAt(ListOf(w, which), i - 1);
    }
  }

  lemma OnceIn(w: World, which: List, o: Obj)
    requires Owned(w)
    ensures multiset(ListOf(w, which))[o] <= 1
  {
    assert Owners(w)[o] <= 1;
  }

  /** Only objects of list `which` were swept. */
  ghost predicate SameOthers(w: World, w2: World, which: List) {
    && (forall other :: other != which ==> ListOf(w2, other) == ListOf(w, other))
    && forall k :: Key(k) ==> SweptOnly(w, w2, which)
  }

  ghost predicate SweptOnly(w: World, w2: World, which: List) {
    && (forall o :: o in ListOf(w2, which) ==> o in ListOf(w, which))
    && (forall o :: o in w.color && o !in ListOf(w, which) ==> o in w2.color && w2.color[o] == w.color[o])
  }

  lemma SameOthersTransitive(w: World, w1: World, w2: World, which: List)
    requires SameOthers(w, w1, which) && SameOthers(w1, w2, which)
    ensures SameOthers(w, w2, which)
  {
    assert SweptOnly(w, w1, which) && SweptOnly(w1, w2, which) by { assert Key(0); }
  }

  function Remaining(l: seq<Obj>, p: Cursor): int { |l| - Position(l, p) }

  lemma SweptStep(w: World, w2: World, which: List, i: nat)
    requires i < |ListOf(w, which)| && ListOf(w2, which) == ListOf(w, which)
    requires w2 == w.(color := w.color[ListOf(w, which)[i] := White(w.white)])
    requires Current(w, ListOf(w, which)[..i])
    ensures Current(w2, ListOf(w2, which)[..i + 1])
  {
    assert ListOf(w, which)[..i + 1] == ListOf(w, which)[..i] + [ListOf(w, which)[i]];
  }

  lemma FreedStep(w: World, i: nat, w2: World)
    requires i < |w.allgc| && Current(w, w.allgc[..i]) && w.allgc[i] !in Alive(w) && Intact(w)
    requires w2 == Without(w.(allgc := w.allgc[..i] + w.allgc[i + 1..]), w.allgc[i])
    ensures i <= |w2.allgc| && Current(w2, w2.allgc[..i])
  {
    IntactOut(w);
    assert w2.allgc[..i] == w.allgc[..i];
  }

  lemma NotFixed(w: World, which: List, o: Obj)
    requires Intact(w) && o in ListOf(w, which)
    ensures o !in w.fixedgc && o in w.color && o in w.heap.objs && o != w.mainthread
  {
    IntactOut(w);
    assert Owners(w)[o] <= 1;
    assert multiset(ListOf(w, which))[o] >= 1;
    assert o in w.fixedgc ==> Owners(w)[o] >= 2;
  }

  /** `Intact` does not depend on the phase and the sweep position. */
  lemma IntactMoved(w: World, w2: World)
    requires Intact(w) && w2 == w.(phase := w2.phase, sweepgc := w2.sweepgc)
    ensures Intact(w2)
  {
    IntactOut(w);
    MovedBase(w, w2);
    MovedSealed(w, w2);
  }

  lemma MovedBase(w: World, w2: World)
    requires Base(w) && w2 == w.(phase := w2.phase, sweepgc := w2.sweepgc)
    ensures Base(w2)
  {
    assert Owners(w2) == Owners(w);
    assert forall o :: Owners(w2)[o] == Owners(w)[o];
  }

  lemma MovedSealed(w: World, w2: World)
    requires Sealed(w) && w2 == w.(phase := w2.phase, sweepgc := w2.sweepgc)
    ensures Sealed(w2)
  {
    assert Alive(w2) == Alive(w);
  }

  lemma MovedSweeps(w: World, w2: World)
    requires w.color.Keys == w.heap.objs.Keys && w2 == w.(phase := w2.phase, sweepgc := w2.sweepgc)
    ensures Sweeps(w, w2)
  {
    assert Alive(w2) == Alive(w);
  }

  lemma SweptNoMore(w: World, which: List)
    requires SweptTo(w, which, NoCursor)
    ensures Current(w, ListOf(w, which))
  {
    assert ListOf(w, which)[..|ListOf(w, which)|] == ListOf(w, which);
  }

  lemma MovedSweep(w: World, w2: World, which: List, p: Cursor)
    requires Intact(w) && SweptTo(w, which, p) && w2 == w.(sweepgc := p)
    ensures Intact(w2) && Sweeps(w, w2) && SweptTo(w2, which, p) && SameOthers(w, w2, which)
  {
    MovedOthers(w, w2, which);
    IntactMoved(w, w2);
    MovedSweeps(w, w2);
  }

  lemma FreedOthers(w: World, i: nat)
    requires i < |w.allgc|
    ensures SameOthers(w, Without(w.(allgc := w.allgc[..i] + w.allgc[i + 1..]), w.allgc[i]), AllGc)
  {
    var w2 := Without(w.(allgc := w.allgc[..i] + w.allgc[i + 1..]), w.allgc[i]);
    assert SweptOnly(w, w2, AllGc);
  }

  lemma WhitenedOthers(w: World, o: Obj, which: List)
    requires o in ListOf(w, which) && o in w.color
    ensures SameOthers(w, w.(color := w.color[o := White(w.white)]), which)
  {
    assert SweptOnly(w, w.(color := w.color[o := White(w.white)]), which);
  }

  lemma MovedOthers(w: World, w2: World, which: List)
    requires w2 == w.(phase := w2.phase, sweepgc := w2.sweepgc)
    ensures SameOthers(w, w2, which)
  {
    assert SweptOnly(w, w2, which);
  }
}
