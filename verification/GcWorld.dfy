/** The collector's state and the invariant it keeps while it marks. */
module GcWorld {
  import opened Prelude
  import opened GcHeap

  datatype Phase =
    | Propagate | Atomic | SwpAllgc | SwpFinobj | SwpTobefnz | SwpEnd | CallFin | Pause
    | InsideAtomic

  datatype List = AllGc | FinObj | ToBeFnz

  /** The place a sweep continues at: the head field of a list or the `next` field
      of an object. */
  datatype Cursor = NoCursor | Header(list: List) | NextOf(o: Obj)

  /** A snapshot of the global state. */
  datatype World = World(
    heap: Heap,
    color: map<Obj, Color>,
    fin: set<Obj>,           // objects with the finalized bit
    white: bool,             // the current white
    phase: Phase,
    allgc: seq<Obj>, finobj: seq<Obj>, tobefnz: seq<Obj>, fixedgc: seq<Obj>,
    gray: seq<Obj>, grayagain: seq<Obj>,
    weak: seq<Obj>, ephemeron: seq<Obj>, allweak: seq<Obj>,
    stale: set<Obj>,         // tables whose metatable changed while they wait in `allweak`
    blind: map<Obj, Object>, // objects a sweep has missed, and what they hold
    sweepgc: Cursor,
    mainthread: Obj, running: Obj, registry: Value, mt: seq<Value>,
    memerrmsg: Obj, strcache: seq<Obj>,
    gcfinnum: nat, emergency: bool)

  ghost predicate Sound(w: World) {
    && w.color.Keys == w.heap.objs.Keys
    && forall o :: o in w.heap.objs ==>
         Shaped(w.heap.objs[o]) && RefsIn(w.heap, Allocated(w.color), o)
  }

  /** The lists whose objects still have to be visited; the collector no longer
      looks at `grayagain` once it has saved it inside the atomic step. */
  function Again(w: World): seq<Obj> {
    if w.phase == InsideAtomic then [] else w.grayagain
  }

  ghost predicate Pending(w: World, todo: seq<Obj>, o: Obj) {
    o in w.gray || o in todo || o in Again(w)
  }

  ghost predicate Cleared(w: World, o: Obj) {
    o in w.weak || o in w.ephemeron || o in w.allweak
  }

  /** How often an object occurs in the gray lists, `todo` being one of them. */
  ghost function Listings(w: World, todo: seq<Obj>): multiset<Obj> {
    multiset(w.gray) + multiset(todo) + multiset(Again(w))
    + multiset(w.weak) + multiset(w.ephemeron) + multiset(w.allweak)
  }

  ghost predicate ListedOk(w: World, o: Obj) {
    o in w.heap.objs && o in w.color && w.color[o] == Gray && !Leaf(w.heap.objs[o].kind)
    && (Cleared(w, o) ==> w.heap.objs[o].kind == Table)
  }

  ghost predicate Listed(w: World, todo: seq<Obj>) {
    forall o :: Listings(w, todo)[o] <= 1 && (Listings(w, todo)[o] == 1 ==> ListedOk(w, o))
  }

  /** A marked object nobody has to come back to, except to clear it, has only
      marked references; a weak table waits in the list that says which of its
      entries may still be unmarked. Nothing is known of a stale table or of an object
      that a sweep has missed. */
  ghost predicate Visited(w: World, o: Obj)
    requires o in w.heap.objs
  {
    o in w.stale || o in w.blind || VisitedFully(w, o)
  }

  ghost predicate VisitedFully(w: World, o: Obj)
    requires o in w.heap.objs
  {
    var M := Marked(w.color);
    var r := w.heap.objs[o];
    && In(M, r.meta) && In(M, r.cache) && UpsIn(w.heap, M, r.ups)
    && (o !in w.weak && o !in w.allweak ==> SlotsIn(M, r.slots))
    && (o !in w.ephemeron && o !in w.allweak ==> KeysIn(M, r.nodes))
    && (o !in w.weak && o !in w.ephemeron && o !in w.allweak ==> ValsIn(M, r.nodes))
    && (o in w.weak ==> TableMode(w.heap, o) == WeakValues)
    && (o in w.ephemeron ==> TableMode(w.heap, o) == Ephemeron && SlotsIn(M, r.slots))
    && (o in w.allweak ==>
          || TableMode(w.heap, o) == AllWeak
          || (TableMode(w.heap, o) == Ephemeron && SlotsIn(M, r.slots) && ValsIn(M, r.nodes)))
  }

  /** The tricolour invariant: only objects in `busy` or in a list of objects still
      to be visited may refer to unmarked ones. */
  ghost predicate Tricolor(w: World, todo: seq<Obj>, busy: iset<Obj>) {
    forall o | o in w.heap.objs && o in w.color ::
      (!w.color[o].White? && o !in busy && !Pending(w, todo, o)) ==> Visited(w, o)
  }

  /** During the propagation, every gray object that is not fixed is in one of the
      lists and so in exactly one, as `Listed` says. */
  ghost predicate GrayListed(w: World, todo: seq<Obj>, busy: iset<Obj>) {
    w.phase == Propagate ==>
      forall o :: o in w.color && w.color[o] == Gray && o !in busy && o !in w.fixedgc && o !in w.blind ==>
        Pending(w, todo, o) || Cleared(w, o)
  }

  /** Threads are never black, so storing in a stack needs no barrier. */
  ghost predicate ThreadsGray(w: World, busy: iset<Obj>) {
    forall o :: o in w.color && o in w.heap.objs && w.color[o] == Black && o !in busy && o !in w.blind ==>
      w.heap.objs[o].kind != Thread
  }

  /** An object a sweep has missed still has the mark of the last collection, so that this
      one will not visit it. */
  ghost predicate BlindApart(w: World, todo: seq<Obj>, busy: iset<Obj>) {
    forall o :: o in w.blind ==>
      && o in w.heap.objs && w.heap.objs[o] == w.blind[o] && o in w.color && !w.color[o].White?
      && o !in busy && !Pending(w, todo, o) && !Cleared(w, o)
  }

  /** A stale table will not be visited again in this collection. */
  ghost predicate StaleWaits(w: World) {
    forall o :: o in w.stale ==> o in w.allweak
  }

  /** Nothing outside the closed set `X` is marked. */
  ghost predicate Bounded(w: World, X: iset<Obj>) {
    ClosedBut(w.heap, w.stale, w.blind, X) && Marked(w.color) <= X
  }

  ghost predicate Marking(w: World, todo: seq<Obj>, busy: iset<Obj>, X: iset<Obj>) {
    && w.color.Keys == w.heap.objs.Keys
    && forall k :: Key(k) ==> MarkingKeyed(w, todo, busy, X)
  }

  ghost predicate MarkingKeyed(w: World, todo: seq<Obj>, busy: iset<Obj>, X: iset<Obj>) {
    && Sound(w) && Listed(w, todo) && Tricolor(w, todo, busy) && GrayListed(w, todo, busy)
    && ThreadsGray(w, busy) && Bounded(w, X) && StaleWaits(w) && BlindApart(w, todo, busy)
  }

  lemma Unfold(w: World, todo: seq<Obj>, busy: iset<Obj>, X: iset<Obj>)
    requires Marking(w, todo, busy, X)
    ensures MarkingKeyed(w, todo, busy, X)
  {
    assert Key(0);
  }

  // ----- steps that only mark -----

  ghost function Work(w: World): nat { 2 * |Whites(w.color)| + |w.gray| }

  /** From `w` to `w2` white objects were marked, the new gray ones are in list
      `gray`, and entries were emptied; nothing else changed. */
  ghost predicate Spread(w: World, w2: World) {
    && w2 == w.(heap := w2.heap, color := w2.color, gray := w2.gray)
    && |Whites(w2.color)| <= |Whites(w.color)| && Work(w2) <= Work(w)
    && forall k :: Key(k) ==> SpreadKeyed(w, w2)
  }

  ghost predicate SpreadKeyed(w: World, w2: World) {
    && Tidied(w.heap, w2.heap)
    && w2.color.Keys == w.color.Keys
    && (forall o :: o in w.color && !w.color[o].White? ==> w2.color[o] == w.color[o])
    && (forall o :: o in w.color && w.color[o].White? ==>
          || w2.color[o] == w.color[o] || (w2.color[o] == Gray && o in w2.gray)
          || (w2.color[o] == Black && o in w.heap.objs && Leaf(w.heap.objs[o].kind)))
    && (forall o :: o in w.gray ==> o in w2.gray)
    && (forall o :: o in w2.gray ==> o in w.gray || (o in w.color && w.color[o].White?))
  }

  lemma SpreadOut(w: World, w2: World)
    requires Spread(w, w2)
    ensures SpreadKeyed(w, w2) && Marked(w.color) <= Marked(w2.color)
  {
    assert Key(0);
  }

  lemma SpreadIn(w: World, w2: World, v: Value)
    requires Spread(w, w2)
    ensures In(Allocated(w.color), v) ==> In(Allocated(w2.color), v)
    ensures In(Marked(w.color), v) ==> In(Marked(w2.color), v)
  {
    SpreadOut(w, w2);
  }

  lemma SpreadColor(w: World, w2: World, o: Obj)
    requires Spread(w, w2) && o in Marked(w.color)
    ensures o in w2.color && w2.color[o] == w.color[o]
  {
    SpreadOut(w, w2);
  }

  lemma SpreadTransitive(w: World, w1: World, w2: World)
    requires Spread(w, w1) && Spread(w1, w2)
    ensures Spread(w, w2)
  {
    SpreadOut(w, w1);
    SpreadOut(w1, w2);
    TidiedTransitive(w.heap, w1.heap, w2.heap);
  }

  lemma NoSpread(w: World)
    ensures Spread(w, w)
  {
  }

  lemma FewerWhites(c: map<Obj, Color>, c2: map<Obj, Color>, o: Obj)
    requires c2.Keys == c.Keys && o in c && c[o].White? && !c2[o].White?
    requires forall p :: p in c && !c[p].White? ==> !c2[p].White?
    ensures |Whites(c2)| < |Whites(c)|
  {
    assert Whites(c2) <= Whites(c) - {o};
    Subset(Whites(c2), Whites(c) - {o});
  }

  lemma Subset(a: set<Obj>, b: set<Obj>)
    requires a <= b
    ensures |a| <= |b|
  {
    assert b == a + (b - a);
  }

  /** `Visited` survives when more is marked and less is referred to. */
  lemma VisitedGrows(w: World, w2: World, o: Obj)
    requires o in w.heap.objs && Visited(w, o)
    requires Trimmed(w.heap, w2.heap) && Marked(w.color) <= Marked(w2.color)
    requires (o in w2.weak <==> o in w.weak) && (o in w2.ephemeron <==> o in w.ephemeron)
    requires o in w2.allweak <==> o in w.allweak
    requires (o in w.stale ==> o in w2.stale) && (o in w.blind ==> o in w2.blind)
    ensures o in w2.heap.objs && Visited(w2, o)
  {
    if o in w.stale || o in w.blind { return; }
    var M, M2, r := Marked(w.color), Marked(w2.color), w.heap.objs[o];
    TrimmedParts(w.heap, w2.heap, M2, o);
    PartsGrow(w.heap, M, M2, r);
    assert RecordTrimmed(r, w2.heap.objs[o]);
  }

  lemma PartsGrow(h: Heap, S: iset<Obj>, T: iset<Obj>, r: Object)
    requires S <= T
    ensures UpsIn(h, S, r.ups) ==> UpsIn(h, T, r.ups)
    ensures SlotsIn(S, r.slots) ==> SlotsIn(T, r.slots)
    ensures KeysIn(S, r.nodes) ==> KeysIn(T, r.nodes)
    ensures ValsIn(S, r.nodes) ==> ValsIn(T, r.nodes)
  {
    if UpsIn(h, S, r.ups) {
      forall i | 0 <= i < |r.ups| ensures In(T, Up(h, r.ups[i])) { assert In(S, Up(h, r.ups[i])); }
    }
  }

  lemma SoundTrimmed(w: World, w2: World)
    requires Sound(w) && Trimmed(w.heap, w2.heap) && w2.color.Keys == w.color.Keys
    ensures Sound(w2)
  {
    assert Allocated(w2.color) == Allocated(w.color);
    forall o | o in w2.heap.objs
      ensures Shaped(w2.heap.objs[o]) && RefsIn(w2.heap, Allocated(w2.color), o)
    {
      assert RefsIn(w.heap, Allocated(w.color), o);
      TrimmedParts(w.heap, w2.heap, Allocated(w.color), o);
      assert RecordTrimmed(w.heap.objs[o], w2.heap.objs[o]);
    }
  }

  lemma NotCleared(w: World, todo: seq<Obj>, o: Obj)
    requires Listings(w, todo)[o] == 0
    ensures !Cleared(w, o) && !Pending(w, todo, o)
  {
  }

  lemma WhiteNotListed(w: World, todo: seq<Obj>, o: Obj)
    requires Listed(w, todo) && o in w.color && w.color[o].White?
    ensures Listings(w, todo)[o] == 0
  {
  }

  /** From `w` to `w2` only the colour of white object `o` and the list `gray` changed. */
  ghost predicate MarksOne(w: World, o: Obj, w2: World) {
    && o in w.color && w.color[o].White? && o in w2.color && !w2.color[o].White?
    && w2 == w.(color := w.color[o := w2.color[o]], gray := w2.gray)
    && (w2.gray == w.gray || w2.gray == [o] + w.gray)
  }

  lemma MarksOneListings(w: World, o: Obj, w2: World, todo: seq<Obj>)
    requires MarksOne(w, o, w2)
    ensures w2.gray == w.gray ==> Listings(w2, todo) == Listings(w, todo)
    ensures w2.gray == [o] + w.gray ==> Listings(w2, todo) == Listings(w, todo) + multiset{o}
  {
    if w2.gray != w.gray { assert multiset(w2.gray) == multiset(w.gray) + multiset{o}; }
  }

  lemma MarksOneListed(w: World, o: Obj, w2: World, todo: seq<Obj>)
    requires MarksOne(w, o, w2) && Listed(w, todo) && o in w.heap.objs
    requires w2.gray == [o] + w.gray ==> w2.color[o] == Gray && !Leaf(w.heap.objs[o].kind)
    ensures Listed(w2, todo)
  {
    WhiteNotListed(w, todo, o);
    NotCleared(w, todo, o);
    MarksOneListings(w, o, w2, todo);
    var L, L2 := Listings(w, todo), Listings(w2, todo);
    forall p ensures L2[p] <= 1 && (L2[p] == 1 ==> ListedOk(w2, p)) {
      assert L[p] <= 1 && (L[p] == 1 ==> ListedOk(w, p));
      if p == o { assert L2[p] == 1 ==> w2.gray == [o] + w.gray; } else { assert L2[p] == L[p]; }
    }
  }

  lemma MarksOneTricolor(w: World, o: Obj, w2: World, todo: seq<Obj>, busy: iset<Obj>)
    requires MarksOne(w, o, w2) && Tricolor(w, todo, busy)
    ensures Tricolor(w2, todo, busy + iset{o})
    ensures w2.gray == [o] + w.gray ==> Tricolor(w2, todo, busy)
  {
    NoSpread(w);
    assert Marked(w.color) <= Marked(w2.color);
    forall p | p in w2.heap.objs && p in w2.color && !w2.color[p].White?
      && p !in busy && p != o && !Pending(w2, todo, p)
      ensures Visited(w2, p)
    {
      assert !Pending(w, todo, p);
      VisitedGrows(w, w2, p);
    }
  }

  lemma MarksOneGrayListed(w: World, o: Obj, w2: World, todo: seq<Obj>, busy: iset<Obj>)
    requires MarksOne(w, o, w2) && GrayListed(w, todo, busy)
    ensures GrayListed(w2, todo, busy + iset{o})
    ensures w2.gray == [o] + w.gray || w2.color[o] == Black ==> GrayListed(w2, todo, busy)
  {
    forall p | w.phase == Propagate && p in w2.color && w2.color[p] == Gray && p !in busy
      && p !in w.fixedgc && p !in w.blind && p != o
      ensures Pending(w2, todo, p) || Cleared(w2, p)
    {
      assert Pending(w, todo, p) || Cleared(w, p);
    }
  }

  lemma MarksOneBlind(w: World, o: Obj, w2: World, todo: seq<Obj>, busy: iset<Obj>)
    requires MarksOne(w, o, w2) && BlindApart(w, todo, busy)
    ensures BlindApart(w2, todo, busy) && BlindApart(w2, todo, busy + iset{o})
  {
  }

  lemma MarksOneRest(w: World, o: Obj, w2: World, busy: iset<Obj>, X: iset<Obj>)
    requires MarksOne(w, o, w2) && Bounded(w, X) && StaleWaits(w) && ThreadsGray(w, busy) && o in X
    requires w2.color[o] == Black ==> o in w.heap.objs && w.heap.objs[o].kind != Thread
    ensures Bounded(w2, X) && StaleWaits(w2) && ThreadsGray(w2, busy) && ThreadsGray(w2, busy + iset{o})
  {
  }

  lemma MarksOneSpread(w: World, o: Obj, w2: World)
    requires MarksOne(w, o, w2)
    requires w2.color[o] == Gray ==> w2.gray == [o] + w.gray
    requires w2.color[o] == Black ==> o in w.heap.objs && Leaf(w.heap.objs[o].kind)
    requires Sound(w)
    ensures Spread(w, w2) && Sound(w2) && |Whites(w2.color)| < |Whites(w.color)|
  {
    FewerWhites(w.color, w2.color, o);
    TrimmedSelf(w.heap);
    SoundTrimmed(w, w2);
    assert SpreadKeyed(w, w2);
  }

  lemma TrimmedSelf(h: Heap)
    ensures Trimmed(h, h) && Tidied(h, h)
  {
  }

  /** Marking one more object of a kind that has to be visited. */
  lemma MarkedGray(w: World, o: Obj, todo: seq<Obj>, busy: iset<Obj>, X: iset<Obj>)
    requires Marking(w, todo, busy, X) && o in w.color && w.color[o].White? && o in X
    requires !Leaf(w.heap.objs[o].kind)
    ensures var w2 := w.(color := w.color[o := Gray], gray := [o] + w.gray);
      Marking(w2, todo, busy, X) && Spread(w, w2) && |Whites(w2.color)| < |Whites(w.color)|
  {
    var w2 := w.(color := w.color[o := Gray], gray := [o] + w.gray);
    Unfold(w, todo, busy, X);
    MarksOneListed(w, o, w2, todo);
    MarksOneTricolor(w, o, w2, todo, busy);
    MarksOneGrayListed(w, o, w2, todo, busy);
    MarksOneBlind(w, o, w2, todo, busy);
    MarksOneRest(w, o, w2, busy, X);
    MarksOneSpread(w, o, w2);
  }

  /** Marking one more string or userdata, which needs no list. */
  lemma MarkedBlack(w: World, o: Obj, todo: seq<Obj>, busy: iset<Obj>, X: iset<Obj>)
    requires Marking(w, todo, busy, X) && o in w.color && w.color[o].White? && o in X
    requires Leaf(w.heap.objs[o].kind)
    ensures var w2 := w.(color := w.color[o := Black]);
      && Marking(w2, todo, busy + iset{o}, X) && Spread(w, w2)
      && |Whites(w2.color)| < |Whites(w.color)|
      && (w.heap.objs[o].kind == Str ==> Marking(w2, todo, busy, X))
  {
    var w2 := w.(color := w.color[o := Black]);
    Unfold(w, todo, busy, X);
    MarksOneListed(w, o, w2, todo);
    MarksOneTricolor(w, o, w2, todo, busy);
    MarksOneGrayListed(w, o, w2, todo, busy);
    MarksOneBlind(w, o, w2, todo, busy);
    MarksOneRest(w, o, w2, busy, X);
    MarksOneSpread(w, o, w2);
    if w.heap.objs[o].kind == Str {
      StringVisited(w2, o, todo);
      Done(w2, o, todo, busy, X);
    }
  }

  lemma StringVisited(w: World, o: Obj, todo: seq<Obj>)
    requires Sound(w) && Listed(w, todo) && o in w.heap.objs && w.heap.objs[o].kind == Str
    ensures Visited(w, o)
  {
    assert Shaped(w.heap.objs[o]);
    assert Listings(w, todo)[o] <= 1 && (Listings(w, todo)[o] == 1 ==> ListedOk(w, o));
    NotCleared(w, todo, o);
  }

  /** An object all of whose references are marked needs no further visit. */
  lemma Done(w: World, o: Obj, todo: seq<Obj>, busy: iset<Obj>, X: iset<Obj>)
    requires Marking(w, todo, busy + iset{o}, X)
    requires o in w.heap.objs && Visited(w, o) && w.color[o] == Black
    requires w.heap.objs[o].kind != Thread
    ensures Marking(w, todo, busy, X)
  {
    Unfold(w, todo, busy + iset{o}, X);
  }

  /** `u` is a userdata with nothing left to mark but its user value `o`. */
  ghost predicate Awaits(w: World, u: Obj, o: Obj) {
    && u in w.heap.objs && w.heap.objs[u].kind == Udata
    && u in w.color && w.color[u] == Black && In(Marked(w.color), w.heap.objs[u].meta) && w.heap.objs[u].slots == [Ref(o)]
  }

  /** `hold` keeps back the userdata `u`, if there is one whose user value is next. */
  ghost predicate Chained(w: World, u: Obj, o: Obj, busy: iset<Obj>, hold: iset<Obj>) {
    hold == busy || (hold == busy + iset{u} && Awaits(w, u, o))
  }

  lemma ChainStep(w: World, w2: World, u: Obj, o: Obj, busy: iset<Obj>, hold: iset<Obj>,
                  todo: seq<Obj>, more: iset<Obj>, X: iset<Obj>)
    requires Chained(w, u, o, busy, hold) && Spread(w, w2) && w2.heap == w.heap
    requires o in Marked(w2.color) && Marking(w2, todo, hold + more, X)
    ensures Marking(w2, todo, busy + more, X)
  {
    if hold == busy + iset{u} && Awaits(w, u, o) {
      SpreadOut(w, w2);
      assert hold + more == (busy + more) + iset{u};
      Release(w2, u, o, todo, busy + more, X);
    }
  }

  lemma NowMarked(w: World, w2: World, o: Obj)
    requires Spread(w, w2) && o in w.color && w.color[o].White? && o in Marked(w2.color)
    ensures |Whites(w2.color)| < |Whites(w.color)|
  {
    SpreadOut(w, w2);
    FewerWhites(w.color, w2.color, o);
  }

  lemma Release(w: World, u: Obj, o: Obj, todo: seq<Obj>, busy: iset<Obj>, X: iset<Obj>)
    requires Marking(w, todo, busy + iset{u}, X) && Awaits(w, u, o)
    requires o in Marked(w.color)
    ensures Marking(w, todo, busy, X)
  {
    Unfold(w, todo, busy + iset{u}, X);
    UserdataVisited(w, u, todo);
    Done(w, u, todo, busy, X);
  }

  lemma UserdataVisited(w: World, u: Obj, todo: seq<Obj>)
    requires Sound(w) && Listed(w, todo)
    requires u in w.heap.objs && w.heap.objs[u].kind == Udata
    requires In(Marked(w.color), w.heap.objs[u].meta)
    requires In(Marked(w.color), w.heap.objs[u].slots[0])
    ensures Visited(w, u)
  {
    assert Shaped(w.heap.objs[u]);
    assert Listings(w, todo)[u] <= 1 && (Listings(w, todo)[u] == 1 ==> ListedOk(w, u));
    NotCleared(w, todo, u);
  }

  /** A closed set contains what one of its objects refers to strongly. */
  lemma InBound(w: World, o: Obj, todo: seq<Obj>, busy: iset<Obj>, X: iset<Obj>)
    requires Marking(w, todo, busy, X) && o in Marked(w.color)
    ensures RefsIn(w.heap, Allocated(w.color), o) && Shaped(w.heap.objs[o]) && o in X
    ensures w.heap.objs[o].kind != Table ==> o !in w.stale
    ensures o in w.stale ==> StringsIn(w.heap, X, o) && o !in w.blind
    ensures o in busy ==> o !in w.blind
    ensures o !in w.stale && o !in w.blind ==> StrongIn(w.heap, X, o, true)
  {
    Unfold(w, todo, busy, X);
    assert Listings(w, todo)[o] <= 1 && (Listings(w, todo)[o] == 1 ==> ListedOk(w, o));
    if o in w.stale { assert o in w.allweak; assert Listings(w, todo)[o] >= 1; }
  }

  // ----- visiting one object -----

  /** Object `o` has been taken from its list and is being visited. */
  ghost predicate Visiting(w: World, o: Obj, todo: seq<Obj>, X: iset<Obj>) {
    && Marking(w, todo, iset{o}, X)
    && o in Marked(w.color) && forall k :: Key(k) ==> Listings(w, todo)[o] == 0
  }

  lemma VisitingSpread(w: World, w2: World, o: Obj, todo: seq<Obj>, X: iset<Obj>)
    requires Visiting(w, o, todo, X) && Spread(w, w2) && Marking(w2, todo, iset{o}, X)
    ensures Visiting(w2, o, todo, X)
  {
    assert Listings(w, todo)[o] == 0 by { assert Key(0); }
    StillUnlisted(w, w2, o, todo);
    assert o in Marked(w2.color) by { SpreadOut(w, w2); }
  }

  lemma StillUnlisted(w: World, w2: World, o: Obj, todo: seq<Obj>)
    requires Spread(w, w2) && o in Marked(w.color) && Listings(w, todo)[o] == 0
    ensures Listings(w2, todo)[o] == 0
  {
    SpreadOut(w, w2);
    NotCleared(w, todo, o);
    assert multiset(w2.gray)[o] == 0;
  }

  function SetNode(h: Heap, o: Obj, i: nat, n: Node): Heap
    requires o in h.objs && i < |h.objs[o].nodes|
  {
    var r := h.objs[o];
    h.(objs := h.objs[o := r.(nodes := r.nodes[i := n])])
  }

  function SetSlot(h: Heap, o: Obj, i: nat, v: Value): Heap
    requires o in h.objs && i < |h.objs[o].slots|
  {
    var r := h.objs[o];
    h.(objs := h.objs[o := r.(slots := r.slots[i := v])])
  }

  function SetCache(h: Heap, o: Obj, v: Value): Heap
    requires o in h.objs
  {
    h.(objs := h.objs[o := h.objs[o].(cache := v)])
  }

  /** Emptying an entry, a slot or a cache keeps the marking invariant. */
  lemma TrimMarking(w: World, w2: World, todo: seq<Obj>, busy: iset<Obj>, X: iset<Obj>)
    requires Marking(w, todo, busy, X) && Trimmed(w.heap, w2.heap) && w2 == w.(heap := w2.heap)
    requires forall o :: o in w.blind && o in w.heap.objs ==> w2.heap.objs[o] == w.heap.objs[o]
    ensures Marking(w2, todo, busy, X)
    ensures Tidied(w.heap, w2.heap) ==> Spread(w, w2)
  {
    Unfold(w, todo, busy, X);
    SoundTrimmed(w, w2);
    ClosedTrimmed(w.heap, w2.heap, w.stale, w.blind, X);
    TrimListed(w, w2, todo);
    TrimTricolor(w, w2, todo, busy);
    assert GrayListed(w2, todo, busy);
    assert MarkingKeyed(w2, todo, busy, X);
    if Tidied(w.heap, w2.heap) { TidySpread(w, w2); }
  }

  lemma TidySpread(w: World, w2: World)
    requires Tidied(w.heap, w2.heap) && w2 == w.(heap := w2.heap)
    ensures Spread(w, w2)
  {
    assert SpreadKeyed(w, w2);
  }

  lemma TrimTricolor(w: World, w2: World, todo: seq<Obj>, busy: iset<Obj>)
    requires Tricolor(w, todo, busy) && Trimmed(w.heap, w2.heap) && w2 == w.(heap := w2.heap)
    ensures Tricolor(w2, todo, busy)
  {
    forall p | p in w2.heap.objs && p in w2.color && !w2.color[p].White?
      && p !in busy && !Pending(w2, todo, p)
      ensures Visited(w2, p)
    {
      assert !Pending(w, todo, p);
      VisitedGrows(w, w2, p);
    }
  }

  lemma TrimListed(w: World, w2: World, todo: seq<Obj>)
    requires Listed(w, todo) && Trimmed(w.heap, w2.heap) && w2 == w.(heap := w2.heap)
    ensures Listed(w2, todo)
  {
    assert Listings(w2, todo) == Listings(w, todo);
    forall p ensures Listings(w2, todo)[p] <= 1 && (Listings(w2, todo)[p] == 1 ==> ListedOk(w2, p)) {
      assert Listings(w, todo)[p] <= 1 && (Listings(w, todo)[p] == 1 ==> ListedOk(w, p));
      if ListedOk(w, p) { assert RecordTrimmed(w.heap.objs[p], w2.heap.objs[p]); }
    }
  }

  lemma SlotsStep(w: World, w2: World, s: seq<Value>, i: nat)
    requires i < |s| && Spread(w, w2)
    requires SlotsIn(Marked(w.color), s[..i]) && In(Marked(w2.color), s[i])
    ensures SlotsIn(Marked(w2.color), s[..i + 1])
  {
    SpreadOut(w, w2);
    var t := s[..i + 1];
    forall k | 0 <= k < |t| ensures In(Marked(w2.color), t[k]) {
      if k < i { assert t[k] == s[..i][k]; }
    }
  }

  // ----- visiting the entries of a table -----

  function NodesOf(w: World, o: Obj): seq<Node> {
    if o in w.heap.objs then w.heap.objs[o].nodes else []
  }

  /** From `w` to `w2` one entry was dealt with. */
  ghost predicate EntryStep(w: World, w2: World, o: Obj, i: nat) {
    && Spread(w, w2) && i < |NodesOf(w, o)| == |NodesOf(w2, o)|
    && NodesOf(w2, o) == NodesOf(w, o)[i := NodesOf(w2, o)[i]]
    && (o in w.heap.objs && o in w2.heap.objs ==> SlotsOf(w2, o) == SlotsOf(w, o))
  }

  function SlotsOf(w: World, o: Obj): seq<Value> {
    if o in w.heap.objs then w.heap.objs[o].slots else []
  }

  /** From `w` to `w2` the hash part of `o` changed at entry `i` only. */
  ghost predicate NodeStep(w: World, w2: World, o: Obj, i: nat) {
    && i < |NodesOf(w, o)| == |NodesOf(w2, o)|
    && NodesOf(w2, o) == NodesOf(w, o)[i := NodesOf(w2, o)[i]]
  }

  lemma KeysGrow(w: World, w2: World, o: Obj, i: nat)
    requires NodeStep(w, w2, o, i) && Marked(w.color) <= Marked(w2.color)
    requires KeysIn(Marked(w.color), NodesOf(w, o)[..i])
    requires In(Marked(w2.color), NodesOf(w2, o)[i].key)
    ensures KeysIn(Marked(w2.color), NodesOf(w2, o)[..i + 1])
  {
    var t := NodesOf(w2, o)[..i + 1];
    forall k | 0 <= k < |t| ensures In(Marked(w2.color), t[k].key) {
      if k < i { assert t[k] == NodesOf(w, o)[..i][k]; }
    }
  }

  lemma ValsGrow(w: World, w2: World, o: Obj, i: nat)
    requires NodeStep(w, w2, o, i) && Marked(w.color) <= Marked(w2.color)
    requires ValsIn(Marked(w.color), NodesOf(w, o)[..i])
    requires In(Marked(w2.color), NodesOf(w2, o)[i].val)
    ensures ValsIn(Marked(w2.color), NodesOf(w2, o)[..i + 1])
  {
    var t := NodesOf(w2, o)[..i + 1];
    forall k | 0 <= k < |t| ensures In(Marked(w2.color), t[k].val) {
      if k < i { assert t[k] == NodesOf(w, o)[..i][k]; }
    }
  }

  lemma KeysStep(w: World, w2: World, o: Obj, i: nat)
    requires EntryStep(w, w2, o, i)
    requires KeysIn(Marked(w.color), NodesOf(w, o)[..i])
    requires In(Marked(w2.color), NodesOf(w2, o)[i].key)
    ensures KeysIn(Marked(w2.color), NodesOf(w2, o)[..i + 1])
  {
    SpreadOut(w, w2);
    KeysGrow(w, w2, o, i);
  }

  lemma ValsStep(w: World, w2: World, o: Obj, i: nat)
    requires EntryStep(w, w2, o, i)
    requires ValsIn(Marked(w.color), NodesOf(w, o)[..i])
    requires In(Marked(w2.color), NodesOf(w2, o)[i].val)
    ensures ValsIn(Marked(w2.color), NodesOf(w2, o)[..i + 1])
  {
    SpreadOut(w, w2);
    ValsGrow(w, w2, o, i);
  }

  /** A table that is being visited is not stale, nor was it missed. */
  lemma VisitBound(w: World, o: Obj, todo: seq<Obj>, X: iset<Obj>)
    requires Visiting(w, o, todo, X)
    ensures RefsIn(w.heap, Allocated(w.color), o) && Shaped(w.heap.objs[o]) && o in X
    ensures StrongIn(w.heap, X, o, true) && o !in w.stale && o !in w.blind
  {
    assert Listings(w, todo)[o] == 0 by { assert Key(0); }
    NotCleared(w, todo, o);
    InBound(w, o, todo, iset{o}, X);
    Unfold(w, todo, iset{o}, X);
  }

  /** What visiting entry `i` of a table needs to know. */
  lemma EntryBound(w: World, o: Obj, i: nat, todo: seq<Obj>, X: iset<Obj>)
    requires Visiting(w, o, todo, X) && i < |NodesOf(w, o)|
    ensures var n := NodesOf(w, o)[i];
      && EntryIn(w.heap, X, TableMode(w.heap, o), n, true)
      && In(Allocated(w.color), n.key) && In(Allocated(w.color), n.val)
  {
    VisitBound(w, o, todo, X);
  }

  lemma EntryAllocated(w: World, o: Obj, i: nat, todo: seq<Obj>, busy: iset<Obj>, X: iset<Obj>)
    requires Marking(w, todo, busy, X) && o in Marked(w.color) && i < |NodesOf(w, o)|
    ensures In(Allocated(w.color), NodesOf(w, o)[i].key) && In(Allocated(w.color), NodesOf(w, o)[i].val)
  {
    InBound(w, o, todo, busy, X);
  }

  /** Removing the key of an empty entry. */
  lemma NodeEmptied(w: World, o: Obj, i: nat, n: Node, todo: seq<Obj>, busy: iset<Obj>, X: iset<Obj>)
    requires Marking(w, todo, busy, X) && i < |NodesOf(w, o)|
    requires NodeTrimmed(NodesOf(w, o)[i], n) && NodesOf(w, o)[i].val == Nil && o !in w.blind
    ensures var w2 := w.(heap := SetNode(w.heap, o, i, n));
      && EntryStep(w, w2, o, i) && Marking(w2, todo, busy, X)
      && TableMode(w2.heap, o) == TableMode(w.heap, o)
  {
    var w2 := w.(heap := SetNode(w.heap, o, i, n));
    assert Trimmed(w.heap, w2.heap) && Tidied(w.heap, w2.heap);
    TrimMarking(w, w2, todo, busy, X);
    TrimmedParts(w.heap, w2.heap, X, o);
  }

  /** Marking without emptying anything leaves entry `i` as it was. */
  lemma EntryMarked(w: World, w2: World, o: Obj, i: nat)
    requires Spread(w, w2) && w2.heap == w.heap && i < |NodesOf(w, o)|
    ensures EntryStep(w, w2, o, i)
  {
    assert NodesOf(w2, o) == NodesOf(w, o)[i := NodesOf(w2, o)[i]];
  }

  lemma SlotsKept(w: World, w2: World, o: Obj)
    requires Spread(w, w2) && SlotsIn(Marked(w.color), SlotsOf(w, o)) && SlotsOf(w2, o) == SlotsOf(w, o)
    ensures SlotsIn(Marked(w2.color), SlotsOf(w2, o))
  {
    SpreadOut(w, w2);
  }
}
