/** What the program does between two steps of the collector: it stores references,
    with a barrier where the collector asks for one. */
module GcMutator {
  import opened Prelude
  import opened GcHeap
  import opened GcWorld
  import opened GcLimits
  import opened GcVisit
  import opened GcAtomic
  import opened GcState
  import opened GcPhases
  import opened GcSteps

  /** The invariant but for what the marked objects in `busy` refer to. */
  ghost predicate ValidBut(w: World, busy: iset<Obj>) {
    && Intact(w) && w.blind == map[] && StaleMarked(w)
    && (if MarkingPhase(w.phase) then MarkPhaseBut(w, busy, Everything()) else w.stale == {} && SweepPhase(w))
  }

  lemma ValidSome(w: World)
    ensures Valid(w, Everything()) <==> ValidBut(w, iset{})
  {
    if Valid(w, Everything()) { LooseOut(w, Everything()); }
    if ValidBut(w, iset{}) {
      if MarkingPhase(w.phase) { ValidMark(w); } else { ValidSweep(w); }
    }
  }

  // ----- storing -----

  ghost function Stored(w: World, o: Obj, r: Object): World {
    w.(heap := w.heap.(objs := w.heap.objs[o := r]))
  }

  /** The new record differs in what it refers to. */
  ghost predicate Replaces(r: Object, r2: Object) {
    r2.kind == r.kind && r2.mode == r.mode && r2.hasGc == r.hasGc && Shaped(r2)
  }

  /** Storing references to live objects keeps the invariant, but for `o` itself. */
  lemma StoredBut(w: World, o: Obj, r: Object)
    requires Valid(w, Everything()) && o in w.heap.objs && Replaces(w.heap.objs[o], r)
    requires RecordIn(w.heap, Alive(w), r)
    requires MarkingPhase(w.phase) && o in w.allweak && o !in w.stale ==> ModeOf(w.heap, r.meta) == AllWeak
    requires o in w.stale ==> In(Marked(w.color), r.meta)
    ensures ValidBut(Stored(w, o, r), iset{o})
  {
    LooseOut(w, Everything());
    var w2 := Stored(w, o, r);
    StoredIntact(w, o, r);
    if MarkingPhase(w.phase) {
      MarkPhaseOut(w, Everything());
      StoredMarking(w, o, r);
      StoredMarkKeyed(w, o, r);
    } else {
      StoredSweep(w, o, r);
    }
  }

  lemma StoredIntact(w: World, o: Obj, r: Object)
    requires Intact(w) && o in w.heap.objs && Replaces(w.heap.objs[o], r)
    requires RecordIn(w.heap, Alive(w), r)
    ensures Intact(Stored(w, o, r))
  {
    IntactOut(w);
    StoredBase(w, o, r);
    StoredSealed(w, o, r);
  }

  lemma StoredSealed(w: World, o: Obj, r: Object)
    requires Sealed(w) && o in w.heap.objs && RecordIn(w.heap, Alive(w), r)
    ensures Sealed(Stored(w, o, r))
  {
    var w2 := Stored(w, o, r);
    assert Alive(w2) == Alive(w);
    assert w2.heap.objs.Keys == w.heap.objs.Keys;
    forall p | p in w2.heap.objs && p in Alive(w2) && p !in w2.blind ensures RefsIn(w2.heap, Alive(w2), p) {
      if p != o { assert RefsIn(w.heap, Alive(w), p); }
      UpsSame(w.heap, w2.heap, Alive(w), w2.heap.objs[p].ups);
    }
  }

  lemma StoredBase(w: World, o: Obj, r: Object)
    requires Base(w) && o in w.heap.objs && Replaces(w.heap.objs[o], r)
    ensures Base(Stored(w, o, r))
  {
    var w2 := Stored(w, o, r);
    assert Owners(w2) == Owners(w);
    assert forall p :: Owners(w2)[p] == Owners(w)[p];
    assert w2.heap.objs.Keys == w.heap.objs.Keys;
  }

  lemma StoredSweep(w: World, o: Obj, r: Object)
    requires SweepPhase(w)
    ensures SweepPhase(Stored(w, o, r))
  {
    assert forall s :: Current(w, s) ==> Current(Stored(w, o, r), s);
  }

  lemma StoredMarkKeyed(w: World, o: Obj, r: Object)
    requires MarkPhaseKeyed(w, Everything()) && o in w.heap.objs && Replaces(w.heap.objs[o], r)
    requires o in w.allweak && o !in w.stale ==> ModeOf(w.heap, r.meta) == AllWeak
    ensures MarkPhaseKeyed(Stored(w, o, r), Everything())
  {
    var w2 := Stored(w, o, r);
    assert Alive(w2) == Alive(w);
    forall p | p in w2.allweak && p in w2.heap.objs && p !in w2.stale ensures TableMode(w2.heap, p) == AllWeak {
      StoredModes(w.heap, o, r, w2.heap.objs[p].meta);
      if p != o { assert TableMode(w.heap, p) == AllWeak; }
    }
    forall p | p in w2.color && w2.color[p] == Gray && p !in w2.fixedgc && p !in w2.blind
      ensures Pending(w2, [], p) || Cleared(w2, p)
    {
      assert Pending(w, [], p) || Cleared(w, p);
    }
  }

  lemma StoredModes(h: Heap, o: Obj, r: Object, v: Value)
    requires o in h.objs && Replaces(h.objs[o], r)
    ensures ModeOf(h.(objs := h.objs[o := r]), v) == ModeOf(h, v)
  {
  }

  lemma StoredMarking(w: World, o: Obj, r: Object)
    requires Marking(w, [], iset{}, Everything()) && MarkPhaseKeyed(w, Everything())
    requires o in w.heap.objs && Replaces(w.heap.objs[o], r) && RecordIn(w.heap, Alive(w), r)
    requires w.blind == map[]
    ensures Marking(Stored(w, o, r), [], iset{o}, Everything())
  {
    var w2 := Stored(w, o, r);
    Unfold(w, [], iset{}, Everything());
    StoredSound(w, o, r);
    StoredListed(w, o, r);
    StoredTricolor(w, o, r);
    EverythingClosed(w2);
    assert MarkingKeyed(w2, [], iset{o}, Everything());
  }

  lemma StoredSound(w: World, o: Obj, r: Object)
    requires Sound(w) && o in w.heap.objs && Shaped(r) && RecordIn(w.heap, Allocated(w.color), r)
    ensures Sound(Stored(w, o, r))
  {
    var w2 := Stored(w, o, r);
    forall p | p in w2.heap.objs ensures Shaped(w2.heap.objs[p]) && RefsIn(w2.heap, Allocated(w2.color), p) {
      if p != o { assert RefsIn(w.heap, Allocated(w.color), p); }
      UpsSame(w.heap, w2.heap, Allocated(w.color), w2.heap.objs[p].ups);
    }
  }

  lemma StoredListed(w: World, o: Obj, r: Object)
    requires Listed(w, []) && o in w.heap.objs && Replaces(w.heap.objs[o], r)
    ensures Listed(Stored(w, o, r), [])
  {
    var w2 := Stored(w, o, r);
    var L, L2 := Listings(w, []), Listings(w2, []);
    assert L2 == L;
    forall p ensures L2[p] <= 1 && (L2[p] == 1 ==> ListedOk(w2, p)) {
      assert L[p] <= 1 && (L[p] == 1 ==> ListedOk(w, p));
    }
  }

  lemma StoredTricolor(w: World, o: Obj, r: Object)
    requires Tricolor(w, [], iset{}) && GrayListed(w, [], iset{})
    requires o in w.heap.objs && Replaces(w.heap.objs[o], r)
    requires w.blind == map[]
    ensures Tricolor(Stored(w, o, r), [], iset{o}) && GrayListed(Stored(w, o, r), [], iset{o})
  {
    var w2 := Stored(w, o, r);
    forall p | p in w2.heap.objs && p in w2.color && !w2.color[p].White? && p !in iset{o}
      && !Pending(w2, [], p)
      ensures Visited(w2, p)
    {
      assert !Pending(w, [], p) && Visited(w, p);
      StoredModes(w.heap, o, r, w.heap.objs[p].meta);
      if p !in w.stale { UpsSame(w.heap, w2.heap, Marked(w.color), w.heap.objs[p].ups); }
    }
    forall p | w.phase == Propagate && p in w2.color && w2.color[p] == Gray && p !in iset{o}
      && p !in w2.fixedgc && p !in w2.blind
      ensures Pending(w2, [], p) || Cleared(w2, p)
    {
      assert Pending(w, [], p) || Cleared(w, p);
    }
  }

  // ----- the end of a store -----

  /** When `o` need not have marked references, or has. */
  ghost predicate Harmless(w: World, o: Obj) {
    && o in w.heap.objs && o in w.color
    && (w.color[o] == Black ==> w.heap.objs[o].kind != Thread)
    && (w.color[o].White? || Pending(w, [], o) || Visited(w, o))
  }

  lemma StoreDone(w: World, o: Obj)
    requires ValidBut(w, iset{o}) && (MarkingPhase(w.phase) ==> Harmless(w, o))
    ensures Valid(w, Everything())
  {
    if MarkingPhase(w.phase) {
      Unfold(w, [], iset{o}, Everything());
      MarkPhaseButOut(w, iset{o});
      assert MarkingKeyed(w, [], iset{}, Everything());
      assert MarkPhaseKeyed(w, Everything());
    }
    ValidSome(w);
  }

  lemma MarkPhaseButOut(w: World, busy: iset<Obj>)
    requires MarkPhaseBut(w, busy, Everything())
    ensures MarkPhaseKeyed(w, Everything())
  {
    assert Key(0);
  }

  // ----- barriers -----

  lemma SpreadBut(w: World, w2: World, busy: iset<Obj>)
    requires ValidBut(w, busy) && MarkingPhase(w.phase) && Spread(w, w2)
    requires Marking(w2, [], busy, Everything())
    ensures ValidBut(w2, busy)
  {
    SpreadOut(w, w2);
    assert Alive(w) == Allocated(w.color) by { MarkPhaseButOut(w, busy); }
    MarkedIntact(w, w2);
    MarkPhaseSpread(w, w2, busy);
  }

  lemma MarkPhaseSpread(w: World, w2: World, busy: iset<Obj>)
    requires MarkPhaseBut(w, busy, Everything()) && Spread(w, w2) && Alive(w2) == Allocated(w2.color)
    requires Marking(w2, [], busy, Everything())
    ensures MarkPhaseBut(w2, busy, Everything())
  {
    MarkPhaseButOut(w, busy);
    SpreadOut(w, w2);
    SpreadMarkKeyed(w, w2);
    if w.phase == Propagate { GrayStays(w, w2); }
  }

  lemma GrayStays(w: World, w2: World)
    requires SpreadKeyed(w, w2) && w.gray != []
    ensures w2.gray != []
  {
    assert w.gray[0] in w2.gray;
  }

  lemma SpreadMarkKeyed(w: World, w2: World)
    requires MarkPhaseKeyed(w, Everything()) && SpreadKeyed(w, w2) && Spread(w, w2)
    requires Alive(w2) == Allocated(w2.color)
    ensures MarkPhaseKeyed(w2, Everything())
  {
    forall p | p in w2.color && w2.color[p] == Gray && p !in w2.fixedgc && p !in w2.blind
      ensures Pending(w2, [], p) || Cleared(w2, p)
    {
      if !w.color[p].White? { assert Pending(w, [], p) || Cleared(w, p); }
    }
    forall p | p in w2.allweak && p in w2.heap.objs && p !in w2.stale ensures TableMode(w2.heap, p) == AllWeak {
      TrimmedParts(w.heap, w2.heap, iset{}, p);
    }
  }

  /** During the sweep the barrier sweeps the object itself. */
  lemma WhitenedBut(w: World, o: Obj, busy: iset<Obj>)
    requires ValidBut(w, busy) && !MarkingPhase(w.phase) && o in Alive(w) && o !in w.fixedgc
    ensures var w2 := w.(color := w.color[o := White(w.white)]);
      Valid(w2, Everything()) && Alive(w2) == Alive(w)
  {
    var w2 := w.(color := w.color[o := White(w.white)]);
    Whitened(w, o);
    RecoloredSweep(w, w2);
    ValidSweep(w2);
  }

  lemma RecoloredSweep(w: World, w2: World)
    requires SweepPhase(w) && KeepsCurrent(w, w2) && w2 == w.(color := w2.color, grayagain := w2.grayagain)
    ensures SweepPhase(w2)
  {
    assert forall s :: Current(w, s) ==> Current(w2, s);
  }

  ghost function Regray(w: World, t: Obj): World {
    w.(color := w.color[t := Gray], grayagain := [t] + w.grayagain)
  }

  lemma BackBut(w: World, t: Obj)
    requires ValidBut(w, iset{t}) && t in w.color && w.color[t] == Black && t in w.heap.objs
    requires w.heap.objs[t].kind == Table
    ensures ValidBut(Regray(w, t), iset{t}) && Alive(Regray(w, t)) == Alive(w)
    ensures MarkingPhase(w.phase) ==> Pending(Regray(w, t), [], t)
  {
    var w2 := Regray(w, t);
    assert Alive(w2) == Alive(w);
    RegrayIntact(w, t);
    if MarkingPhase(w.phase) {
      MarkPhaseButOut(w, iset{t});
      RegrayMarking(w, t);
      RegrayMarkKeyed(w, t);
      assert Again(w2)[0] == t;
      assert Marked(w2.color) == Marked(w.color);
    } else {
      RecoloredSweep(w, w2);
    }
  }

  lemma RegrayIntact(w: World, t: Obj)
    requires Intact(w) && t in w.color && w.color[t] == Black
    ensures Intact(Regray(w, t))
  {
    var w2 := Regray(w, t);
    IntactOut(w);
    RegrayBase(w, t);
    RegrayAlive(w, t);
    RegraySealed(w, w2);
  }

  lemma RegrayAlive(w: World, t: Obj)
    requires t in w.color && w.color[t] == Black
    ensures Alive(Regray(w, t)) == Alive(w) && Regray(w, t).color.Keys == w.color.Keys
  {
  }

  lemma RegraySealed(w: World, w2: World)
    requires Sealed(w) && w2 == w.(color := w2.color, grayagain := w2.grayagain)
    requires Alive(w2) == Alive(w) && w2.color.Keys == w.color.Keys
    ensures Sealed(w2)
  {
    forall p | p in w2.heap.objs && p in Alive(w2) && p !in w2.blind ensures RefsIn(w2.heap, Alive(w2), p) {
      assert RefsIn(w.heap, Alive(w), p);
    }
  }

  lemma RegrayBase(w: World, t: Obj)
    requires Base(w) && t in w.color
    ensures Base(Regray(w, t))
  {
    assert Owners(Regray(w, t)) == Owners(w);
    assert forall p :: Owners(Regray(w, t))[p] == Owners(w)[p];
  }

  lemma RegrayMarking(w: World, t: Obj)
    requires Marking(w, [], iset{t}, Everything()) && MarkingPhase(w.phase) && w.blind == map[]
    requires t in w.color && w.color[t] == Black && w.heap.objs[t].kind == Table
    ensures Marking(Regray(w, t), [], iset{t}, Everything())
  {
    Unfold(w, [], iset{t}, Everything());
    assert Listings(w, [])[t] <= 1 && (Listings(w, [])[t] == 1 ==> ListedOk(w, t));
    assert Visiting(w, t, [], Everything());
    Regrayed(w, t, [], Everything());
    LinkedAgain(w.(color := w.color[t := Gray]), t, [], Everything());
    MoreBusy(Regray(w, t), iset{}, iset{t});
  }

  lemma MoreBusy(w: World, busy: iset<Obj>, more: iset<Obj>)
    requires Marking(w, [], busy, Everything()) && busy <= more && w.blind == map[]
    ensures Marking(w, [], more, Everything())
  {
    Unfold(w, [], busy, Everything());
    assert MarkingKeyed(w, [], more, Everything());
  }

  lemma RegrayMarkKeyed(w: World, t: Obj)
    requires MarkPhaseKeyed(w, Everything()) && t in w.color && w.color[t] == Black
    requires MarkingPhase(w.phase)
    ensures MarkPhaseKeyed(Regray(w, t), Everything())
  {
    var w2 := Regray(w, t);
    assert Alive(w2) == Alive(w) && Marked(w2.color) == Marked(w.color);
    assert Again(w2)[0] == t;
    forall p | p in w2.color && w2.color[p] == Gray && p !in w2.fixedgc && p !in w2.blind
      ensures Pending(w2, [], p) || Cleared(w2, p)
    {
      if p != t { assert Pending(w, [], p) || Cleared(w, p); }
    }
  }

  /** A black object whose only unmarked references may be to `v`; a gray one that waits. */
  ghost predicate AlmostDone(w: World, o: Obj, V: iset<Obj>) {
    && o in w.heap.objs && o in w.color
    && (w.color[o] == Black ==> w.heap.objs[o].kind != Thread)
    && (w.color[o] == Black ==> RefsIn(w.heap, Marked(w.color) + V, o))
    && (w.color[o] == Gray ==> Harmless(w, o))
  }

  lemma AlmostHarmless(w: World, o: Obj, V: iset<Obj>)
    requires AlmostDone(w, o, V) && V <= Marked(w.color) && Listed(w, [])
    ensures Harmless(w, o)
  {
    if w.color[o] == Black {
      assert Marked(w.color) + V == Marked(w.color);
      assert Listings(w, [])[o] <= 1 && (Listings(w, [])[o] == 1 ==> ListedOk(w, o));
      NotCleared(w, [], o);
    }
  }

  ghost function Of(v: Value): iset<Obj> { if v.Ref? then iset{v.o} else iset{} }

  lemma ListedBut(w: World, busy: iset<Obj>)
    requires ValidBut(w, busy) && MarkingPhase(w.phase)
    ensures Listed(w, []) && Marking(w, [], busy, Everything())
  {
    Unfold(w, [], busy, Everything());
  }

  /** After the barrier of `o` has marked `v`. */
  lemma BarrierDone(w: World, w2: World, o: Obj, v: Value)
    requires ValidBut(w, iset{o}) && MarkingPhase(w.phase) && Spread(w, w2) && w2.heap == w.heap
    requires Marking(w2, [], iset{o}, Everything())
    requires AlmostDone(w, o, Of(v)) && o in w.color && w.color[o] == Black && In(Marked(w2.color), v)
    ensures Valid(w2, Everything()) && Alive(w2) == Alive(w)
  {
    SpreadBut(w, w2, iset{o});
    SpreadOut(w, w2);
    RecordGrows(w.heap, Marked(w.color) + Of(v), Marked(w2.color), w.heap.objs[o]);
    assert RefsIn(w2.heap, Marked(w2.color) + Of(v), o) by {
      RecordGrows(w.heap, Marked(w2.color), Marked(w2.color) + Of(v), w.heap.objs[o]);
    }
    ListedBut(w2, iset{o});
    AlmostHarmless(w2, o, Of(v));
    StoreDone(w2, o);
    MarkPhaseButOut(w, iset{o});
    MarkPhaseOut(w2, Everything());
  }

  /** No barrier is needed. */
  lemma NoBarrier(w: World, o: Obj, V: iset<Obj>)
    requires ValidBut(w, iset{o})
    requires MarkingPhase(w.phase) ==> AlmostDone(w, o, V) && (w.color[o] == Black ==> V <= Marked(w.color))
    ensures Valid(w, Everything())
  {
    if MarkingPhase(w.phase) {
      ListedBut(w, iset{o});
      if w.color[o] == Black { AlmostHarmless(w, o, V); }
    }
    StoreDone(w, o);
  }

  lemma NotWhiteMarked(w: World, busy: iset<Obj>, v: Value)
    requires ValidBut(w, busy) && In(Alive(w), v)
    requires !(v.Ref? && v.o in w.color && w.color[v.o].White?)
    ensures Of(v) <= Marked(w.color)
  {
  }

  // ----- what a store adds -----

  /** The references of `r2` are among those of `r` and `V`. */
  ghost predicate Adds(h: Heap, r: Object, r2: Object, V: iset<Obj>) {
    forall S: iset<Obj> :: RecordIn(h, S, r) ==> RecordIn(h, S + V, r2)
  }

  /** What the program may store into `o`: live objects; and while the collector marks,
      no table waiting in `allweak` gets an unmarked metatable, nor one that makes it less
      weak unless it counts as stale. */
  ghost predicate MayStore(w: World, o: Obj, r: Object, V: iset<Obj>) {
    && o in w.heap.objs && o in Alive(w) && w.heap.objs[o].kind != Str
    && Replaces(w.heap.objs[o], r) && Adds(w.heap, w.heap.objs[o], r, V) && V <= Alive(w)
    && (MarkingPhase(w.phase) && o in w.allweak ==>
          (o in w.stale || ModeOf(w.heap, r.meta) == AllWeak) && In(Marked(w.color), r.meta))
  }

  lemma StoreBegins(w: World, o: Obj, r: Object, V: iset<Obj>)
    requires Valid(w, Everything()) && MayStore(w, o, r, V)
    ensures var w2 := Stored(w, o, r);
      && ValidBut(w2, iset{o}) && Alive(w2) == Alive(w)
      && (MarkingPhase(w.phase) ==> AlmostDone(w2, o, V))
    ensures o !in w.fixedgc
  {
    LooseOut(w, Everything());
    IntactOut(w);
    assert RefsIn(w.heap, Alive(w), o);
    assert Alive(w) + V == Alive(w);
    StaleListed(w);
    StoredBut(w, o, r);
    assert Alive(Stored(w, o, r)) == Alive(w);
    if MarkingPhase(w.phase) { StoredAlmost(w, o, r, V); }
  }

  /** Only while the collector marks are there stale tables. */
  lemma StaleListed(w: World)
    requires Valid(w, Everything())
    ensures forall o :: o in w.stale ==> MarkingPhase(w.phase) && o in w.allweak
  {
    LooseOut(w, Everything());
    if MarkingPhase(w.phase) { Unfold(w, [], iset{}, Everything()); }
  }

  lemma StoredAlmost(w: World, o: Obj, r: Object, V: iset<Obj>)
    requires Valid(w, Everything()) && MarkingPhase(w.phase) && MayStore(w, o, r, V) && o !in w.fixedgc
    ensures AlmostDone(Stored(w, o, r), o, V)
  {
    LooseOut(w, Everything());
    var w2 := Stored(w, o, r);
    MarkPhaseOut(w, Everything());
    Unfold(w, [], iset{}, Everything());
    if w.color[o] == Black {
      BlackRefs(w, o);
      UpsSame(w.heap, w2.heap, Marked(w.color) + V, r.ups);
      assert RecordIn(w.heap, Marked(w.color) + V, r);
    }
    if w.color[o] == Gray && !Pending(w, [], o) { StoredGray(w, o, r, V); }
  }

  /** A gray object that is not to be visited again waits to be cleared. */
  lemma StoredGray(w: World, o: Obj, r: Object, V: iset<Obj>)
    requires Listed(w, []) && GrayInLists(w) && MayStore(w, o, r, V) && MarkingPhase(w.phase)
    requires o in w.color && w.color[o] == Gray && !Pending(w, [], o) && o !in w.fixedgc && o !in w.blind
    requires w.weak == [] && w.ephemeron == []
    ensures Visited(Stored(w, o, r), o)
  {
    assert Cleared(w, o) && o in w.allweak;
    InListed(w, o, []);
    StoredModes(w.heap, o, r, r.meta);
    TableVisited(Stored(w, o, r), o);
  }

  lemma TableVisited(w: World, o: Obj)
    requires o in w.heap.objs && w.heap.objs[o].kind == Table && Shaped(w.heap.objs[o])
    requires o in w.allweak && w.weak == [] && w.ephemeron == []
    requires o in w.stale || (TableMode(w.heap, o) == AllWeak && In(Marked(w.color), w.heap.objs[o].meta))
    ensures Visited(w, o)
  {
  }

  /** The main invariant: a black object refers to marked objects only. */
  lemma BlackRefs(w: World, o: Obj)
    requires Tricolor(w, [], iset{}) && Listed(w, []) && o in w.heap.objs
    requires o in w.color && w.color[o] == Black
    requires w.blind == map[] && StaleWaits(w)
    ensures RefsIn(w.heap, Marked(w.color), o)
  {
    assert Listings(w, [])[o] <= 1 && (Listings(w, [])[o] == 1 ==> ListedOk(w, o));
    NotCleared(w, [], o);
  }

  /** Both barriers of a table store, `w1` the state between store and barriers. */
  lemma EntryDone(w1: World, w2: World, w3: World, t: Obj, key: Value, val: Value)
    requires ValidBut(w1, iset{t}) && ValidBut(w3, iset{t}) && t in w1.color && t in w2.color
    requires w2 == if w1.color[t] == Black && White0(w1, key) then Regray(w1, t) else w1
    requires w3 == if w2.color[t] == Black && White0(w2, val) then Regray(w2, t) else w2
    requires In(Alive(w1), key) && In(Alive(w1), val)
    requires MarkingPhase(w1.phase) ==> AlmostDone(w1, t, Of(key) + Of(val))
    ensures Valid(w3, Everything()) && Alive(w3) == Alive(w1)
  {
    if w3 == w1 {
      EntryPlain(w1, t, key, val);
    } else {
      assert w3.grayagain[0] == t;
      StoreDone(w3, t);
    }
  }

  lemma EntryPlain(w: World, t: Obj, key: Value, val: Value)
    requires ValidBut(w, iset{t}) && t in w.color
    requires w.color[t] == Black ==> !White0(w, key) && !White0(w, val)
    requires In(Alive(w), key) && In(Alive(w), val)
    requires MarkingPhase(w.phase) ==> AlmostDone(w, t, Of(key) + Of(val))
    ensures Valid(w, Everything())
  {
    if w.color[t] == Black {
      NotWhiteMarked(w, iset{t}, key);
      NotWhiteMarked(w, iset{t}, val);
    }
    NoBarrier(w, t, Of(key) + Of(val));
  }

  predicate White0(w: World, v: Value) {
    v.Ref? && v.o in w.color && w.color[v.o].White?
  }

  // ----- the records the program stores -----

  lemma AddsSlot(h: Heap, r: Object, i: nat, v: Value)
    requires i < |r.slots|
    ensures Adds(h, r, r.(slots := r.slots[i := v]), Of(v))
  {
    forall S: iset<Obj> | RecordIn(h, S, r) ensures RecordIn(h, S + Of(v), r.(slots := r.slots[i := v])) {
      RecordGrows(h, S, S + Of(v), r);
    }
  }

  lemma AddsMeta(h: Heap, r: Object, v: Value)
    ensures Adds(h, r, r.(meta := v), Of(v))
  {
    forall S: iset<Obj> | RecordIn(h, S, r) ensures RecordIn(h, S + Of(v), r.(meta := v)) {
      RecordGrows(h, S, S + Of(v), r);
    }
  }

  /** The node of `key`, or the end. */
  function FindNode(s: seq<Node>, key: Value): (i: nat)
    ensures i <= |s| && (i < |s| ==> s[i].key == key)
    ensures forall k :: 0 <= k < i ==> s[k].key != key
  {
    if s == [] || s[0].key == key then 0 else 1 + FindNode(s[1..], key)
  }

  function PutNode(s: seq<Node>, key: Value, val: Value): seq<Node> {
    var i := FindNode(s, key);
    if i < |s| then s[i := Node(key, val)] else s + [Node(key, val)]
  }

  /** The value found under a key, nil where there is none. */
  function Lookup(s: seq<Node>, key: Value): Value {
    var i := FindNode(s, key);
    if i < |s| then s[i].val else Nil
  }

  /** What was stored under a key is found there; what is found elsewhere does not change. */
  lemma PutLookup(s: seq<Node>, key: Value, val: Value)
    ensures Lookup(PutNode(s, key, val), key) == val
    ensures forall other :: other != key ==> Lookup(PutNode(s, key, val), other) == Lookup(s, other)
  {
    var t := PutNode(s, key, val);
    forall other ensures Lookup(t, other) == if other == key then val else Lookup(s, other) {
      FirstNode(s, FindNode(s, other), other);
      var i := if other == key then FindNode(s, key) else FindNode(s, other);
      if i < |s| {
        FirstNode(t, i, other);
      } else if other == key {
        FirstNode(t, |s|, other);
      } else {
        FirstNode(t, |t|, other);
      }
    }
  }

  lemma {:induction false} FirstNode(s: seq<Node>, i: nat, key: Value)
    requires i <= |s| && (i < |s| ==> s[i].key == key) && forall k :: 0 <= k < i ==> s[k].key != key
    ensures FindNode(s, key) == i
  {
    if i > 0 { FirstNode(s[1..], i - 1, key); }
  }

  lemma AddsNode(h: Heap, r: Object, key: Value, val: Value, known: bool)
    requires known == (FindNode(r.nodes, key) < |r.nodes|)
    ensures Adds(h, r, r.(nodes := PutNode(r.nodes, key, val)),
                 Of(if known then Nil else key) + Of(val))
  {
    var V := Of(if known then Nil else key) + Of(val);
    var r2 := r.(nodes := PutNode(r.nodes, key, val));
    forall S: iset<Obj> | RecordIn(h, S, r) ensures RecordIn(h, S + V, r2) {
      RecordGrows(h, S, S + V, r);
      forall i | 0 <= i < |r2.nodes| ensures In(S + V, r2.nodes[i].key) && In(S + V, r2.nodes[i].val) {
        if i < |r.nodes| { assert In(S, r.nodes[i].key) && In(S, r.nodes[i].val); }
      }
    }
  }

  ghost function Objects(s: seq<Value>): iset<Obj> { iset o | Ref(o) in s }

  lemma AddsStack(h: Heap, r: Object, s: seq<Value>)
    ensures Adds(h, r, r.(slots := s), Objects(s))
  {
    forall S: iset<Obj> | RecordIn(h, S, r) ensures RecordIn(h, S + Objects(s), r.(slots := s)) {
      RecordGrows(h, S, S + Objects(s), r);
      forall i | 0 <= i < |s| ensures In(S + Objects(s), s[i]) {
        assert s[i] in s;
      }
    }
  }

  /** A thread needs no barrier. */
  lemma ThreadStored(w: World, o: Obj, r: Object, V: iset<Obj>)
    requires Valid(w, Everything()) && MayStore(w, o, r, V) && w.heap.objs[o].kind == Thread
    ensures Valid(Stored(w, o, r), Everything()) && Alive(Stored(w, o, r)) == Alive(w)
  {
    LooseOut(w, Everything());
    StoreBegins(w, o, r, V);
    if MarkingPhase(w.phase) {
      Unfold(w, [], iset{}, Everything());
      assert w.color[o] != Black;
    }
    NoBarrier(Stored(w, o, r), o, V);
  }

  lemma ShapedNow(w: World, o: Obj)
    requires Valid(w, Everything()) && o in w.heap.objs
    ensures Shaped(w.heap.objs[o])
  {
    LooseOut(w, Everything());
    IntactOut(w);
  }

  /** Only tables wait in `allweak`. */
  lemma NoneAllweak(w: World, o: Obj)
    requires Valid(w, Everything()) && o in w.heap.objs && w.heap.objs[o].kind != Table
    ensures MarkingPhase(w.phase) ==> o !in w.allweak
  {
    LooseOut(w, Everything());
    if MarkingPhase(w.phase) && o in w.allweak {
      Unfold(w, [], iset{}, Everything());
      InListed(w, o, []);
    }
  }

  /** The metatable of a table in `allweak` is marked. */
  lemma SameMeta(w: World, t: Obj)
    requires Valid(w, Everything()) && t in w.heap.objs
    ensures MarkingPhase(w.phase) && t in w.allweak ==>
      (t in w.stale || TableMode(w.heap, t) == AllWeak) && In(Marked(w.color), w.heap.objs[t].meta)
  {
    LooseOut(w, Everything());
    if MarkingPhase(w.phase) && t in w.allweak {
      MarkPhaseOut(w, Everything());
      Unfold(w, [], iset{}, Everything());
      InListed(w, t, []);
      assert Listings(w, [])[t] <= 1;
      ClearedVisited(w, t);
    }
  }

  lemma ClearedVisited(w: World, t: Obj)
    requires Tricolor(w, [], iset{}) && ListedOk(w, t) && t in w.allweak && w.phase != InsideAtomic
    requires Listings(w, [])[t] <= 1
    ensures Visited(w, t)
  {
    assert !Pending(w, [], t);
  }

  // ----- upvalues -----

  ghost function UpStored(w: World, u: UpVal, v: Value): World {
    w.(heap := w.heap.(ups := w.heap.ups[u := v]))
  }

  ghost predicate HoldsUp(w: World, o: Obj, u: UpVal) {
    o in w.heap.objs && u in w.heap.objs[o].ups
  }

  /** The closures that share upvalue `u`. */
  ghost function Holders(w: World, u: UpVal): iset<Obj> { iset o | HoldsUp(w, o, u) }

  lemma UpKept(h: Heap, u: UpVal, v: Value, S: iset<Obj>, us: seq<UpVal>)
    requires UpsIn(h, S, us) && (u !in us || In(S, v))
    ensures UpsIn(h.(ups := h.ups[u := v]), S, us)
  {
    forall i | 0 <= i < |us| ensures In(S, Up(h.(ups := h.ups[u := v]), us[i])) {
      assert In(S, Up(h, us[i]));
    }
  }

  lemma UpStoredBut(w: World, u: UpVal, v: Value)
    requires Valid(w, Everything()) && In(Alive(w), v)
    ensures var w2 := UpStored(w, u, v); ValidBut(w2, Holders(w, u)) && Alive(w2) == Alive(w)
  {
    LooseOut(w, Everything());
    var w2 := UpStored(w, u, v);
    assert Alive(w2) == Alive(w);
    UpStoredIntact(w, u, v);
    if MarkingPhase(w.phase) {
      MarkPhaseOut(w, Everything());
      UpStoredMarking(w, u, v);
      UpStoredMarkKeyed(w, w2);
    } else {
      assert forall s :: Current(w, s) ==> Current(w2, s);
    }
  }

  lemma UpStoredMarkKeyed(w: World, w2: World)
    requires MarkPhaseKeyed(w, Everything()) && w2 == w.(heap := w.heap.(ups := w2.heap.ups))
    ensures MarkPhaseKeyed(w2, Everything())
  {
    assert Alive(w2) == Alive(w);
    forall p | p in w2.allweak && p in w2.heap.objs && p !in w2.stale ensures TableMode(w2.heap, p) == AllWeak {
      assert TableMode(w.heap, p) == AllWeak;
    }
    forall p | p in w2.color && w2.color[p] == Gray && p !in w2.fixedgc && p !in w2.blind
      ensures Pending(w2, [], p) || Cleared(w2, p)
    {
      assert Pending(w, [], p) || Cleared(w, p);
    }
  }

  lemma UpStoredIntact(w: World, u: UpVal, v: Value)
    requires Intact(w) && In(Alive(w), v)
    ensures Intact(UpStored(w, u, v))
  {
    var w2 := UpStored(w, u, v);
    IntactOut(w);
    UpStoredBase(w, u, v);
    UpStoredSealed(w, u, v);
  }

  lemma UpStoredBase(w: World, u: UpVal, v: Value)
    requires Base(w)
    ensures Base(UpStored(w, u, v))
  {
    var w2 := UpStored(w, u, v);
    assert Owners(w2) == Owners(w);
    assert forall p :: Owners(w2)[p] == Owners(w)[p];
  }

  lemma UpStoredSealed(w: World, u: UpVal, v: Value)
    requires Sealed(w) && In(Alive(w), v)
    ensures Sealed(UpStored(w, u, v))
  {
    var w2 := UpStored(w, u, v);
    assert Alive(w2) == Alive(w);
    forall p | p in w2.heap.objs && p in Alive(w2) && p !in w2.blind ensures RefsIn(w2.heap, Alive(w2), p) {
      assert RefsIn(w.heap, Alive(w), p);
      UpKept(w.heap, u, v, Alive(w), w.heap.objs[p].ups);
    }
  }

  lemma UpStoredMarking(w: World, u: UpVal, v: Value)
    requires Marking(w, [], iset{}, Everything()) && In(Allocated(w.color), v)
    requires w.blind == map[]
    ensures Marking(UpStored(w, u, v), [], Holders(w, u), Everything())
  {
    var w2 := UpStored(w, u, v);
    Unfold(w, [], iset{}, Everything());
    forall p | p in w2.heap.objs
      ensures Shaped(w2.heap.objs[p]) && RefsIn(w2.heap, Allocated(w2.color), p)
    {
      assert RefsIn(w.heap, Allocated(w.color), p);
      UpKept(w.heap, u, v, Allocated(w.color), w.heap.objs[p].ups);
    }
    UpStoredListed(w, w2);
    UpStoredTricolor(w, u, v);
    EverythingClosed(w2);
    assert MarkingKeyed(w2, [], Holders(w, u), Everything());
  }

  lemma UpStoredListed(w: World, w2: World)
    requires Listed(w, []) && w2 == w.(heap := w.heap.(ups := w2.heap.ups))
    ensures Listed(w2, [])
  {
    var L, L2 := Listings(w, []), Listings(w2, []);
    assert L2 == L;
    forall p ensures L2[p] <= 1 && (L2[p] == 1 ==> ListedOk(w2, p)) {
      assert L[p] <= 1 && (L[p] == 1 ==> ListedOk(w, p));
    }
  }

  lemma UpStoredTricolor(w: World, u: UpVal, v: Value)
    requires Tricolor(w, [], iset{}) && GrayListed(w, [], iset{})
    requires w.blind == map[]
    ensures Tricolor(UpStored(w, u, v), [], Holders(w, u))
    ensures GrayListed(UpStored(w, u, v), [], Holders(w, u))
  {
    var w2 := UpStored(w, u, v);
    forall p | p in w2.heap.objs && p in w2.color && !w2.color[p].White? && p !in Holders(w, u)
      && !Pending(w2, [], p)
      ensures Visited(w2, p)
    {
      assert !Pending(w, [], p) && Visited(w, p);
      assert !HoldsUp(w, p, u);
      if p !in w.stale { UpKept(w.heap, u, v, Marked(w.color), w.heap.objs[p].ups); }
      assert TableMode(w2.heap, p) == TableMode(w.heap, p);
    }
    forall p | w.phase == Propagate && p in w2.color && w2.color[p] == Gray
      && p !in Holders(w, u) && p !in w2.fixedgc && p !in w2.blind
      ensures Pending(w2, [], p) || Cleared(w2, p)
    {
      assert Pending(w, [], p) || Cleared(w, p);
    }
  }

  /** Once the new value of a shared upvalue is marked, no closure that shares it refers
      to an unmarked object, whatever its colour. */
  lemma UpDone(w: World, u: UpVal, v: Value, w2: World)
    requires Valid(w, Everything()) && In(Alive(w), v)
    requires Spread(UpStored(w, u, v), w2) && w2.heap == UpStored(w, u, v).heap
    requires Marking(w2, [], Holders(w, u), Everything()) && In(Marked(w2.color), v)
    requires MarkingPhase(w.phase)
    ensures Valid(w2, Everything())
  {
    LooseOut(w, Everything());
    UpStoredBut(w, u, v);
    SpreadBut(UpStored(w, u, v), w2, Holders(w, u));
    UpDoneMarking(w, u, v, w2);
    MarkPhaseButOut(w2, Holders(w, u));
    ValidSome(w2);
  }

  lemma UpDoneMarking(w: World, u: UpVal, v: Value, w2: World)
    requires Valid(w, Everything()) && MarkingPhase(w.phase)
    requires Spread(UpStored(w, u, v), w2) && w2.heap == UpStored(w, u, v).heap
    requires Marking(w2, [], Holders(w, u), Everything()) && In(Marked(w2.color), v)
    ensures Marking(w2, [], iset{}, Everything())
  {
    LooseOut(w, Everything());
    Unfold(w, [], iset{}, Everything());
    Unfold(w2, [], Holders(w, u), Everything());
    MarkPhaseOut(w, Everything());
    SpreadOut(UpStored(w, u, v), w2);
    forall p | p in w2.heap.objs && p in w2.color && !w2.color[p].White? && !Pending(w2, [], p)
      ensures Visited(w2, p)
    {
      if HoldsUp(w, p, u) { HolderVisited(w, u, v, w2, p); }
    }
    UpDoneGray(w, u, v, w2);
    assert MarkingKeyed(w2, [], iset{}, Everything());
  }

  lemma UpDoneGray(w: World, u: UpVal, v: Value, w2: World)
    requires MarkPhaseKeyed(w, Everything()) && SpreadKeyed(UpStored(w, u, v), w2)
    requires Spread(UpStored(w, u, v), w2) && ThreadsGray(w, iset{}) && w2.heap.objs == w.heap.objs
    ensures GrayListed(w2, [], iset{}) && ThreadsGray(w2, iset{})
  {
    forall p | p in w2.color && w2.color[p] == Gray && p !in w2.fixedgc && p !in w2.blind
      ensures Pending(w2, [], p) || Cleared(w2, p)
    {
      if !w.color[p].White? { assert Pending(w, [], p) || Cleared(w, p); }
    }
  }

  lemma HolderVisited(w: World, u: UpVal, v: Value, w2: World, p: Obj)
    requires Sound(w) && Tricolor(w, [], iset{}) && MarkPhaseKeyed(w, Everything()) && Listed(w, [])
    requires SpreadKeyed(UpStored(w, u, v), w2) && Spread(UpStored(w, u, v), w2)
    requires w2.heap == UpStored(w, u, v).heap && In(Marked(w2.color), v)
    requires HoldsUp(w, p, u) && p in w2.color && !w2.color[p].White? && !Pending(w2, [], p)
    requires w.blind == map[] && StaleWaits(w)
    ensures Visited(w2, p)
  {
    var r := w.heap.objs[p];
    assert Shaped(r) && r.kind == LClosure;
    HolderUnlisted(w, p);
    assert p !in w.stale;
    assert !w.color[p].White?;
    assert !Pending(w, [], p) && VisitedFully(w, p);
    HolderParts(w, u, v, w2, r);
    HolderFully(w, u, v, w2, p);
  }

  lemma HolderFully(w: World, u: UpVal, v: Value, w2: World, p: Obj)
    requires p in w.heap.objs && VisitedFully(w, p) && !Cleared(w, p) && !Cleared(w2, p)
    requires w2.heap == UpStored(w, u, v).heap && Marked(w.color) <= Marked(w2.color)
    requires UpsIn(w2.heap, Marked(w2.color), w.heap.objs[p].ups)
    ensures VisitedFully(w2, p)
  {
    PartsGrow(w.heap, Marked(w.color), Marked(w2.color), w.heap.objs[p]);
  }

  lemma HolderUnlisted(w: World, p: Obj)
    requires Listed(w, []) && p in w.heap.objs && w.heap.objs[p].kind != Table
    ensures !Cleared(w, p)
  {
    if Cleared(w, p) { InListed(w, p, []); }
  }

  lemma HolderParts(w: World, u: UpVal, v: Value, w2: World, r: Object)
    requires Marked(w.color) <= Marked(w2.color) && In(Marked(w2.color), v)
    requires w2.heap == UpStored(w, u, v).heap && UpsIn(w.heap, Marked(w.color), r.ups)
    ensures UpsIn(w2.heap, Marked(w2.color), r.ups)
    ensures SlotsIn(Marked(w.color), r.slots) ==> SlotsIn(Marked(w2.color), r.slots)
  {
    PartsGrow(w.heap, Marked(w.color), Marked(w2.color), r);
    UpKept(w.heap, u, v, Marked(w2.color), r.ups);
  }
}
