/** Objects that come into being, come back to life, or get a finalizer; and the roots. */
module GcObjects {
  import opened GcHeap
  import opened GcWorld
  import opened GcLimits
  import opened GcVisit
  import opened GcAtomic
  import opened GcState
  import opened GcPhases
  import opened GcSteps
  import opened GcMutator

  // ----- the roots -----

  ghost predicate RootsChanged(w: World, w2: World) {
    w2 == w.(running := w2.running, registry := w2.registry, mt := w2.mt, strcache := w2.strcache)
  }

  lemma RootsValid(w: World, w2: World)
    requires Valid(w, Everything()) && RootsChanged(w, w2)
    requires Rooted(w2, Alive(w)) && ListIn(Alive(w), w2.strcache)
    ensures Valid(w2, Everything())
  {
    LooseOut(w, Everything());
    RootsIntact(w, w2);
    if MarkingPhase(w.phase) {
      MarkPhaseOut(w, Everything());
      RootsMarking(w, w2);
      RootsMarkKeyed(w, w2);
      ValidMark(w2);
    } else {
      RootsSweep(w, w2);
      ValidSweep(w2);
    }
  }

  lemma RootsSweep(w: World, w2: World)
    requires SweepPhase(w) && RootsChanged(w, w2)
    ensures SweepPhase(w2)
  {
    assert forall s :: Current(w, s) ==> Current(w2, s);
  }

  lemma RootsIntact(w: World, w2: World)
    requires Intact(w) && RootsChanged(w, w2)
    requires Rooted(w2, Alive(w)) && ListIn(Alive(w), w2.strcache)
    ensures Intact(w2)
  {
    IntactOut(w);
    RootsBase(w, w2);
    RootsSealed(w, w2);
  }

  lemma RootsBase(w: World, w2: World)
    requires Base(w) && RootsChanged(w, w2)
    ensures Base(w2)
  {
    assert Owners(w2) == Owners(w);
    assert forall o :: Owners(w2)[o] == Owners(w)[o];
  }

  lemma RootsSealed(w: World, w2: World)
    requires Sealed(w) && RootsChanged(w, w2)
    requires Rooted(w2, Alive(w)) && ListIn(Alive(w), w2.strcache)
    ensures Sealed(w2)
  {
    assert Alive(w2) == Alive(w);
    forall p | p in w2.heap.objs && p in Alive(w2) && p !in w2.blind ensures RefsIn(w2.heap, Alive(w2), p) {
      assert RefsIn(w.heap, Alive(w), p);
    }
  }

  lemma RootsMarkKeyed(w: World, w2: World)
    requires MarkPhaseKeyed(w, Everything()) && RootsChanged(w, w2)
    ensures MarkPhaseKeyed(w2, Everything())
  {
    assert Alive(w2) == Alive(w);
    forall p | p in w2.color && w2.color[p] == Gray && p !in w2.fixedgc && p !in w2.blind
      ensures Pending(w2, [], p) || Cleared(w2, p)
    {
      assert Pending(w, [], p) || Cleared(w, p);
    }
  }

  lemma RootsMarking(w: World, w2: World)
    requires Marking(w, [], iset{}, Everything()) && RootsChanged(w, w2)
    ensures Marking(w2, [], iset{}, Everything())
  {
    Unfold(w, [], iset{}, Everything());
    SoundSame(w, w2);
    var L, L2 := Listings(w, []), Listings(w2, []);
    assert L2 == L;
    forall p ensures L2[p] <= 1 && (L2[p] == 1 ==> ListedOk(w2, p)) {
      assert L[p] <= 1 && (L[p] == 1 ==> ListedOk(w, p));
    }
    RootsTricolor(w, w2);
    assert MarkingKeyed(w2, [], iset{}, Everything());
  }

  lemma RootsTricolor(w: World, w2: World)
    requires Tricolor(w, [], iset{}) && GrayListed(w, [], iset{}) && RootsChanged(w, w2)
    ensures Tricolor(w2, [], iset{}) && GrayListed(w2, [], iset{})
  {
    TrimmedSelf(w.heap);
    forall p | p in w2.heap.objs && p in w2.color && !w2.color[p].White? && p !in iset{}
      && !Pending(w2, [], p)
      ensures Visited(w2, p)
    {
      assert !Pending(w, [], p);
      VisitedGrows(w, w2, p);
    }
    forall p | w.phase == Propagate && p in w2.color && w2.color[p] == Gray && p !in w2.fixedgc && p !in w2.blind
      ensures Pending(w2, [], p) || Cleared(w2, p)
    {
      assert Pending(w, [], p) || Cleared(w, p);
    }
  }

  // ----- new objects -----

  ghost function Created(w: World, o: Obj, r: Object): World {
    w.(heap := w.heap.(objs := w.heap.objs[o := r]), color := w.color[o := White(w.white)],
       allgc := [o] + w.allgc)
  }

  /** A new object has the current white and may refer to live objects. */
  lemma CreatedValid(w: World, o: Obj, r: Object)
    requires Valid(w, Everything()) && o !in w.heap.objs && Shaped(r) && RecordIn(w.heap, Alive(w), r)
    ensures Valid(Created(w, o, r), Everything()) && o in Alive(Created(w, o, r))
  {
    LooseOut(w, Everything());
    var w2 := Created(w, o, r);
    CreatedIntact(w, o, r);
    if MarkingPhase(w.phase) {
      MarkPhaseOut(w, Everything());
      CreatedMarking(w, o, r);
      CreatedMarkKeyed(w, o, r);
      CreatedStale(w, o, r);
      ValidMark(w2);
    } else {
      CreatedSweep(w, o, r);
      ValidSweep(w2);
    }
  }

  lemma CreatedStale(w: World, o: Obj, r: Object)
    requires Valid(w, Everything()) && o !in w.heap.objs
    ensures StaleMarked(Created(w, o, r))
  {
    LooseOut(w, Everything());
    var w2 := Created(w, o, r);
    StaleListed(w);
    if MarkingPhase(w.phase) {
      StaleThere(w);
      MarkedMore(w, o, r);
    }
  }

  lemma StaleThere(w: World)
    requires Valid(w, Everything()) && MarkingPhase(w.phase)
    ensures forall t :: t in w.stale ==> t in w.heap.objs
  {
    LooseOut(w, Everything());
    Unfold(w, [], iset{}, Everything());
    forall t | t in w.stale ensures t in w.heap.objs { InListed(w, t, []); }
  }

  lemma MarkedMore(w: World, o: Obj, r: Object)
    requires StaleMarked(w) && o !in w.heap.objs && w.color.Keys == w.heap.objs.Keys
    requires forall t :: t in w.stale ==> t in w.heap.objs
    ensures StaleMarked(Created(w, o, r))
  {
    assert Marked(Created(w, o, r).color) == Marked(w.color);
  }

  lemma CreatedIntact(w: World, o: Obj, r: Object)
    requires Intact(w) && o !in w.heap.objs && Shaped(r) && RecordIn(w.heap, Alive(w), r)
    ensures Intact(Created(w, o, r)) && Alive(Created(w, o, r)) == Alive(w) + iset{o}
    ensures o !in w.allgc
  {
    IntactOut(w);
    CreatedOwned(w, o, r);
    CreatedWellFormed(w, o, r);
    CreatedSealed(w, o, r);
  }

  lemma CreatedOwned(w: World, o: Obj, r: Object)
    requires Owned(w) && o !in w.heap.objs && w.mainthread in w.heap.objs
    ensures Owned(Created(w, o, r)) && o !in w.allgc && o !in w.fin
  {
    var w2 := Created(w, o, r);
    assert Owners(w)[o] == 0;
    assert multiset([o] + w.allgc) == multiset{o} + multiset(w.allgc);
    assert Owners(w2) == Owners(w) + multiset{o};
    forall p ensures Owners(w2)[p] == if p in w2.heap.objs && p != w2.mainthread then 1 else 0 {
      assert Owners(w)[p] == if p in w.heap.objs && p != w.mainthread then 1 else 0;
    }
  }

  lemma CreatedWellFormed(w: World, o: Obj, r: Object)
    requires WellFormed(w) && o !in w.heap.objs && Shaped(r) && o !in w.fin
    ensures WellFormed(Created(w, o, r))
  {
    var w2 := Created(w, o, r);
    assert w2.color.Keys == w2.heap.objs.Keys;
  }

  lemma CreatedSealed(w: World, o: Obj, r: Object)
    requires Sealed(w) && o !in w.heap.objs && RecordIn(w.heap, Alive(w), r)
    ensures Sealed(Created(w, o, r)) && Alive(Created(w, o, r)) == Alive(w) + iset{o}
  {
    var w2 := Created(w, o, r);
    assert w2.color.Keys == w2.heap.objs.Keys;
    assert Alive(w2) == Alive(w) + iset{o};
    forall p | p in w2.heap.objs && p in Alive(w2) && p !in w2.blind ensures RefsIn(w2.heap, Alive(w2), p) {
      if p != o { assert RefsIn(w.heap, Alive(w), p); }
      RecordGrows(w.heap, Alive(w), Alive(w2), w2.heap.objs[p]);
      UpsSame(w.heap, w2.heap, Alive(w2), w2.heap.objs[p].ups);
    }
  }

  lemma CreatedMarkKeyed(w: World, o: Obj, r: Object)
    requires MarkPhaseKeyed(w, Everything()) && o !in w.heap.objs && o !in w.color
    requires Marking(w, [], iset{}, Everything())
    ensures MarkPhaseKeyed(Created(w, o, r), Everything())
  {
    CreatedColors(w, o, r);
    Unfold(w, [], iset{}, Everything());
    CreatedModes(w, o, r);
  }

  lemma CreatedColors(w: World, o: Obj, r: Object)
    requires GrayInLists(w) && Alive(w) == Allocated(w.color) && o !in w.color
    ensures GrayInLists(Created(w, o, r)) && Alive(Created(w, o, r)) == Allocated(Created(w, o, r).color)
  {
    var w2 := Created(w, o, r);
    forall p | p in w2.color ensures p in Alive(w2) {
      if p != o { assert p in Alive(w); }
    }
    forall p | p in w2.color && w2.color[p] == Gray && p !in w2.fixedgc && p !in w2.blind
      ensures Pending(w2, [], p) || Cleared(w2, p)
    {
      assert Pending(w, [], p) || Cleared(w, p);
    }
  }

  lemma CreatedModes(w: World, o: Obj, r: Object)
    requires Sound(w) && Listed(w, []) && AllWeakTables(w) && o !in w.heap.objs
    ensures AllWeakTables(Created(w, o, r))
  {
    var w2 := Created(w, o, r);
    forall p | p in w2.allweak && p in w2.heap.objs && p !in w2.stale ensures TableMode(w2.heap, p) == AllWeak {
      InListed(w, p, []);
      assert TableMode(w.heap, p) == AllWeak && RefsIn(w.heap, Allocated(w.color), p);
    }
  }

  lemma CreatedMarking(w: World, o: Obj, r: Object)
    requires Marking(w, [], iset{}, Everything()) && o !in w.heap.objs && Shaped(r)
    requires RecordIn(w.heap, Allocated(w.color), r)
    requires w.blind == map[]
    ensures Marking(Created(w, o, r), [], iset{}, Everything())
  {
    var w2 := Created(w, o, r);
    Unfold(w, [], iset{}, Everything());
    CreatedSound(w, o, r);
    CreatedListed(w, o, r);
    CreatedTricolor(w, o, r);
    EverythingClosed(w2);
    assert MarkingKeyed(w2, [], iset{}, Everything());
  }

  lemma CreatedSound(w: World, o: Obj, r: Object)
    requires Sound(w) && o !in w.heap.objs && Shaped(r) && RecordIn(w.heap, Allocated(w.color), r)
    ensures Sound(Created(w, o, r))
  {
    var w2 := Created(w, o, r);
    assert Allocated(w.color) <= Allocated(w2.color);
    assert w2.color.Keys == w2.heap.objs.Keys;
    forall p | p in w2.heap.objs
      ensures Shaped(w2.heap.objs[p]) && RefsIn(w2.heap, Allocated(w2.color), p)
    {
      if p != o { assert RefsIn(w.heap, Allocated(w.color), p); }
      RecordGrows(w.heap, Allocated(w.color), Allocated(w2.color), w2.heap.objs[p]);
      UpsSame(w.heap, w2.heap, Allocated(w2.color), w2.heap.objs[p].ups);
    }
  }

  lemma CreatedListed(w: World, o: Obj, r: Object)
    requires Listed(w, []) && o !in w.heap.objs
    ensures Listed(Created(w, o, r), [])
  {
    var w2 := Created(w, o, r);
    var L, L2 := Listings(w, []), Listings(w2, []);
    assert L2 == L;
    forall p ensures L2[p] <= 1 && (L2[p] == 1 ==> ListedOk(w2, p)) {
      assert L[p] <= 1 && (L[p] == 1 ==> ListedOk(w, p));
    }
  }

  lemma CreatedTricolor(w: World, o: Obj, r: Object)
    requires Sound(w) && Tricolor(w, [], iset{}) && GrayListed(w, [], iset{}) && ThreadsGray(w, iset{})
    requires o !in w.heap.objs
    requires w.blind == map[]
    ensures Tricolor(Created(w, o, r), [], iset{}) && GrayListed(Created(w, o, r), [], iset{})
    ensures ThreadsGray(Created(w, o, r), iset{})
  {
    var w2 := Created(w, o, r);
    assert Marked(w2.color) == Marked(w.color);
    forall p | p in w2.heap.objs && p in w2.color && !w2.color[p].White? && p !in iset{}
      && !Pending(w2, [], p)
      ensures Visited(w2, p)
    {
      assert !Pending(w, [], p) && Visited(w, p) && RefsIn(w.heap, Allocated(w.color), p);
      if p !in w.stale { UpsSame(w.heap, w2.heap, Marked(w.color), w.heap.objs[p].ups); }
      assert TableMode(w2.heap, p) == TableMode(w.heap, p);
    }
    forall p | w.phase == Propagate && p in w2.color && w2.color[p] == Gray && p !in w2.fixedgc && p !in w2.blind
      ensures Pending(w2, [], p) || Cleared(w2, p)
    {
      assert Pending(w, [], p) || Cleared(w, p);
    }
  }

  lemma CreatedSweep(w: World, o: Obj, r: Object)
    requires Intact(w) && SweepPhase(w) && o !in w.heap.objs && o !in w.allgc && w.blind == map[]
    ensures SweepPhase(Created(w, o, r))
  {
    var w2 := Created(w, o, r);
    assert KeepsCurrent(w, w2) && Current(w2, [o]);
    match w.phase
    case SwpAllgc => PushedSwept(w, w2, o, AllGc);
    case SwpFinobj => PushedCurrent(w, w2, o); SameSwept(w, w2, FinObj);
    case SwpTobefnz =>
      PushedCurrent(w, w2, o);
      CurrentAlong(w, w2, w.finobj);
      if Astray(w) {
        PushedSwept(w, w2, o, AllGc);
        CurrentAlong(w, w2, w.tobefnz);
      } else {
        SameSwept(w, w2, ToBeFnz);
      }
    case SwpEnd => CreatedAllSwept(w, w2, o);
    case CallFin => CreatedAllSwept(w, w2, o); CurrentAlong(w, w2, [w.mainthread]);
    case Pause => CreatedAllSwept(w, w2, o); CurrentAlong(w, w2, [w.mainthread]);
  }

  lemma CreatedAllSwept(w: World, w2: World, o: Obj)
    requires AllSwept(w) && KeepsCurrent(w, w2) && Current(w2, [o]) && w2.allgc == [o] + w.allgc
    requires w2.finobj == w.finobj && w2.tobefnz == w.tobefnz
    ensures AllSwept(w2)
  {
    PushedCurrent(w, w2, o);
    CurrentAlong(w, w2, w.finobj);
    CurrentAlong(w, w2, w.tobefnz);
  }

  // ----- dead strings -----

  ghost function Revived(w: World, s: Obj): World {
    w.(color := w.color[s := White(w.white)])
  }

  /** A dead string that is asked for again gets the current white. */
  lemma RevivedValid(w: World, s: Obj)
    requires Valid(w, Everything()) && s in w.heap.objs && w.heap.objs[s].kind == Str
    requires s in w.color && w.color[s] == White(!w.white)
    ensures Valid(Revived(w, s), Everything()) && s in Alive(Revived(w, s))
  {
    LooseOut(w, Everything());
    var w2 := Revived(w, s);
    RevivedIntact(w, s);
    if MarkingPhase(w.phase) {
      NoDeadWhileMarking(w, s);
      assert false;
    }
    assert KeepsCurrent(w, w2);
    RecoloredSweep(w, w2);
    ValidSweep(w2);
  }

  lemma NoDeadWhileMarking(w: World, o: Obj)
    requires Valid(w, Everything()) && MarkingPhase(w.phase) && o in w.color
    ensures w.color[o] != White(!w.white)
  {
    LooseOut(w, Everything());
    MarkPhaseOut(w, Everything());
    assert o in Allocated(w.color);
  }

  lemma RevivedIntact(w: World, s: Obj)
    requires Intact(w) && s in w.heap.objs && w.heap.objs[s].kind == Str
    requires s in w.color && w.color[s] == White(!w.white)
    ensures Intact(Revived(w, s)) && s in Alive(Revived(w, s))
  {
    var w2 := Revived(w, s);
    IntactOut(w);
    RevivedBase(w, s);
    RevivedSealed(w, s);
  }

  lemma RevivedBase(w: World, s: Obj)
    requires Base(w) && s in w.color && w.color[s].White?
    ensures Base(Revived(w, s))
  {
    assert Owners(Revived(w, s)) == Owners(w);
    assert forall o :: Owners(Revived(w, s))[o] == Owners(w)[o];
  }

  lemma RevivedSealed(w: World, s: Obj)
    requires Sealed(w) && s in w.heap.objs && Shaped(w.heap.objs[s]) && w.heap.objs[s].kind == Str
    requires s in w.color && w.color[s] == White(!w.white)
    ensures Sealed(Revived(w, s))
  {
    var w2 := Revived(w, s);
    assert Alive(w2) == Alive(w) + iset{s};
    forall p | p in w2.heap.objs && p in Alive(w2) && p !in w2.blind ensures RefsIn(w2.heap, Alive(w2), p) {
      if p != s {
        assert RefsIn(w.heap, Alive(w), p);
        RecordGrows(w.heap, Alive(w), Alive(w2), w.heap.objs[p]);
      }
    }
  }

  // ----- metatables -----

  /** Whether object `o` may get `v` as its metatable: while the collector marks, a table
      in `allweak` will not be visited again. */
  ghost predicate MetaOk(w: World, o: Obj, v: Value) {
    MarkingPhase(w.phase) && o in w.allweak ==> In(Marked(w.color), v)
  }

  /** Tables waiting in `allweak` may count as stale at any time. */
  lemma MadeStale(w: World, S: set<Obj>)
    requires Valid(w, Everything()) && MarkingPhase(w.phase) && forall o :: o in S ==> o in w.allweak
    ensures Valid(w.(stale := w.stale + S), Everything())
  {
    LooseOut(w, Everything());
    var w2 := w.(stale := w.stale + S);
    MarkPhaseOut(w, Everything());
    Unfold(w, [], iset{}, Everything());
    IntactUnstale(w, w2);
    SoundSame(w, w2);
    StaleListings(w, w2);
    StaleTricolor(w, w2);
    EverythingClosed(w2);
    assert MarkingKeyed(w2, [], iset{}, Everything());
    GrayStale(w, w2);
    assert MarkPhaseKeyed(w2, Everything());
    forall t | t in S && t in w.heap.objs ensures In(Marked(w.color), w.heap.objs[t].meta) { SameMeta(w, t); }
    ValidMark(w2);
  }

  lemma StaleListings(w: World, w2: World)
    requires Listed(w, []) && w2 == w.(stale := w2.stale)
    ensures Listed(w2, [])
  {
    var L, L2 := Listings(w, []), Listings(w2, []);
    assert L2 == L;
    forall p ensures L2[p] <= 1 && (L2[p] == 1 ==> ListedOk(w2, p)) {
      assert L[p] <= 1 && (L[p] == 1 ==> ListedOk(w, p));
    }
  }

  lemma StaleTricolor(w: World, w2: World)
    requires Tricolor(w, [], iset{}) && GrayListed(w, [], iset{}) && w.stale <= w2.stale
    requires w2 == w.(stale := w2.stale)
    ensures Tricolor(w2, [], iset{}) && GrayListed(w2, [], iset{})
  {
    TrimmedSelf(w.heap);
    forall p | p in w2.heap.objs && p in w2.color && !w2.color[p].White? && p !in iset{}
      && !Pending(w2, [], p)
      ensures Visited(w2, p)
    {
      assert !Pending(w, [], p);
      VisitedGrows(w, w2, p);
    }
    forall p | w.phase == Propagate && p in w2.color && w2.color[p] == Gray && p !in w2.fixedgc && p !in w2.blind
      ensures Pending(w2, [], p) || Cleared(w2, p)
    {
      assert Pending(w, [], p) || Cleared(w, p);
    }
  }

  lemma GrayStale(w: World, w2: World)
    requires GrayInLists(w) && w2 == w.(stale := w2.stale)
    ensures GrayInLists(w2)
  {
    forall p | p in w2.color && w2.color[p] == Gray && p !in w2.fixedgc && p !in w2.blind
      ensures Pending(w2, [], p) || Cleared(w2, p)
    {
      assert Pending(w, [], p) || Cleared(w, p);
    }
  }

  ghost function ModeStored(w: World, t: Obj, m: Mode): World
    requires t in w.heap.objs
  {
    Stored(w, t, w.heap.objs[t].(mode := m))
  }

  /** Tables in `allweak` that are not stale keep a metatable that makes them all-weak. */
  ghost predicate ModeOk(w: World, t: Obj, m: Mode) {
    MarkingPhase(w.phase) ==>
      forall p :: p in w.allweak && p !in w.stale && p in w.heap.objs && w.heap.objs[p].meta == Ref(t) ==>
        m == AllWeak
  }

  lemma ModeValid(w: World, t: Obj, m: Mode)
    requires Valid(w, Everything()) && t in w.heap.objs && ModeOk(w, t, m)
    ensures Valid(ModeStored(w, t, m), Everything())
  {
    LooseOut(w, Everything());
    var w2 := ModeStored(w, t, m);
    ModeIntact(w, t, m);
    if MarkingPhase(w.phase) {
      MarkPhaseOut(w, Everything());
      ModeMarking(w, t, m);
      ModeMarkKeyed(w, t, m);
      ValidMark(w2);
    } else {
      StoredSweep(w, t, w.heap.objs[t].(mode := m));
      ValidSweep(w2);
    }
  }

  lemma ModeIntact(w: World, t: Obj, m: Mode)
    requires Intact(w) && t in w.heap.objs
    ensures Intact(ModeStored(w, t, m))
  {
    IntactOut(w);
    ModeBase(w, t, m);
    ModeSealed(w, t, m);
  }

  lemma ModeBase(w: World, t: Obj, m: Mode)
    requires Base(w) && t in w.heap.objs
    ensures Base(ModeStored(w, t, m))
  {
    var w2 := ModeStored(w, t, m);
    assert Owners(w2) == Owners(w);
    assert forall p :: Owners(w2)[p] == Owners(w)[p];
    assert w2.heap.objs.Keys == w.heap.objs.Keys;
  }

  lemma ModeSealed(w: World, t: Obj, m: Mode)
    requires Sealed(w) && t in w.heap.objs
    ensures Sealed(ModeStored(w, t, m))
  {
    var w2 := ModeStored(w, t, m);
    assert Alive(w2) == Alive(w);
    assert w2.heap.objs.Keys == w.heap.objs.Keys;
    forall p | p in w2.heap.objs && p in Alive(w2) && p !in w2.blind ensures RefsIn(w2.heap, Alive(w2), p) {
      assert RefsIn(w.heap, Alive(w), p);
      UpsSame(w.heap, w2.heap, Alive(w), w.heap.objs[p].ups);
    }
  }

  lemma ModeMarkKeyed(w: World, t: Obj, m: Mode)
    requires MarkPhaseKeyed(w, Everything()) && t in w.heap.objs && ModeOk(w, t, m) && MarkingPhase(w.phase)
    ensures MarkPhaseKeyed(ModeStored(w, t, m), Everything())
  {
    var w2 := ModeStored(w, t, m);
    assert Alive(w2) == Alive(w);
    forall p | p in w2.allweak && p in w2.heap.objs && p !in w2.stale ensures TableMode(w2.heap, p) == AllWeak {
      assert p in w.heap.objs && TableMode(w.heap, p) == AllWeak;
    }
    forall p | p in w2.color && w2.color[p] == Gray && p !in w2.fixedgc && p !in w2.blind
      ensures Pending(w2, [], p) || Cleared(w2, p)
    {
      assert Pending(w, [], p) || Cleared(w, p);
    }
  }

  lemma ModeMarking(w: World, t: Obj, m: Mode)
    requires Marking(w, [], iset{}, Everything()) && t in w.heap.objs && ModeOk(w, t, m)
    requires MarkPhaseBut(w, iset{}, Everything()) && MarkingPhase(w.phase)
    requires w.blind == map[]
    ensures Marking(ModeStored(w, t, m), [], iset{}, Everything())
  {
    var w2 := ModeStored(w, t, m);
    Unfold(w, [], iset{}, Everything());
    MarkPhaseButOut(w, iset{});
    assert w2.heap.objs.Keys == w.heap.objs.Keys;
    assert RefsIn(w.heap, Allocated(w.color), t);
    StoredSound(w, t, w.heap.objs[t].(mode := m));
    ModeListed(w, w2);
    ModeTricolor(w, t, m);
    EverythingClosed(w2);
    assert MarkingKeyed(w2, [], iset{}, Everything());
  }

  lemma ModeListed(w: World, w2: World)
    requires Listed(w, []) && w2 == w.(heap := w2.heap) && w2.heap.objs.Keys == w.heap.objs.Keys
    requires forall p :: p in w.heap.objs ==> w2.heap.objs[p].kind == w.heap.objs[p].kind
    ensures Listed(w2, [])
  {
    var L, L2 := Listings(w, []), Listings(w2, []);
    assert L2 == L;
    forall p ensures L2[p] <= 1 && (L2[p] == 1 ==> ListedOk(w2, p)) {
      assert L[p] <= 1 && (L[p] == 1 ==> ListedOk(w, p));
    }
  }

  lemma ModeTricolor(w: World, t: Obj, m: Mode)
    requires Tricolor(w, [], iset{}) && GrayListed(w, [], iset{}) && t in w.heap.objs && ModeOk(w, t, m)
    requires w.weak == [] && w.ephemeron == [] && MarkPhaseKeyed(w, Everything()) && MarkingPhase(w.phase)
    requires w.blind == map[]
    ensures Tricolor(ModeStored(w, t, m), [], iset{}) && GrayListed(ModeStored(w, t, m), [], iset{})
  {
    var w2 := ModeStored(w, t, m);
    assert w2.heap.objs.Keys == w.heap.objs.Keys;
    forall p | p in w2.heap.objs && p in w2.color && !w2.color[p].White? && p !in iset{}
      && !Pending(w2, [], p)
      ensures Visited(w2, p)
    {
      assert !Pending(w, [], p) && Visited(w, p);
      if p !in w.stale {
        UpsSame(w.heap, w2.heap, Marked(w.color), w.heap.objs[p].ups);
        if p in w.allweak { assert TableMode(w.heap, p) == AllWeak; }
      }
    }
    forall p | w.phase == Propagate && p in w2.color && w2.color[p] == Gray && p !in w2.fixedgc && p !in w2.blind
      ensures Pending(w2, [], p) || Cleared(w2, p)
    {
      assert Pending(w, [], p) || Cleared(w, p);
    }
  }

  lemma MetaStore(w: World, o: Obj, v: Value)
    requires Valid(w, Everything()) && o in w.heap.objs && o in Alive(w)
    requires w.heap.objs[o].kind == Table || w.heap.objs[o].kind == Udata
    requires In(Alive(w), v) && (v.Ref? || v == Nil) && MetaOk(w, o, v)
    requires MarkingPhase(w.phase) && o in w.allweak ==> o in w.stale || ModeOf(w.heap, v) == AllWeak
    ensures MayStore(w, o, w.heap.objs[o].(meta := v), Of(v))
  {
    LooseOut(w, Everything());
    AddsMeta(w.heap, w.heap.objs[o], v);
    ShapedNow(w, o);
  }

  // ----- upvalues and closure caches -----

  lemma JoinedUps(h: Heap, r: Object, i: nat, u: UpVal)
    requires i < |r.ups|
    ensures Adds(h, r, r.(ups := r.ups[i := u]), Of(Up(h, u)))
  {
    var V := Of(Up(h, u));
    var r2 := r.(ups := r.ups[i := u]);
    forall S: iset<Obj> | RecordIn(h, S, r) ensures RecordIn(h, S + V, r2) {
      RecordGrows(h, S, S + V, r);
      forall k | 0 <= k < |r2.ups| ensures In(S + V, Up(h, r2.ups[k])) {
        if k != i { assert In(S, Up(h, r.ups[k])); }
      }
    }
  }

  lemma AddsCache(h: Heap, r: Object, v: Value)
    ensures Adds(h, r, r.(cache := v), Of(v))
  {
    forall S: iset<Obj> | RecordIn(h, S, r) ensures RecordIn(h, S + Of(v), r.(cache := v)) {
      RecordGrows(h, S, S + Of(v), r);
    }
  }

  lemma AliveUp(w: World, u: UpVal, o: Obj)
    requires Valid(w, Everything()) && HoldsUp(w, o, u) && o in Alive(w)
    ensures In(Alive(w), Up(w.heap, u))
  {
    LooseOut(w, Everything());
    IntactOut(w);
    assert RefsIn(w.heap, Alive(w), o);
  }

  /** After the barrier for an upvalue its value is marked, whatever closure holds it. */
  lemma JoinDone(w: World, w2: World, o: Obj, V: iset<Obj>)
    requires ValidBut(w, iset{o}) && MarkingPhase(w.phase) && Spread(w, w2) && w2.heap == w.heap
    requires Marking(w2, [], iset{o}, Everything()) && AlmostDone(w, o, V) && V <= Marked(w2.color)
    requires w.heap.objs[o].kind == LClosure
    ensures Valid(w2, Everything())
  {
    SpreadBut(w, w2, iset{o});
    ListedBut(w, iset{o});
    ListedBut(w2, iset{o});
    JoinHarmless(w, w2, o, V);
    StoreDone(w2, o);
  }

  lemma JoinHarmless(w: World, w2: World, o: Obj, V: iset<Obj>)
    requires Spread(w, w2) && w2.heap == w.heap && AlmostDone(w, o, V) && V <= Marked(w2.color)
    requires w.heap.objs[o].kind == LClosure && Listed(w, []) && Listed(w2, [])
    ensures Harmless(w2, o)
  {
    SpreadOut(w, w2);
    match w.color[o]
    case White(_) =>
    case Gray => JoinGray(w, w2, o, V);
    case Black =>
      RecordGrows(w.heap, Marked(w.color) + V, Marked(w2.color) + V, w.heap.objs[o]);
      AlmostHarmless(w2, o, V);
  }

  lemma JoinGray(w: World, w2: World, o: Obj, V: iset<Obj>)
    requires AlmostDone(w, o, V) && Spread(w, w2) && w2.heap == w.heap && w.heap.objs[o].kind == LClosure
    requires Listed(w, [])
    ensures w.color[o] == Gray ==> Harmless(w2, o)
  {
    SpreadOut(w, w2);
    if w.color[o] == Gray && !Pending(w, [], o) {
      if Cleared(w, o) { InListed(w, o, []); }
      VisitedGrows(w, w2, o);
    }
  }

  lemma CacheReady(w: World, i: nat, s: Obj)
    requires Valid(w, Everything()) && i < |w.strcache| && s in Alive(w)
    ensures Rooted(w, Alive(w)) && ListIn(Alive(w), w.strcache[i := s])
  {
    LooseOut(w, Everything());
    IntactOut(w);
  }

  lemma RootsReady(w: World, thread: Obj, reg: Value, basic: seq<Value>)
    requires Valid(w, Everything()) && thread in Alive(w) && In(Alive(w), reg) && SlotsIn(Alive(w), basic)
    ensures Rooted(w.(running := thread, registry := reg, mt := basic), Alive(w))
    ensures ListIn(Alive(w), w.strcache)
  {
    LooseOut(w, Everything());
    IntactOut(w);
  }
}
