/** From one phase of the collection to the next. */
module GcPhases {
  import opened GcHeap
  import opened GcWorld
  import opened GcLimits
  import opened GcVisit
  import opened GcAtomic
  import opened GcState

  // ----- starting a collection -----

  ghost function Emptied(w: World): World {
    w.(gray := [], grayagain := [], weak := [], allweak := [], ephemeron := [])
  }

  /** Between collections everything but the fixed strings and what a sweep has missed is
      white. */
  lemma PauseColors(w: World)
    requires Intact(w) && AllSwept(w) && Current(w, [w.mainthread])
    ensures forall o :: o in w.color && o !in w.fixedgc && o !in w.blind ==> w.color[o] == White(w.white)
    ensures Alive(w) == Allocated(w.color) && ListIn(Marked(w.color), w.fixedgc)
  {
    IntactOut(w);
    forall o | o in w.color && o !in w.fixedgc && o !in w.blind ensures w.color[o] == White(w.white) {
      if o != w.mainthread {
        assert Owners(w)[o] == 1;
      } else {
        assert o in [w.mainthread];
      }
    }
  }

  lemma SealedSound(w: World)
    requires Intact(w) && Alive(w) == Allocated(w.color)
    requires forall o :: o in w.blind ==> o in w.heap.objs && KeptBlind(w, o)
    ensures Sound(w)
  {
    IntactOut(w);
    forall o | o in w.heap.objs ensures RefsIn(w.heap, Allocated(w.color), o) {
      if o in w.blind { assert KeptBlind(w, o); }
    }
  }

  lemma Restarting(w: World, X: iset<Obj>)
    requires Loose(w, X) && w.phase == Pause
    ensures Marking(Emptied(w), [], iset{}, X)
  {
    LooseOut(w, X);
    var w1 := Emptied(w);
    PauseColors(w);
    SealedSound(w);
    SoundSame(w, w1);
    assert Listings(w1, []) == multiset{};
    RestartingTricolor(w);
    RestartingBlind(w);
    RestartingBound(w, X);
    assert MarkingKeyed(w1, [], iset{}, X);
  }

  lemma RestartingTricolor(w: World)
    requires Intact(w) && AllSwept(w) && Current(w, [w.mainthread]) && Sound(w)
    ensures Tricolor(Emptied(w), [], iset{}) && ThreadsGray(Emptied(w), iset{})
  {
    var w1 := Emptied(w);
    assert Listings(w1, []) == multiset{};
    PauseColors(w);
    SoundSame(w, w1);
    IntactOut(w);
    forall o | o in w1.heap.objs && o in w1.color && !w1.color[o].White? && o !in w1.blind
      ensures Visited(w1, o) && w1.heap.objs[o].kind != Thread
    {
      assert o in w.fixedgc && w.heap.objs[o].kind == Str;
      StringVisited(w1, o, []);
    }
  }

  lemma RestartingBlind(w: World)
    requires BlindOk(w) && w.phase == Pause
    ensures BlindApart(Emptied(w), [], iset{})
  {
    forall o | o in w.blind ensures o in w.color && !w.color[o].White? { assert KeptBlind(w, o); }
  }

  lemma RestartingBound(w: World, X: iset<Obj>)
    requires Kept(w, X) && w.stale == {}
    requires forall o :: o in w.color && o !in w.fixedgc && o !in w.blind ==> w.color[o] == White(w.white)
    ensures Bounded(Emptied(w), X)
  {
  }

  lemma Restarted(w: World, w2: World, X: iset<Obj>)
    requires Loose(w, X) && w.phase == Pause && Spread(Emptied(w), w2) && Marking(w2, [], iset{}, X)
    requires Started(w2)
    ensures Loose(w2.(phase := Propagate), X)
  {
    LooseOut(w, X);
    var w3 := w2.(phase := Propagate);
    RestartedIntact(w, w2);
    IntactMoved(w2, w3);
    RestartedLists(w, w2);
    RestartedMarking(w2, X);
    assert MarkPhase(w3, X) by {
      assert Alive(w3) == Allocated(w3.color);
      assert GrayInLists(w3);
      assert MarkPhaseKeyed(w3, X);
    }
    MarkingBlind(w3, X);
    LooseMark(w3, X);
  }

  /** While the collector marks, what a sweep has missed stays as it is. */
  lemma MarkingBlind(w: World, X: iset<Obj>)
    requires MarkPhase(w, X) && w.mainthread !in w.blind
    ensures BlindOk(w)
  {
    MarkPhaseOut(w, X);
    Unfold(w, [], iset{}, X);
    assert Alive(w) == Allocated(w.color);
    forall o | o in w.blind ensures o in w.heap.objs && w.heap.objs[o] == w.blind[o] && KeptBlind(w, o) {
      assert RefsIn(w.heap, Allocated(w.color), o);
    }
  }

  lemma RestartedLists(w: World, w2: World)
    requires Intact(w) && AllSwept(w) && Current(w, [w.mainthread]) && Spread(Emptied(w), w2)
    requires Started(w2)
    requires w.mainthread !in w.blind
    ensures GrayInLists(w2) && w2.gray != []
    ensures forall o :: o in w2.color && w2.color[o] == Gray && o !in w2.fixedgc && o !in w2.blind ==> o in w2.gray
  {
    var w1 := Emptied(w);
    PauseColors(w);
    IntactOut(w);
    SpreadOut(w1, w2);
    assert w1.color[w.mainthread].White?;
    assert w2.mainthread in w2.gray;
  }

  lemma RestartedMarking(w2: World, X: iset<Obj>)
    requires Marking(w2, [], iset{}, X) && w2.phase == Pause
    requires forall o :: o in w2.color && w2.color[o] == Gray && o !in w2.fixedgc && o !in w2.blind ==> o in w2.gray
    ensures Marking(w2.(phase := Propagate), [], iset{}, X)
  {
    Unfold(w2, [], iset{}, X);
    PhaseOnly(w2, w2.(phase := Propagate), X);
  }

  lemma PhaseOnly(w: World, w2: World, X: iset<Obj>)
    requires MarkingKeyed(w, [], iset{}, X) && w2 == w.(phase := w2.phase)
    requires w.phase != InsideAtomic && w2.phase != InsideAtomic
    requires GrayListed(w2, [], iset{})
    ensures Marking(w2, [], iset{}, X)
  {
    SoundSame(w, w2);
    var L, L2 := Listings(w, []), Listings(w2, []);
    assert L2 == L;
    forall p ensures L2[p] <= 1 && (L2[p] == 1 ==> ListedOk(w2, p)) {
      assert L[p] <= 1 && (L[p] == 1 ==> ListedOk(w, p));
    }
    PhaseTricolor(w, w2);
    assert MarkingKeyed(w2, [], iset{}, X);
  }

  lemma PhaseTricolor(w: World, w2: World)
    requires Tricolor(w, [], iset{}) && w2 == w.(phase := w2.phase)
    requires w.phase != InsideAtomic && w2.phase != InsideAtomic
    ensures Tricolor(w2, [], iset{})
  {
    TrimmedSelf(w.heap);
    forall p | p in w2.heap.objs && p in w2.color && !w2.color[p].White? && p !in iset{}
      && !Pending(w2, [], p)
      ensures Visited(w2, p)
    {
      assert !Pending(w, [], p);
      VisitedGrows(w, w2, p);
    }
  }

  /** While objects are only marked and entries emptied, nothing dies. */
  lemma RestartedIntact(w: World, w2: World)
    requires Intact(w) && AllSwept(w) && Current(w, [w.mainthread]) && Spread(Emptied(w), w2)
    ensures Intact(w2) && Alive(w2) == Allocated(w2.color)
  {
    assert Alive(w) == Allocated(w.color) by { PauseColors(w); }
    assert OnlyMarks(w.color, w2.color) && Trimmed(w.heap, w2.heap) by { SpreadOut(Emptied(w), w2); }
    MarkedIntact(w, w2);
  }

  /** From `w`, where nothing is dead, to `w2` objects were marked and entries emptied. */
  lemma MarkedIntact(w: World, w2: World)
    requires Intact(w) && Alive(w) == Allocated(w.color) && Trimmed(w.heap, w2.heap)
    requires OnlyMarks(w.color, w2.color) && SameOwners(w, w2)
    ensures Intact(w2) && Alive(w2) == Allocated(w2.color)
  {
    IntactOut(w);
    MarkedAlive(w, w2);
    MarkedBase(w, w2);
    MarkedSealed(w, w2);
  }

  lemma MarkedAlive(w: World, w2: World)
    requires Alive(w) == Allocated(w.color) && OnlyMarks(w.color, w2.color) && w2.white == w.white
    ensures Alive(w2) == Allocated(w2.color) == Alive(w) && Marked(w.color) <= Marked(w2.color)
  {
    forall o | o in w2.color ensures o in Alive(w2) { assert o in Alive(w); }
  }

  ghost predicate SameOwners(w: World, w2: World) {
    && w2 == w.(heap := w2.heap, color := w2.color, phase := w2.phase, gray := w2.gray,
                grayagain := w2.grayagain, weak := w2.weak, ephemeron := w2.ephemeron,
                allweak := w2.allweak)
  }

  lemma MarkedBase(w: World, w2: World)
    requires Base(w) && Trimmed(w.heap, w2.heap) && SameOwners(w, w2)
    requires w2.color.Keys == w.color.Keys && Marked(w.color) <= Marked(w2.color)
    ensures Base(w2)
  {
    assert Owners(w2) == Owners(w);
    assert forall o :: Owners(w2)[o] == Owners(w)[o];
    MarkedWellFormed(w, w2);
  }

  lemma MarkedWellFormed(w: World, w2: World)
    requires WellFormed(w) && Trimmed(w.heap, w2.heap) && SameOwners(w, w2)
    requires w2.color.Keys == w.color.Keys && Marked(w.color) <= Marked(w2.color)
    ensures WellFormed(w2)
  {
    forall o | o in w2.heap.objs ensures Shaped(w2.heap.objs[o]) {
      TrimmedParts(w.heap, w2.heap, iset{}, o);
    }
    assert RecordTrimmed(w.heap.objs[w.mainthread], w2.heap.objs[w.mainthread]);
    forall o | o in w2.fixedgc
      ensures o in w2.heap.objs && w2.heap.objs[o].kind == Str && !w2.color[o].White?
    {
      assert o in Marked(w.color) && RecordTrimmed(w.heap.objs[o], w2.heap.objs[o]);
    }
  }

  lemma MarkedSealed(w: World, w2: World)
    requires Sealed(w) && Trimmed(w.heap, w2.heap) && SameOwners(w, w2)
    requires w2.color.Keys == w.color.Keys && Alive(w2) == Alive(w) == Allocated(w.color)
    ensures Sealed(w2)
  {
    forall o | o in w2.heap.objs && o in Alive(w2) && o !in w2.blind ensures RefsIn(w2.heap, Alive(w2), o) {
      assert RefsIn(w.heap, Alive(w), o);
      TrimmedParts(w.heap, w2.heap, Alive(w), o);
      assert RecordTrimmed(w.heap.objs[o], w2.heap.objs[o]);
    }
  }

  // ----- propagation -----

  lemma Propagated(w: World, w2: World, X: iset<Obj>)
    requires Loose(w, X) && w.phase == Propagate && Advance(w, w2) && Marking(w2, [], iset{}, X)
    ensures Loose(w2.(phase := if w2.gray == [] then Atomic else Propagate), X)
  {
    LooseOut(w, X);
    var w3 := w2.(phase := if w2.gray == [] then Atomic else Propagate);
    AdvancedIntact(w, w2, X);
    IntactMoved(w2, w3);
    PropagatedMarking(w2, w3, X);
    PropagatedRest(w, w2, X);
    assert MarkPhase(w3, X) by {
      assert Alive(w3) == Allocated(w3.color);
      assert GrayInLists(w3) && AllWeakTables(w3);
      assert MarkPhaseKeyed(w3, X);
    }
    MarkingBlind(w3, X);
    LooseMark(w3, X);
  }

  lemma AdvancedIntact(w: World, w2: World, X: iset<Obj>)
    requires Intact(w) && MarkPhase(w, X) && Advance(w, w2)
    ensures Intact(w2) && Alive(w2) == Allocated(w2.color) && Started(w2) && Bounds(w2, X)
  {
    MarkPhaseOut(w, X);
    AdvanceOut(w, w2);
    MarkedIntact(w, w2);
  }

  lemma PropagatedMarking(w2: World, w3: World, X: iset<Obj>)
    requires Marking(w2, [], iset{}, X) && w2.phase == Propagate && w3 == w2.(phase := w3.phase)
    requires w3.phase == Propagate || w3.phase == Atomic
    ensures Marking(w3, [], iset{}, X) && GrayInLists(w3)
  {
    Unfold(w2, [], iset{}, X);
    PhaseOnly(w2, w3, X);
    assert GrayInLists(w2);
  }

  lemma PropagatedRest(w: World, w2: World, X: iset<Obj>)
    requires MarkPhase(w, X) && w.phase == Propagate && Advance(w, w2)
    ensures w2.weak == [] && w2.ephemeron == [] && AllWeakTables(w2)
  {
    MarkPhaseOut(w, X);
    AdvanceOut(w, w2);
    PropagatedModes(w, w2);
  }

  lemma PropagatedModes(w: World, w2: World)
    requires AdvanceKeyed(w, w2) && w.phase == Propagate
    requires AllWeakTables(w) && w2.stale == w.stale
    ensures AllWeakTables(w2)
  {
    forall o | o in w2.allweak && o in w2.heap.objs && o !in w2.stale ensures TableMode(w2.heap, o) == AllWeak {
      if o in w.allweak { TrimmedParts(w.heap, w2.heap, iset{}, o); }
    }
  }

  /** Marking on is bounded by what the program can get at. */
  lemma MarkingDrawn(w: World, X: iset<Obj>)
    requires Loose(w, X) && MarkingPhase(w.phase)
    ensures Marking(w, [], iset{}, X) && Marking(w, [], iset{}, Drawn(w))
    ensures Drawn(w) <= X && Bounded(w, X)
  {
    LooseOut(w, X);
    MarkPhaseOut(w, X);
    BoundDrawn(w, [], iset{}, X);
  }

  lemma AdvancedDrawn(w: World, w1: World, X: iset<Obj>)
    requires Bounded(w, X) && Drawn(w) <= X && Advance(w, w1) && Marking(w1, [], iset{}, Drawn(w))
    ensures Marking(w1, [], iset{}, X) && Marked(w1.color) <= Drawn(w)
  {
    AdvanceOut(w, w1);
    StillBounded(w, w1, X, Drawn(w), [], iset{});
    MarkedInBound(w1, [], iset{}, Drawn(w));
  }

  /** So is marking the roots. */
  lemma RestartDrawn(w: World, X: iset<Obj>)
    requires Loose(w, X) && w.phase == Pause
    ensures Marking(Emptied(w), [], iset{}, Drawn(w)) && RootsOk(Emptied(w), Drawn(w))
    ensures Drawn(w) <= X && Bounded(Emptied(w), X)
  {
    var w1 := Emptied(w);
    Restarting(w, X);
    RestartRoots(w, X);
    BoundDrawn(w1, [], iset{}, X);
    DrawnDraws(w);
    TrimmedSelf(w.heap);
    DrawnSame(w, w1);
  }

  lemma RestartedDrawn(w: World, w2: World, X: iset<Obj>)
    requires Spread(Emptied(w), w2) && Marking(w2, [], iset{}, Drawn(w))
    requires Drawn(w) <= X && Bounded(Emptied(w), X)
    ensures Marking(w2, [], iset{}, X) && Marked(w2.color) <= Drawn(w)
  {
    SpreadOut(Emptied(w), w2);
    StillBounded(Emptied(w), w2, X, Drawn(w), [], iset{});
    MarkedInBound(w2, [], iset{}, Drawn(w));
  }

  // ----- the atomic step -----

  lemma AtomicReady(w: World, w1: World, X: iset<Obj>)
    requires Loose(w, X) && w.phase == Atomic && Advance(w, w1)
    ensures Ready(w1, X) && Intact(w1) && Alive(w1) == Allocated(w1.color)
    ensures w1.sweepgc == NoCursor
  {
    LooseOut(w, X);
    ReadyAgain(w, w1, X);
  }

  lemma ReadyAgain(w: World, w1: World, X: iset<Obj>)
    requires Intact(w) && MarkPhase(w, X) && Advance(w, w1)
    ensures Ready(w1, X) && Intact(w1) && Alive(w1) == Allocated(w1.color)
    ensures w1.sweepgc == NoCursor
  {
    AdvancedIntact(w, w1, X);
    IntactOut(w1);
    assert forall o :: o in w1.finobj ==> o in w1.fin;
  }

  lemma FlippedIntact(w1: World, w: World, X: iset<Obj>)
    requires Intact(w1) && Alive(w1) == Allocated(w1.color) && Flipped(w1, w, X) && StaleMarked(w)
    requires forall o :: o in w1.blind ==> o in Marked(w1.color)
    ensures Intact(w) && Alive(w) == Marked(w.color) && Alive(w) <= X
  {
    IntactOut(w1);
    FlippedOut(w1, w, X);
    FlippedAlive(w1, w);
    FlippedOwned(w1, w);
    FlippedWellFormed(w1, w);
    FlippedSealed(w1, w, X);
  }

  /** `Intact` does not depend on which tables are stale. */
  lemma IntactUnstale(w: World, w2: World)
    requires Intact(w) && w2 == w.(stale := w2.stale)
    ensures Intact(w2) && Alive(w2) == Alive(w)
  {
    IntactOut(w);
    UnstaleBase(w, w2);
    UnstaleSealed(w, w2);
  }

  lemma UnstaleBase(w: World, w2: World)
    requires Base(w) && w2 == w.(stale := w2.stale)
    ensures Base(w2)
  {
    assert Owners(w2) == Owners(w);
    assert forall p :: Owners(w2)[p] == Owners(w)[p];
  }

  lemma UnstaleSealed(w: World, w2: World)
    requires Sealed(w) && w2 == w.(stale := w2.stale)
    ensures Sealed(w2) && Alive(w2) == Alive(w)
  {
    assert Alive(w2) == Alive(w);
    forall p | p in w2.heap.objs && p in Alive(w2) && p !in w2.blind ensures RefsIn(w2.heap, Alive(w2), p) {
      assert RefsIn(w.heap, Alive(w), p);
    }
  }

  /** With the other white, what is unmarked is dead. */
  lemma FlippedAlive(w1: World, w: World)
    requires Alive(w1) == Allocated(w1.color) && OnlyMarks(w1.color, w.color) && w.white == !w1.white
    ensures Alive(w) == Marked(w.color)
  {
    forall o | o in w.color ensures o in Alive(w) <==> o in Marked(w.color) {
      assert o in Alive(w1);
    }
  }

  lemma FlippedOwned(w1: World, w: World)
    requires Owned(w1) && w.heap.objs.Keys == w1.heap.objs.Keys
    requires multiset(w.finobj) + multiset(w.tobefnz) == multiset(w1.finobj) + multiset(w1.tobefnz)
    requires w.allgc == w1.allgc && w.fixedgc == w1.fixedgc && w.fin == w1.fin
    requires w.mainthread == w1.mainthread
    ensures Owned(w)
  {
    var F, F1 := multiset(w.finobj) + multiset(w.tobefnz), multiset(w1.finobj) + multiset(w1.tobefnz);
    forall o
      ensures Owners(w)[o] == Owners(w1)[o]
      ensures o in w.fin <==> o in w.finobj || o in w.tobefnz
    {
      assert F[o] == F1[o];
      assert o in F <==> o in w.finobj || o in w.tobefnz;
      assert o in F1 <==> o in w1.finobj || o in w1.tobefnz;
    }
  }

  lemma FlippedWellFormed(w1: World, w: World)
    requires WellFormed(w1) && Trimmed(w1.heap, w.heap) && OnlyMarks(w1.color, w.color)
    requires w.fixedgc == w1.fixedgc && w.mainthread == w1.mainthread && w.memerrmsg == w1.memerrmsg
    requires w.gcfinnum == 1 && w.fin == w1.fin
    ensures WellFormed(w)
  {
    forall o | o in w.heap.objs ensures Shaped(w.heap.objs[o]) {
      TrimmedParts(w1.heap, w.heap, iset{}, o);
    }
    TrimmedKinds(w1.heap, w.heap);
  }

  lemma TrimmedKinds(h: Heap, h2: Heap)
    requires Trimmed(h, h2)
    ensures forall o :: o in h.objs ==> h2.objs[o].kind == h.objs[o].kind
  {
    forall o | o in h.objs ensures h2.objs[o].kind == h.objs[o].kind {
      assert RecordTrimmed(h.objs[o], h2.objs[o]);
    }
  }

  /** After the flip nothing live refers to a dead object, exactly when no live table was
      left with an unmarked metatable. */
  lemma FlippedSealed(w1: World, w: World, X: iset<Obj>)
    requires FlippedKeyed(w1, w, X) && Alive(w) == Marked(w.color)
    requires forall o :: o in w.blind ==> o in Marked(w.color)
    ensures StaleMarked(w) ==> Sealed(w)
    ensures Alive(w) <= X
  {
    if StaleMarked(w) {
      forall o | o in w.heap.objs && o in Alive(w) && o !in w.blind ensures RefsIn(w.heap, Alive(w), o) {
        if o in w.stale { assert In(Marked(w.color), w.heap.objs[o].meta); }
        assert RecordIn(w.heap, Marked(w.color), Unstale(w, o));
      }
    }
  }

  // ----- the end of the collection -----

  /** When nothing is dead and all is inside `X`, so are the roots. */
  lemma AllKept(w: World, X: iset<Obj>)
    requires Intact(w) && AllSwept(w) && Current(w, [w.mainthread]) && Alive(w) <= X
    ensures Kept(w, X) && Allocated(w.color) <= X
  {
    IntactOut(w);
    assert Alive(w) == Allocated(w.color) && ListIn(Alive(w), w.fixedgc) by { PauseColors(w); }
    forall o | o in w.heap.objs && o in X && o !in w.blind ensures StrongIn(w.heap, X, o, true) {
      assert RefsIn(w.heap, Alive(w), o);
      RefsStrong(w.heap, Alive(w), X, o);
    }
  }

  lemma RefsStrong(h: Heap, S: iset<Obj>, X: iset<Obj>, o: Obj)
    requires o in h.objs && RefsIn(h, S, o) && S <= X
    ensures StrongIn(h, X, o, true)
  {
    RecordGrows(h, S, X, h.objs[o]);
  }

  lemma RestartRoots(w: World, X: iset<Obj>)
    requires Loose(w, X) && w.phase == Pause
    ensures RootsOk(Emptied(w), X)
  {
    LooseOut(w, X);
    IntactOut(w);
    assert Alive(w) == Allocated(w.color) by { PauseColors(w); }
  }

  lemma StartedNow(w1: World, w2: World, w3: World)
    requires Spread(w1, w2) && Spread(w2, w3) && w1.mainthread in Marked(w2.color)
    requires ListIn(Marked(w3.color), w3.tobefnz)
    ensures Started(w3) && Spread(w1, w3)
  {
    SpreadOut(w2, w3);
    SpreadTransitive(w1, w2, w3);
  }

  lemma SweptValid(w: World, w2: World, X: iset<Obj>)
    requires Alive(w) <= X && Sweeps(w, w2) && Intact(w2) && SweepPhase(w2) && w.stale == {} && BlindOk(w2)
    requires SweepingPhase(w2.phase) || w2.phase == CallFin
    ensures Loose(w2, X)
  {
    SweepsOut(w, w2);
    LooseSweep(w2, X);
  }
}
