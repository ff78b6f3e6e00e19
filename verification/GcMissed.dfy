/** What the atomic step leaves, and what comes of a sweep that has gone astray. */
module GcMissed {
  import opened Prelude
  import opened GcHeap
  import opened GcWorld
  import opened GcLimits
  import opened GcVisit
  import opened GcAtomic
  import opened GcState
  import opened GcPhases
  import opened GcSteps
  import opened GcLate

  lemma StaleStays(w: World, w2: World)
    requires Advance(w, w2)
    ensures StaleMarked(w) ==> StaleMarked(w2)
  {
    AdvanceOut(w, w2);
    if StaleMarked(w) { StaleMarkedKept(w, w2); }
  }

  lemma PhaseProgress(w: World, w2: World)
    requires w2 == w.(phase := w2.phase)
    ensures Progress(w, w2)
  {
    TrimmedSelf(w.heap);
    assert ProgressKeyed(w, w2);
  }

  lemma NotInside(w: World, X: iset<Obj>)
    requires Loose(w, X)
    ensures w.phase != InsideAtomic
  {
    LooseOut(w, X);
  }

  // ----- several finalizers -----

  /** `n` objects have been taken from `tobefnz`. */
  ghost predicate Finalized(w0: World, w: World, n: nat) {
    forall k :: Key(k) ==> FinalizedKeyed(w0, w, n)
  }

  ghost predicate FinalizedKeyed(w0: World, w: World, n: nat) {
    && n <= |w0.tobefnz| && w.tobefnz == w0.tobefnz[n..] && w.color.Keys == w0.color.Keys
    && w.phase == w0.phase && OnceEach(w0.tobefnz)
    && (StaleMarked(w0) ==> StaleMarked(w))
    && (!SweepingPhase(w.phase) ==> w.color == w0.color && w.blind == w0.blind)
    && (w.phase == SwpTobefnz && w0.blind == map[] ==> TookSome(w0, w, n))
  }

  lemma FinalizedOut(w0: World, w: World, n: nat)
    requires Finalized(w0, w, n)
    ensures FinalizedKeyed(w0, w, n)
  {
    assert Key(0);
  }

  lemma FinalizedNone(w: World, X: iset<Obj>)
    requires Loose(w, X)
    ensures Finalized(w, w, 0)
  {
    assert Owned(w) by { LooseOut(w, X); IntactOut(w); }
    OwnedOnce(w);
    if w.blind == map[] { TookNothing(w); }
  }

  lemma FinalizedMore(w0: World, w: World, n: nat, X: iset<Obj>)
    requires Loose(w, X) && Finalized(w0, w, n) && w.tobefnz != []
    ensures Finalized(w0, Taken(w), n + 1)
    ensures Taken(w).tobefnz == w.tobefnz[1..]
  {
    FinalizedOut(w0, w, n);
    assert Owned(w) by { LooseOut(w, X); IntactOut(w); }
    TakenOwners(w);
    TakesNow(w);
    TakenLoose(w, X);
    if w.phase == SwpTobefnz && w0.blind == map[] { TookOne(w0, w, n); }
    assert w0.tobefnz[n..][1..] == w0.tobefnz[n + 1..];
    assert FinalizedKeyed(w0, Taken(w), n + 1);
  }

  lemma TookSet(w0: World, w: World, w2: World, n: nat)
    requires TookSome(w0, w, n) && w2 == w.(gcfinnum := w2.gcfinnum)
    ensures TookSome(w0, w2, n)
  {
    TookOut(w0, w, n);
  }

  // ----- after the atomic step -----

  lemma AtomicDone(w: World, w1: World, w2: World, X: iset<Obj>)
    requires Loose(w, X) && w.phase == Atomic && StaleMarked(w) && Advance(w, w1)
    requires Intact(w1) && Alive(w1) == Allocated(w1.color) && Flipped(w1, w2, X)
    ensures Intact(w2) && Intact(w2.(stale := {})) && Alive(w2) == Marked(w2.color) && Alive(w2) <= X
    ensures Alive(w2.(stale := {})) == Alive(w2)
  {
    LooseOut(w, X);
    AtomicStale(w, w1, w2, X);
    BlindMarked(w, w1);
    FlippedIntact(w1, w2, X);
    IntactUnstale(w2, w2.(stale := {}));
  }

  lemma AtomicStale(w: World, w1: World, w2: World, X: iset<Obj>)
    requires StaleMarked(w) && Advance(w, w1) && Flipped(w1, w2, X)
    ensures StaleMarked(w2)
  {
    AdvanceOut(w, w1);
    FlippedOut(w1, w2, X);
    StaleMarkedKept(w, w1);
    StaleMarkedKept(w1, w2);
  }

  lemma BlindMarked(w: World, w1: World)
    requires BlindOk(w) && w.phase == Atomic && Advance(w, w1)
    ensures forall o :: o in w1.blind ==> o in Marked(w1.color)
  {
    AdvanceOut(w, w1);
    forall o | o in w1.blind ensures o in Marked(w1.color) { assert KeptBlind(w, o); }
  }

  lemma AtomicSwept(w: World, w1: World, w2: World, w3: World, X: iset<Obj>)
    requires Loose(w, X) && w.phase == Atomic && StaleMarked(w) && Advance(w, w1)
    requires Intact(w1) && Flipped(w1, w2, X) && Intact(w2) && Alive(w2) == Marked(w2.color) <= X
    requires Alive(w2.(stale := {})) == Alive(w2) && Marked(w1.color) <= Drawn(w)
    requires Intact(w3) && SweepPhase(w3) && w3.phase == SwpAllgc && Sweeps(w2.(stale := {}), w3)
    ensures Loose(w3, X) && StepOk(w, w3, X)
  {
    LooseOut(w, X);
    AtomicCollects(w, w1, w2, w3, X);
    AtomicSpares(w, w1, w2, X);
    AtomicBlind(w, w1, w2, w3, X);
    SweepsOut(w2.(stale := {}), w3);
    AtomicParts(w, w1, w2, X);
    assert Parted(w, w3) && forall o :: o in w.tobefnz ==> o in w3.tobefnz;
    assert Holds(w, w3);
    LooseSweep(w3, X);
  }

  lemma AtomicParts(w: World, w1: World, w2: World, X: iset<Obj>)
    requires Advance(w, w1) && Flipped(w1, w2, X) && Marked(w1.color) <= Drawn(w)
    ensures Parted(w, w2)
  {
    AdvanceOut(w, w1);
    FlippedOut(w1, w2, X);
    DrawnSame(w, w1);
  }

  lemma AtomicBlind(w: World, w1: World, w2: World, w3: World, X: iset<Obj>)
    requires Advance(w, w1) && Flipped(w1, w2, X) && Alive(w2) == Marked(w2.color) && BlindOk(w)
    requires Alive(w2.(stale := {})) == Alive(w2) && w2.color.Keys == w2.heap.objs.Keys
    requires w3.phase == SwpAllgc && Sweeps(w2.(stale := {}), w3)
    ensures BlindOk(w3)
  {
    FlippedOut(w1, w2, X);
    SweepsOut(w2.(stale := {}), w3);
  }

  lemma StoppedThins(w: World, w1: World, w2: World)
    requires w1 == w.(stale := {}) && Thins(w1, w2)
    ensures Thins(w, w2)
  {
    ThinsOut(w1, w2);
    assert Alive(w1) == Alive(w);
    assert ThinsKeyed(w, w2);
  }

  // ----- what a collection keeps that starts from the roots -----

  lemma PauseKeeps(w: World)
    requires Loose(w, Everything()) && w.phase == Pause
    ensures Keeps(w) == Marks(w)
  {
    LooseOut(w, Everything());
    forall X: iset<Obj> ensures Limits(w, X) <==> Kept(w, X) { PauseLimits(w, X); }
    forall o ensures InKeeps(w, o) <==> InMarks(w, o) {
    }
  }

  lemma SameKeeps(w: World, w2: World)
    requires w2 == w.(emergency := w2.emergency)
    ensures Keeps(w2) == Keeps(w)
  {
    forall X: iset<Obj> ensures Kept(w2, X) <==> Kept(w, X) {
    }
  }

  /** With the big list swept, nothing is dead. */
  lemma AllgcSwept(w: World, X: iset<Obj>)
    requires Loose(w, X) && w.phase == SwpFinobj
    ensures forall o :: o in w.heap.objs <==> o in Alive(w)
    ensures Alive(w) <= X
    ensures forall o :: o in w.blind ==> o in w.heap.objs && w.heap.objs[o] == w.blind[o]
  {
    LooseOut(w, X);
    IntactOut(w);
    forall o | o in w.heap.objs ensures o in Alive(w) {
      if o != w.mainthread { OwnedAlive(w, o); }
    }
  }

  lemma OwnedAlive(w: World, o: Obj)
    requires Base(w) && Sealed(w) && Current(w, w.allgc) && o in w.heap.objs && o != w.mainthread
    ensures o in Alive(w)
  {
    assert Owners(w)[o] == 1;
    assert o in w.allgc || o in w.finobj || o in w.tobefnz || o in w.fixedgc;
  }

  lemma AstrayAlive(w: World)
    requires Loose(w, Everything()) && w.phase == SwpTobefnz
    ensures Alive(w) == Allocated(w.color)
  {
    LooseOut(w, Everything());
    IntactOut(w);
    forall o | o in w.color ensures o in Alive(w) {
      if o != w.mainthread { OwnedAlive(w, o); }
    }
  }

  /** Ending the sweep, without finalizers, frees nothing and leaves the roots. */
  lemma AstrayEnded(w: World, w1: World)
    requires Loose(w, Everything()) && w.phase == SwpTobefnz && w.emergency
    requires Thins(w, w1) && StillWait(w, w1) && w1.blind == w.blind
    ensures Keeps(w1) == Keeps(w) && w1.heap == w.heap
  {
    LooseOut(w, Everything());
    AstrayAlive(w);
    ThinsNothing(w, w1);
    assert forall o :: o in w1.tobefnz <==> o in w.tobefnz by { ThinsOut(w, w1); }
    forall X: iset<Obj> ensures Kept(w1, X) <==> Kept(w, X) {
    }
    forall o ensures InKeeps(w1, o) <==> InKeeps(w, o) {
    }
  }

  // ----- objects that are left behind -----

  /** `p`, left behind unswept, refers to `c`, which is not a string. */
  ghost predicate Orphans(w: World, p: Obj, c: Obj)
    requires w.tobefnz != []
  {
    LeftBehind(w, p) && Refers(w.heap, p, c) && !IsStr(w.heap, Ref(c))
  }

  lemma LeftMissed(w: World)
    requires Valid(w, Everything()) && Stranding(w)
    ensures forall p :: LeftBehind(w, p) ==>
      p in w.heap.objs && p in Taken(w).tobefnz && p in Taken(w).blind && Taken(w).blind[p] == w.heap.objs[p]
  {
    LooseOut(w, Everything());
    assert Owned(w) by { IntactOut(w); }
    forall p | LeftBehind(w, p)
      ensures p in w.heap.objs && p in Taken(w).blind && Taken(w).blind[p] == w.heap.objs[p]
    {
      TakenThere(w, p);
    }
  }

  /** What a live object refers to is there. */
  lemma RefersThere(w: World, p: Obj, c: Obj)
    requires Sealed(w) && w.blind == map[] && p in Alive(w) && Refers(w.heap, p, c)
    ensures c in w.heap.objs
  {
    if c !in Alive(w) { RecordGrows(w.heap, Alive(w), AllBut(c), w.heap.objs[p]); }
  }

  lemma TailThere(l: seq<Obj>, p: Obj)
    requires l != [] && p in l[1..]
    ensures p in l
  {
  }

  lemma OrphanThere(w: World, p: Obj, c: Obj)
    requires Valid(w, Everything()) && Stranding(w) && Orphans(w, p, c)
    ensures c in w.heap.objs
  {
    assert Sealed(w) by { LooseOut(w, Everything()); IntactOut(w); }
    TailThere(w.tobefnz, p);
    RefersThere(w, p, c);
  }

  /** `K` is what the collection keeps, strings apart. */
  lemma OrphansExact(w: World, w2: World, K: iset<Obj>)
    requires Valid(w, Everything()) && Stranding(w)
    requires forall c :: c in w.heap.objs && !IsStr(w.heap, Ref(c)) ==> (c in w2.heap.objs <==> c in K)
    ensures (exists p, c :: Orphans(w, p, c) && c !in w2.heap.objs) <==> (exists p, c :: Orphans(w, p, c) && c !in K)
  {
    forall p, c | Orphans(w, p, c) ensures c in w2.heap.objs <==> c in K {
      OrphanThere(w, p, c);
    }
  }
}
