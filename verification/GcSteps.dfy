/** What a single step of the collector does to the objects, and objects that move
    from one owner to another. */
module GcSteps {
  import opened Prelude
  import opened GcHeap
  import opened GcWorld
  import opened GcLimits
  import opened GcVisit
  import opened GcClear
  import opened GcAtomic
  import opened GcState
  import opened GcPhases

  // ----- what the program sees of a step -----

  /** Nothing reachable was freed, and no table lost an entry whose key and value are
      reachable. */
  ghost predicate Collects(w: World, w2: World) {
    && w2.mainthread == w.mainthread && w2.running == w.running && w2.registry == w.registry
    && w2.mt == w.mt && w2.fixedgc == w.fixedgc && w2.heap.ups == w.heap.ups
    && forall k :: Key(k) ==> CollectsKeyed(w, w2)
  }

  ghost predicate CollectsKeyed(w: World, w2: World) {
    && (forall o :: o in w2.heap.objs ==>
          && o in w.heap.objs && RecordTrimmed(w.heap.objs[o], w2.heap.objs[o])
          && CleanRecord(w.heap, w.heap.objs[o], w2.heap.objs[o], Reached(w)))
    && (forall o :: o in w.heap.objs && o in Reached(w) ==> o in w2.heap.objs)
  }

  lemma SameRecord(h: Heap, r: Object, M: iset<Obj>)
    ensures RecordTrimmed(r, r) && CleanRecord(h, r, r, M)
  {
  }

  lemma SweepsCollects(w: World, w2: World)
    requires Intact(w) && Sweeps(w, w2)
    ensures Collects(w, w2)
  {
    SweepsOut(w, w2);
    assert Reached(w) <= Alive(w) by { IntactOut(w); ReachedAlive(w); }
    var R := Reached(w);
    forall o | o in w2.heap.objs
      ensures o in w.heap.objs && RecordTrimmed(w.heap.objs[o], w2.heap.objs[o])
      ensures CleanRecord(w.heap, w.heap.objs[o], w2.heap.objs[o], R)
    {
      SameRecord(w.heap, w.heap.objs[o], R);
    }
    assert CollectsKeyed(w, w2);
  }

  lemma CleanedCollects(w: World, w2: World)
    requires Cleaned(w.heap, w2.heap, Reached(w))
    requires w2.mainthread == w.mainthread && w2.running == w.running && w2.registry == w.registry
    requires w2.mt == w.mt && w2.fixedgc == w.fixedgc
    ensures Collects(w, w2)
  {
  }

  /** Marking first does not make less reachable. */
  lemma ReachedAdvance(w: World, w1: World)
    requires Advance(w, w1)
    ensures Reached(w) <= Reached(w1)
  {
    AdvanceOut(w, w1);
    ReachedTidied(w, w1);
  }

  lemma ReachedTidied(w: World, w1: World)
    requires Tidied(w.heap, w1.heap) && w1.mainthread == w.mainthread && w1.running == w.running
    requires w1.registry == w.registry && w1.mt == w.mt && w1.tobefnz == w.tobefnz
    requires w1.stale == w.stale && w1.blind == w.blind
    ensures Reached(w) <= Reached(w1)
  {
    forall o | o in Reached(w) ensures Reachable(w1, o) {
      forall S: iset<Obj> | Encloses(w1, S) ensures o in S {
        ApartTidied(w, w1, S);
        assert Encloses(w, S);
      }
    }
  }

  /** Nor does it change what marking comes to. */
  lemma MarksTidied(w: World, w1: World)
    requires Tidied(w.heap, w1.heap) && w1.mainthread == w.mainthread && w1.running == w.running
    requires w1.registry == w.registry && w1.mt == w.mt && w1.tobefnz == w.tobefnz && w1.finobj == w.finobj
    requires w1.stale == w.stale && w1.blind == w.blind && Marked(w.color) <= Marked(w1.color)
    ensures Marks(w) <= Marks(w1)
  {
    forall o | o in Marks(w) ensures InMarks(w1, o) {
      forall X: iset<Obj> | Limits(w1, X) ensures o in X {
        ButTidied(w.heap, w1.heap, w.stale, w.blind, X);
        assert Limits(w, X);
      }
    }
  }

  /** A collection only drops objects and entries: no object turns into a string. */
  ghost predicate SameStrings(w: World, w2: World) {
    forall o :: IsStr(w2.heap, Ref(o)) == IsStr(w.heap, Ref(o))
  }

  lemma TrimmedStrings(w: World, w2: World)
    requires Trimmed(w.heap, w2.heap)
    ensures SameStrings(w, w2)
  {
    forall o ensures IsStr(w2.heap, Ref(o)) == IsStr(w.heap, Ref(o)) { SameStr(w.heap, w2.heap, Ref(o)); }
  }

  /** Draining the gray list, the atomic step and the beginning of the sweep. */
  lemma AtomicCollects(w: World, w1: World, w2: World, w3: World, X: iset<Obj>)
    requires Intact(w1) && Advance(w, w1) && Flipped(w1, w2, X) && Intact(w2) && Sweeps(w2.(stale := {}), w3)
    requires StaleMarked(w)
    requires Alive(w2) == Marked(w2.color)
    ensures Collects(w, w3) && Reached(w) <= Alive(w3)
  {
    AtomicCleaned(w, w1, w2, X);
    SweepsOut(w2.(stale := {}), w3);
    assert Alive(w2.(stale := {})) == Alive(w2);
    forall o | o in Reached(w) ensures o in Alive(w3) { AtomicKeeps(w, w1, w2, X, o); }
    forall o | o in w.heap.objs && o in Reached(w) ensures o in w3.heap.objs {
      AtomicKeeps(w, w1, w2, X, o);
    }
    assert CollectsKeyed(w, w3);
  }

  lemma AtomicCleaned(w: World, w1: World, w2: World, X: iset<Obj>)
    requires Advance(w, w1) && Flipped(w1, w2, X) && StaleMarked(w)
    ensures Cleaned(w.heap, w2.heap, Reached(w))
  {
    AdvanceOut(w, w1);
    StaleMarkedKept(w, w1);
    FlippedOut(w1, w2, X);
    ReachedAdvance(w, w1);
    TidiedCleaned(w.heap, w1.heap, Reached(w));
    CleanedTransitive(w.heap, w1.heap, w2.heap, Reached(w), Reached(w1));
  }

  lemma AtomicKeeps(w: World, w1: World, w2: World, X: iset<Obj>, o: Obj)
    requires Advance(w, w1) && Flipped(w1, w2, X) && Intact(w2) && Alive(w2) == Marked(w2.color)
    requires o in Reached(w) && StaleMarked(w)
    ensures o in w2.heap.objs && o in Alive(w2)
  {
    AdvanceOut(w, w1);
    StaleMarkedKept(w, w1);
    ReachedAdvance(w, w1);
    FlippedOut(w1, w2, X);
  }

  /** All that marking comes to is marked in the end, strings apart. */
  lemma AtomicSpares(w: World, w1: World, w2: World, X: iset<Obj>)
    requires Advance(w, w1) && Flipped(w1, w2, X) && Alive(w2) == Marked(w2.color)
    ensures SparedAlive(w, w2)
  {
    AdvanceOut(w, w1);
    FlippedOut(w1, w2, X);
    MarksTidied(w, w1);
    TrimmedStrings(w, w1);
  }

  ghost predicate SparedAlive(w: World, w2: World) {
    forall o :: o in Marks(w) && !IsStr(w.heap, Ref(o)) ==> o in Alive(w2)
  }

  // ----- an object at the front of `allgc` -----

  lemma IndexPushed(l: seq<Obj>, o: Obj, q: Obj)
    requires q != o
    ensures IndexOf([o] + l, q) == IndexOf(l, q) + 1
  {
    assert ([o] + l)[1..] == l;
  }

  ghost predicate KeepsCurrent(w: World, w2: World) {
    && w2.white == w.white
    && (forall o :: o in w.color && w.color[o] == White(w.white) ==>
          o in w2.color && w2.color[o] == White(w.white))
    && forall o :: o in w.color && o in w.blind ==>
         o in w2.color && (o in w2.blind || w2.color[o] == White(w.white))
  }

  /** Whatever is put in front of a list while it is swept has the current white. */
  lemma PushedSwept(w: World, w2: World, o: Obj, which: List)
    requires SweptTo(w, which, w.sweepgc) && ListOf(w2, which) == [o] + ListOf(w, which)
    requires w2.sweepgc == w.sweepgc && w2.white == w.white
    requires o !in ListOf(w, which) && Current(w2, [o]) && KeepsCurrent(w, w2)
    ensures SweptTo(w2, which, w2.sweepgc)
  {
    var l := ListOf(w, which);
    var k := Position(l, w.sweepgc);
    match w.sweepgc
    case NoCursor =>
      assert ([o] + l)[..|l| + 1] == [o] + l[..k];
    case Header(_) =>
    case NextOf(q) =>
      IndexPushed(l, o, q);
      assert ([o] + l)[..k + 1] == [o] + l[..k];
  }

  lemma SameSwept(w: World, w2: World, which: List)
    requires SweptTo(w, which, w.sweepgc) && ListOf(w2, which) == ListOf(w, which)
    requires w2.sweepgc == w.sweepgc && KeepsCurrent(w, w2)
    ensures SweptTo(w2, which, w2.sweepgc)
  {
  }

  // ----- taking an object from `tobefnz` -----

  ghost predicate Stranding(w: World) {
    w.phase == SwpTobefnz && w.tobefnz != [] && w.sweepgc == NextOf(w.tobefnz[0])
  }

  function Requeued(w: World): World
    requires w.tobefnz != []
  {
    w.(tobefnz := w.tobefnz[1..], allgc := [w.tobefnz[0]] + w.allgc, fin := w.fin - {w.tobefnz[0]})
  }

  /** The objects that the sweep has not come to when it goes astray. */
  ghost function Unswept(w: World): map<Obj, Object>
    requires w.tobefnz != []
  {
    map p | p in w.tobefnz[1..] && p in w.heap.objs && p in w.color && w.color[p] != White(w.white)
      :: w.heap.objs[p]
  }

  /** Which objects have been missed when the first of `tobefnz` has been taken: the sweep
      goes astray when it stands behind that object; an object that is taken during the
      sweep of `tobefnz` is swept after all. */
  ghost function BlindAfter(w: World): map<Obj, Object>
    requires w.tobefnz != []
  {
    if Stranding(w) then Unswept(w)
    else if w.phase == SwpTobefnz || w.phase == SwpEnd then w.blind - {w.tobefnz[0]}
    else w.blind
  }

  ghost function Taken(w: World): World
    requires w.tobefnz != []
  {
    (if SweepingPhase(w.phase) then Requeued(w).(color := w.color[w.tobefnz[0] := White(w.white)])
     else Requeued(w)).(blind := BlindAfter(w))
  }

  lemma TakenOwners(w: World)
    requires Owned(w) && w.tobefnz != []
    ensures w.tobefnz[0] !in w.tobefnz[1..] && w.tobefnz[0] !in w.allgc && w.tobefnz[0] !in w.finobj
    ensures w.tobefnz[0] !in w.fixedgc && w.tobefnz[0] in w.heap.objs && w.tobefnz[0] != w.mainthread
  {
    var o := w.tobefnz[0];
    assert w.tobefnz == [o] + w.tobefnz[1..];
    assert Owners(w)[o] <= 1;
  }

  /** What taking an object from `tobefnz` changes. */
  ghost predicate Takes(w: World, w2: World) {
    && w.tobefnz != [] && w2.color.Keys == w.color.Keys
    && w2 == w.(tobefnz := w.tobefnz[1..], allgc := [w.tobefnz[0]] + w.allgc,
                fin := w.fin - {w.tobefnz[0]}, color := w2.color, blind := w2.blind)
    && forall p :: p in w.color && p != w.tobefnz[0] ==> w2.color[p] == w.color[p]
  }

  lemma TakenIntact(w: World)
    requires Intact(w) && BlindOk(w) && w.tobefnz != []
    ensures Intact(Taken(w)) && Alive(Taken(w)) == Alive(w) && BlindOk(Taken(w))
  {
    IntactOut(w);
    TakenBase(w);
    TakenAlive(w);
    TakenSealed(w);
    TakenOwners(w);
    TakenBlind(w);
  }

  lemma TakenBase(w: World)
    requires Base(w) && w.tobefnz != []
    ensures Base(Taken(w))
  {
    TakenOwners(w);
    TakesNow(w);
    TakenOwnership(w, Taken(w));
    TakenWellFormed(w, Taken(w));
  }

  lemma TakesNow(w: World)
    requires w.tobefnz != [] && w.tobefnz[0] in w.color
    ensures Takes(w, Taken(w))
  {
  }

  lemma TakenBlind(w: World)
    requires Owned(w) && Sealed(w) && BlindOk(w) && w.tobefnz != [] && Alive(Taken(w)) == Alive(w)
    requires w.tobefnz[0] !in w.tobefnz[1..]
    ensures BlindOk(Taken(w))
  {
    var w2 := Taken(w);
    MainNotTaken(w);
    MainNotMissed(w);
    forall p | p in w2.blind
      ensures p in w2.heap.objs && w2.heap.objs[p] == w2.blind[p]
      ensures w2.phase != SwpAllgc && w2.phase != SwpFinobj ==> KeptBlind(w2, p)
    {
      TakenRecord(w, p);
      if Stranding(w) {
        TakenMissed(w, p);
      } else if w2.phase != SwpAllgc && w2.phase != SwpFinobj {
        StillBlind(w, p);
      }
    }
  }

  lemma MainNotMissed(w: World)
    requires w.mainthread !in w.blind && w.mainthread !in w.tobefnz && w.tobefnz != []
    ensures Taken(w).mainthread !in Taken(w).blind
  {
    assert w.tobefnz == [w.tobefnz[0]] + w.tobefnz[1..];
  }

  lemma TakenRecord(w: World, p: Obj)
    requires BlindOk(w) && w.tobefnz != [] && p in Taken(w).blind
    ensures p in w.heap.objs && Taken(w).blind[p] == w.heap.objs[p]
  {
  }

  lemma MainNotTaken(w: World)
    requires Owned(w) && w.tobefnz != []
    ensures w.mainthread !in w.tobefnz && forall p :: p in w.tobefnz[1..] ==> p in w.tobefnz
  {
    assert Owners(w)[w.mainthread] == 0;
  }

  lemma StillBlind(w: World, p: Obj)
    requires BlindOk(w) && w.tobefnz != [] && !Stranding(w) && p in Taken(w).blind
    requires w.phase != SwpAllgc && w.phase != SwpFinobj && Alive(Taken(w)) == Alive(w)
    ensures p in w.heap.objs && KeptBlind(Taken(w), p)
  {
    assert p in w.blind && KeptBlind(w, p);
  }

  /** What is missed has its old mark, for nothing in `tobefnz` is dead. */
  lemma TakenMissed(w: World, p: Obj)
    requires Sealed(w) && BlindOk(w) && Stranding(w) && p in Unswept(w) && Alive(Taken(w)) == Alive(w)
    requires w.tobefnz[0] !in w.tobefnz[1..]
    ensures p in w.heap.objs && KeptBlind(Taken(w), p)
  {
    assert w.tobefnz == [w.tobefnz[0]] + w.tobefnz[1..];
    assert p in w.tobefnz && p in Alive(w);
    if p in w.blind { assert KeptBlind(w, p); } else { assert RefsIn(w.heap, Alive(w), p); }
  }

  lemma TakenAlive(w: World)
    requires Sealed(w) && w.tobefnz != []
    ensures Alive(Taken(w)) == Alive(w)
  {
    assert w.tobefnz[0] in Alive(w);
  }

  lemma TakenOwnership(w: World, w2: World)
    requires Owned(w) && Takes(w, w2)
    requires w.tobefnz[0] !in w.tobefnz[1..] && w.tobefnz[0] !in w.finobj
    ensures Owned(w2)
  {
    var o := w.tobefnz[0];
    assert w.tobefnz == [o] + w2.tobefnz;
    assert multiset(w.tobefnz) == multiset{o} + multiset(w2.tobefnz);
    assert multiset(w2.allgc) == multiset{o} + multiset(w.allgc);
    assert forall p :: Owners(w2)[p] == Owners(w)[p];
  }

  lemma TakenWellFormed(w: World, w2: World)
    requires WellFormed(w) && Takes(w, w2) && w.tobefnz[0] !in w.fixedgc
    ensures WellFormed(w2)
  {
  }

  lemma TakenSealed(w: World)
    requires Sealed(w) && BlindOk(w) && w.tobefnz != [] && Alive(Taken(w)) == Alive(w)
    ensures Sealed(Taken(w))
  {
    var w2 := Taken(w);
    assert w.tobefnz[0] in Alive(w);
    assert forall p :: p in w2.tobefnz ==> p in w.tobefnz;
    forall p | p in w2.heap.objs && p in Alive(w2) && p !in w2.blind ensures RefsIn(w2.heap, Alive(w2), p) {
      TakenRefs(w, p);
    }
    forall p | p in w2.blind ensures p in Alive(w2) {
      BlindAlive(w, p);
    }
  }

  lemma BlindAlive(w: World, p: Obj)
    requires Sealed(w) && w.tobefnz != [] && p in Taken(w).blind
    ensures p in Alive(w)
  {
    if Stranding(w) { assert p in w.tobefnz; }
  }

  lemma TakenRefs(w: World, p: Obj)
    requires Sealed(w) && BlindOk(w) && w.tobefnz != [] && p in w.heap.objs && p in Alive(w)
    requires p !in Taken(w).blind
    ensures RefsIn(w.heap, Alive(w), p)
  {
    if p in w.blind { assert KeptBlind(w, p); }
  }

  lemma TakenCurrent(w: World)
    requires w.tobefnz != [] && w.tobefnz[0] in w.color && (Stranding(w) ==> w.blind == map[])
    ensures KeepsCurrent(w, Taken(w))
    ensures SweepingPhase(w.phase) || Current(w, w.tobefnz) ==> Current(Taken(w), [w.tobefnz[0]])
  {
    assert w.tobefnz[0] in w.tobefnz;
  }

  /** What has been swept of a list is still swept when its first object leaves. */
  lemma TailPosition(l: seq<Obj>, q: Obj)
    requires l != [] && q in l && q != l[0]
    ensures q in l[1..] && IndexOf(l[1..], q) == IndexOf(l, q) - 1
  {
  }

  lemma TakenTail(w: World)
    requires w.phase == SwpTobefnz && w.tobefnz != [] && SweptTo(w, ToBeFnz, w.sweepgc) && !Stranding(w)
    requires w.tobefnz[0] in w.color && w.tobefnz[0] !in w.tobefnz[1..]
    ensures SweptTo(Taken(w), ToBeFnz, w.sweepgc)
  {
    var w2, l := Taken(w), w.tobefnz;
    TakenCurrent(w);
    match w.sweepgc
    case NoCursor =>
      CurrentPart(w, w2, l, |l|);
    case Header(_) =>
    case NextOf(q) =>
      TailPosition(l, q);
      CurrentPart(w, w2, l, IndexOf(l, q) + 1);
  }

  /** Standing behind an object that goes to the front of `allgc`, the sweep goes on there. */
  lemma TakenStrand(w: World)
    requires Owned(w) && Sealed(w) && Stranding(w) && w.blind == map[] && w.tobefnz[0] in w.color
    ensures Astray(Taken(w))
  {
    var w2, o := Taken(w), w.tobefnz[0];
    TakenOwners(w);
    assert w2.allgc[0] == o && w2.allgc[..1] == [o];
    forall p | p in w2.tobefnz
      ensures p in w2.color && (p in w2.blind || w2.color[p] == White(w2.white)) && p !in w2.allgc
    {
      TakenLeft(w, p);
    }
  }

  lemma TakenLeft(w: World, p: Obj)
    requires Owned(w) && Sealed(w) && w.tobefnz != [] && p in w.tobefnz[1..]
    requires w.tobefnz[0] !in w.tobefnz[1..]
    ensures p in w.color && p in w.heap.objs && p != w.tobefnz[0] && p !in w.allgc
  {
    assert w.tobefnz == [w.tobefnz[0]] + w.tobefnz[1..];
    assert p in w.tobefnz && p in Alive(w) && Owners(w)[p] <= 1;
  }

  lemma TakenAstray(w: World)
    requires Owned(w) && Astray(w) && w.phase == SwpTobefnz && w.tobefnz != [] && w.tobefnz[0] in w.color
    ensures !Stranding(w) && Astray(Taken(w))
  {
    var w2, o := Taken(w), w.tobefnz[0];
    TakenOwners(w);
    TakenCurrent(w);
    PushedSwept(w, w2, o, AllGc);
    assert forall p :: p in w2.tobefnz ==> p in w.tobefnz;
  }

  lemma CurrentPart(w: World, w2: World, l: seq<Obj>, k: nat)
    requires KeepsCurrent(w, w2) && 0 < k <= |l| && Current(w, l[..k])
    ensures Current(w2, l[1..][..k - 1])
  {
    forall o | o in l[1..][..k - 1]
      ensures o in w2.color && (o in w2.blind || w2.color[o] == White(w2.white))
    {
      assert l[1..][..k - 1] == l[..k][1..];
      assert o in l[..k];
    }
  }

  lemma CurrentAlong(w: World, w2: World, s: seq<Obj>)
    requires KeepsCurrent(w, w2) && Current(w, s)
    ensures Current(w2, s)
  {
  }

  lemma TakenSweep(w: World)
    requires Intact(w) && SweepPhase(w) && w.tobefnz != []
    ensures SweepPhase(Taken(w))
  {
    IntactOut(w);
    TakenOwners(w);
    StrandsFirst(w);
    TakenCurrent(w);
    if w.phase == SwpTobefnz {
      TakenTobefnz(w);
    } else if w.phase == SwpAllgc || w.phase == SwpFinobj {
      TakenEarly(w);
    } else {
      TakenAllSwept(w);
      if w.phase != SwpEnd { CurrentAlong(w, Taken(w), [w.mainthread]); }
    }
  }

  lemma TakenEarly(w: World)
    requires w.tobefnz != [] && (w.phase == SwpAllgc || w.phase == SwpFinobj) && SweepPhase(w)
    requires w.tobefnz[0] !in w.allgc && KeepsCurrent(w, Taken(w)) && Current(Taken(w), [w.tobefnz[0]])
    ensures SweepPhase(Taken(w))
  {
    var w2, o := Taken(w), w.tobefnz[0];
    if w.phase == SwpAllgc {
      PushedSwept(w, w2, o, AllGc);
    } else {
      PushedCurrent(w, w2, o);
      SameSwept(w, w2, FinObj);
    }
  }

  /** A sweep that has gone astray does not do so again. */
  lemma StrandsFirst(w: World)
    requires Owned(w) && Sealed(w) && SweepPhase(w) && w.tobefnz != []
    ensures Stranding(w) ==> w.blind == map[]
  {
    if Stranding(w) && Astray(w) {
      TakenOwners(w);
    }
  }

  lemma TakenTobefnz(w: World)
    requires Owned(w) && Sealed(w) && SweepPhase(w) && w.phase == SwpTobefnz && w.tobefnz != []
    requires Stranding(w) ==> w.blind == map[]
    ensures SweepPhase(Taken(w))
  {
    var w2, o := Taken(w), w.tobefnz[0];
    TakenOwners(w);
    TakenCurrent(w);
    PushedCurrent(w, w2, o);
    CurrentAlong(w, w2, w.finobj);
    if Stranding(w) {
      TakenStrand(w);
    } else if Astray(w) {
      TakenAstray(w);
    } else {
      TakenTail(w);
    }
  }

  lemma PushedCurrent(w: World, w2: World, o: Obj)
    requires KeepsCurrent(w, w2) && Current(w, w.allgc) && Current(w2, [o])
    requires w2.allgc == [o] + w.allgc
    ensures Current(w2, w2.allgc)
  {
    assert o in [o];
  }

  lemma TakenAllSwept(w: World)
    requires AllSwept(w) && w.tobefnz != [] && w.tobefnz[0] in w.color && w.tobefnz[0] !in w.tobefnz[1..]
    requires w.phase != SwpTobefnz
    ensures AllSwept(Taken(w))
  {
    var w2 := Taken(w);
    TakenCurrent(w);
    PushedCurrent(w, w2, w.tobefnz[0]);
    CurrentAlong(w, w2, w.finobj);
    assert forall p :: p in w2.tobefnz ==> p in w.tobefnz;
  }

  lemma TakenLoose(w: World, X: iset<Obj>)
    requires Loose(w, X) && w.tobefnz != []
    ensures Loose(Taken(w), X) && (StaleMarked(w) ==> StaleMarked(Taken(w)))
  {
    LooseOut(w, X);
    TakenIntact(w);
    if MarkingPhase(w.phase) {
      TakenMarking(w, X);
      LooseMark(Taken(w), X);
      if StaleMarked(w) { assert Marked(Taken(w).color) == Marked(w.color); }
    } else {
      TakenSweep(w);
      if w.phase == Pause { TakenKept(w, X); }
      LooseSweep(Taken(w), X);
    }
  }

  /** Some object behind the first of `tobefnz` does not have the current white. */
  ghost predicate LeftBehind(w: World, p: Obj)
    requires w.tobefnz != []
  {
    p in w.tobefnz[1..] && p in w.color && w.color[p] != White(w.white)
  }

  /** Taking an object from `tobefnz` keeps the invariant unless the sweep stands right
      behind that object, with something left to sweep. */
  lemma TakenValid(w: World, X: iset<Obj>)
    requires Valid(w, X) && w.tobefnz != []
    ensures Valid(Taken(w), X) <==> !(Stranding(w) && exists p :: LeftBehind(w, p))
  {
    LooseOut(w, X);
    TakenLoose(w, X);
    assert Owned(w) by { IntactOut(w); }
    if Stranding(w) {
      forall p ensures p in Unswept(w) <==> LeftBehind(w, p) {
        if p in w.tobefnz[1..] { TakenThere(w, p); }
      }
      if exists p :: LeftBehind(w, p) {
        var p :| LeftBehind(w, p);
        assert p in Taken(w).blind;
      } else {
        assert Unswept(w) == map[];
      }
    }
  }

  lemma TakenThere(w: World, p: Obj)
    requires Owned(w) && w.tobefnz != [] && p in w.tobefnz[1..]
    ensures p in w.heap.objs
  {
    assert w.tobefnz == [w.tobefnz[0]] + w.tobefnz[1..];
    assert p in w.tobefnz && Owners(w)[p] >= 1;
  }

  lemma TakenMarking(w: World, X: iset<Obj>)
    requires MarkPhase(w, X) && MarkingPhase(w.phase) && w.tobefnz != []
    ensures MarkPhase(Taken(w), X)
  {
    var w2 := Taken(w);
    assert SameMarks(w, w2);
    OwnersChanged(w, w2, [], X);
    MarkPhaseOut(w, X);
    TakenMarkKeyed(w, X);
  }

  lemma TakenMarkKeyed(w: World, X: iset<Obj>)
    requires MarkPhaseKeyed(w, X) && MarkingPhase(w.phase) && w.tobefnz != []
    ensures MarkPhaseKeyed(Taken(w), X)
  {
    var w2 := Taken(w);
    assert forall p :: p in w2.tobefnz ==> p in w.tobefnz;
    assert Alive(w2) == Alive(w);
    assert SameMarks(w, w2);
    GraySame(w, w2);
  }

  lemma GraySame(w: World, w2: World)
    requires GrayInLists(w) && SameMarks(w, w2)
    ensures GrayInLists(w2)
  {
    forall o | o in w2.color && w2.color[o] == Gray && o !in w2.fixedgc && o !in w2.blind
      ensures Pending(w2, [], o) || Cleared(w2, o)
    {
      assert Pending(w, [], o) || Cleared(w, o);
    }
  }

  lemma TakenKept(w: World, X: iset<Obj>)
    requires Kept(w, X) && w.tobefnz != [] && w.phase == Pause
    ensures Kept(Taken(w), X)
  {
    assert forall p :: p in Taken(w).tobefnz ==> p in w.tobefnz;
  }

  ghost predicate SameButFlags(w: World, w2: World) {
    w2 == w.(gcfinnum := w2.gcfinnum, emergency := w2.emergency)
  }

  /** The invariant does not depend on how the collection was asked for. */
  lemma FlagsSet(w: World, w2: World, X: iset<Obj>)
    requires Loose(w, X) && SameButFlags(w, w2) && (w.tobefnz != [] ==> w2.gcfinnum > 0)
    ensures Loose(w2, X) && (StaleMarked(w) ==> StaleMarked(w2))
  {
    LooseOut(w, X);
    FlagsIntact(w, w2);
    FlagsBlind(w, w2);
    if MarkingPhase(w.phase) {
      OwnersChanged(w, w2, [], X);
      MarkPhaseOut(w, X);
      GraySame(w, w2);
      assert Alive(w2) == Alive(w);
      assert MarkPhaseKeyed(w2, X);
      LooseMark(w2, X);
    } else {
      FlagsSweep(w, w2);
      assert Alive(w2) == Alive(w);
      LooseSweep(w2, X);
    }
  }

  lemma FlagsBlind(w: World, w2: World)
    requires BlindOk(w) && SameButFlags(w, w2)
    ensures BlindOk(w2)
  {
    assert Alive(w2) == Alive(w);
    forall o | o in w2.blind && w2.phase != SwpAllgc && w2.phase != SwpFinobj ensures KeptBlind(w2, o) {
      assert KeptBlind(w, o);
    }
  }

  lemma FlagsIntact(w: World, w2: World)
    requires Intact(w) && SameButFlags(w, w2) && (w.tobefnz != [] ==> w2.gcfinnum > 0)
    ensures Intact(w2)
  {
    IntactOut(w);
    FlagsBase(w, w2);
    FlagsSealed(w, w2);
  }

  lemma FlagsBase(w: World, w2: World)
    requires Base(w) && SameButFlags(w, w2) && (w.tobefnz != [] ==> w2.gcfinnum > 0)
    ensures Base(w2)
  {
    assert Owners(w2) == Owners(w);
    assert forall o :: Owners(w2)[o] == Owners(w)[o];
  }

  lemma FlagsSealed(w: World, w2: World)
    requires Sealed(w) && SameButFlags(w, w2)
    ensures Sealed(w2)
  {
    assert Alive(w2) == Alive(w);
    forall p | p in w2.heap.objs && p in Alive(w2) && p !in w2.blind ensures RefsIn(w2.heap, Alive(w2), p) {
      assert RefsIn(w.heap, Alive(w), p);
    }
  }

  lemma FlagsSweep(w: World, w2: World)
    requires SweepPhase(w) && SameButFlags(w, w2)
    ensures SweepPhase(w2)
  {
    assert forall s :: Current(w, s) ==> Current(w2, s);
  }

  lemma GcfinnumPositive(w: World, X: iset<Obj>)
    requires Loose(w, X)
    ensures w.tobefnz != [] ==> w.gcfinnum > 0
  {
    LooseOut(w, X);
    IntactOut(w);
  }

  /** `n` objects can be taken from `tobefnz` before the sweep position is reached. */
  ghost predicate Reaches(w: World, n: nat) {
    w.phase == SwpTobefnz && w.sweepgc.NextOf? ==>
      forall i :: 0 <= i < n && i < |w.tobefnz| ==> w.tobefnz[i] != w.sweepgc.o
  }

  /** What several objects taken from `tobefnz` in turn amount to, `w0` being the state
      before: once the place of the sweep is passed, just those are missed that are left
      and did not have the current white. */
  ghost predicate TookSome(w0: World, w: World, k: nat) {
    forall key :: Key(key) ==> TookKeyed(w0, w, k)
  }

  lemma TookOut(w0: World, w: World, k: nat)
    requires TookSome(w0, w, k)
    ensures TookKeyed(w0, w, k)
  {
    assert Key(0);
  }

  lemma TookNothing(w: World)
    requires w.blind == map[]
    ensures TookSome(w, w, 0)
  {
    assert Reaches(w, 0);
  }

  ghost predicate TookKeyed(w0: World, w: World, k: nat) {
    && w.phase == w0.phase && w.sweepgc == w0.sweepgc && w.white == w0.white && w.heap == w0.heap
    && k <= |w0.tobefnz| && w.tobefnz == w0.tobefnz[k..]
    && (forall p :: p in w.tobefnz && p in w0.color ==> p in w.color && w.color[p] == w0.color[p])
    && (forall p :: p in w.tobefnz ==> (p in w.blind <==> MissedBy(w0, p, k)))
    && (forall p :: p in w.blind ==> p in w.tobefnz)
    && (Reaches(w0, k) ==> w.blind == map[])
  }

  ghost predicate MissedBy(w0: World, p: Obj, k: nat) {
    !Reaches(w0, k) && p in w0.heap.objs && p in w0.color && w0.color[p] != White(w0.white)
  }

  /** One object is left, and the sweep missed it. */
  lemma TookMissed(w0: World, w: World, k: nat, p: Obj)
    requires TookSome(w0, w, k) && k < |w0.tobefnz| && w0.tobefnz[k..] == [p] && MissedBy(w0, p, k)
    ensures w.tobefnz == [p] && p in w.blind && forall q :: q in w.blind ==> q in w.tobefnz
  {
    TookOut(w0, w, k);
    assert [p][0] in [p];
  }

  lemma TookOne(w0: World, w: World, k: nat)
    requires TookSome(w0, w, k) && k < |w0.tobefnz| && Owned(w) && w.phase == SwpTobefnz
    requires OnceEach(w0.tobefnz) && w.tobefnz != []
    requires w.color.Keys == w.heap.objs.Keys == w0.color.Keys
    ensures TookSome(w0, Taken(w), k + 1)
  {
    TookOut(w0, w, k);
    var w2 := Taken(w);
    TakenOwners(w);
    TakesNow(w);
    CursorIndex(w0, w, k);
    assert w.tobefnz[1..] == w0.tobefnz[k + 1..];
    forall p | p in w2.tobefnz
      ensures p in w.tobefnz && p != w.tobefnz[0] && (p in w2.blind <==> MissedBy(w0, p, k + 1))
    {
      TookAnother(w0, w, k, p);
    }
    TookNone(w0, w, k);
    TookBlind(w0, w, k);
    TookSame(w0, w, w2, k);
  }

  lemma TookSame(w0: World, w: World, w2: World, k: nat)
    requires TookKeyed(w0, w, k) && k < |w0.tobefnz| && Takes(w, w2)
    requires w.tobefnz[1..] == w0.tobefnz[k + 1..]
    requires forall p :: p in w2.tobefnz ==>
      p in w.tobefnz && p != w.tobefnz[0] && (p in w2.blind <==> MissedBy(w0, p, k + 1))
    requires Reaches(w0, k + 1) ==> w2.blind == map[]
    requires forall p :: p in w2.blind ==> p in w2.tobefnz
    ensures TookKeyed(w0, w2, k + 1)
  {
  }

  lemma TookBlind(w0: World, w: World, k: nat)
    requires TookKeyed(w0, w, k) && w.tobefnz != [] && w.phase == SwpTobefnz
    ensures forall p :: p in Taken(w).blind ==> p in w.tobefnz[1..]
  {
    assert w.tobefnz == [w.tobefnz[0]] + w.tobefnz[1..];
  }

  lemma TookNone(w0: World, w: World, k: nat)
    requires TookKeyed(w0, w, k) && k < |w0.tobefnz| && w.phase == SwpTobefnz
    requires Stranding(w) ==> !Reaches(w0, k + 1)
    ensures Reaches(w0, k + 1) ==> Taken(w).blind == map[]
  {
  }

  lemma TookAnother(w0: World, w: World, k: nat, p: Obj)
    requires TookKeyed(w0, w, k) && k < |w0.tobefnz| && w.phase == SwpTobefnz && p in w.tobefnz[1..]
    requires w.tobefnz[0] !in w.tobefnz[1..] && w.color.Keys == w.heap.objs.Keys == w0.color.Keys
    requires Reaches(w0, k) && !Reaches(w0, k + 1) <==> Stranding(w) && Reaches(w0, k)
    requires Stranding(w) ==> Reaches(w0, k)
    ensures p in w.tobefnz && p != w.tobefnz[0] && (p in Taken(w).blind <==> MissedBy(w0, p, k + 1))
  {
    assert w.tobefnz == [w.tobefnz[0]] + w.tobefnz[1..];
    assert p in w.tobefnz;
    assert p in w.blind <==> MissedBy(w0, p, k);
  }

  /** The sweep stands behind the next object exactly when that is the one that passes it. */
  lemma CursorIndex(w0: World, w: World, k: nat)
    requires w.phase == w0.phase == SwpTobefnz && w.sweepgc == w0.sweepgc && k < |w0.tobefnz|
    requires w.tobefnz == w0.tobefnz[k..] && Owned(w)
    requires OnceEach(w0.tobefnz)
    ensures Reaches(w0, k) && !Reaches(w0, k + 1) <==> Stranding(w) && Reaches(w0, k)
    ensures Stranding(w) ==> Reaches(w0, k) && !Reaches(w0, k + 1)
  {
    assert w.tobefnz[0] == w0.tobefnz[k];
  }

  lemma {:induction false} IndexAtMost(l: seq<Obj>, k: nat)
    requires k < |l|
    ensures IndexOf(l, l[k]) <= k
  {
    if k > 0 && l[0] != l[k] {
      assert l[1..][k - 1] == l[k];
      IndexAtMost(l[1..], k - 1);
    }
  }

  ghost predicate OnceEach(l: seq<Obj>) {
    forall i, j :: 0 <= i < j < |l| ==> l[i] != l[j]
  }

  lemma OwnedOnce(w: World)
    requires Owned(w)
    ensures OnceEach(w.tobefnz)
  {
    forall i, j | 0 <= i < j < |w.tobefnz| ensures w.tobefnz[i] != w.tobefnz[j] {
      assert Owners(w)[w.tobefnz[i]] <= 1;
      if w.tobefnz[i] == w.tobefnz[j] { Twice(w.tobefnz, i, j); }
    }
  }

  lemma Twice(l: seq<Obj>, i: nat, j: nat)
    requires i < j < |l| && l[i] == l[j]
    ensures multiset(l)[l[i]] >= 2
  {
    assert l == l[..i] + [l[i]] + l[i + 1..j] + [l[j]] + l[j + 1..];
  }

  // ----- phases as a whole -----

  /** A collection goes once through the phases. */
  function NextPhase(p: Phase): Phase {
    match p
    case Pause => Propagate
    case Propagate => Atomic
    case Atomic => SwpAllgc
    case SwpAllgc => SwpFinobj
    case SwpFinobj => SwpTobefnz
    case SwpTobefnz => SwpEnd
    case SwpEnd => CallFin
    case CallFin => Pause
    case InsideAtomic => InsideAtomic
  }

  /** What is left to do in the present phase. */
  ghost function Left(w: World): int {
    match w.phase
    case Propagate => Work(w)
    case SwpAllgc => Remaining(w.allgc, w.sweepgc)
    case SwpFinobj => Remaining(w.finobj, w.sweepgc)
    case SwpTobefnz => Remaining(ListOf(w, HoldingList(w.allgc, w.finobj, w.sweepgc, ToBeFnz)), w.sweepgc)
    case CallFin => |w.tobefnz|
    case _ => 0
  }

  /** A step ends its phase or leaves less to do in it. */
  ghost predicate Steps(w: World, w2: World) {
    w2.phase == NextPhase(w.phase) || (w2.phase == w.phase && Left(w2) < Left(w))
  }

  lemma EmptiedCollects(w: World, w2: World)
    requires Spread(Emptied(w), w2) && Marked(w2.color) <= Drawn(w)
    ensures Collects(w, w2.(phase := Propagate)) && Continues(w, w2.(phase := Propagate))
  {
    var w3 := w2.(phase := Propagate);
    SpreadOut(Emptied(w), w2);
    ReachedTidied(w, w3);
    MarksTidied(w, w3);
    DrawnSame(w, w3);
    TrimmedStrings(w, w3);
    TidiedCleaned(w.heap, w3.heap, Reached(w));
    CleanedCollects(w, w3);
  }

  lemma GrayLeft(w: World, X: iset<Obj>)
    requires Loose(w, X) && w.phase == Propagate
    ensures w.gray != [] && Marking(w, [], iset{}, X)
  {
    LooseOut(w, X);
  }

  lemma PropagatedSteps(w: World, w1: World, w2: World)
    requires w.phase == Propagate && Advance(w, w1) && Work(w1) < Work(w)
    requires w2 == w1.(phase := if w1.gray == [] then Atomic else Propagate)
    requires Marked(w1.color) <= Drawn(w)
    ensures Steps(w, w2) && Collects(w, w2) && Continues(w, w2)
  {
    AdvanceOut(w, w1);
    ReachedTidied(w, w2);
    MarksTidied(w, w2);
    DrawnSame(w, w2);
    TrimmedStrings(w, w2);
    TidiedCleaned(w.heap, w2.heap, Reached(w));
    CleanedCollects(w, w2);
    assert w2.phase == Propagate ==> Left(w2) < Left(w);
  }

  // ----- the sweeping phases -----

  lemma FromHeader(w: World, which: List)
    ensures SweptTo(w, which, Header(which))
  {
    assert ListOf(w, which)[..0] == [];
  }

  /** What the steps of the three sweeping phases have in common. */
  ghost predicate SweepStepped(w: World, w2: World, which: List) {
    && Intact(w2) && Sweeps(w, w2) && SameOthers(w, w2, which)
    && (w2.phase == w.phase ==> SweptTo(w2, which, w2.sweepgc) && w2.sweepgc != NoCursor)
    && (w2.phase == w.phase ==>
          Remaining(ListOf(w2, which), w2.sweepgc) < Remaining(ListOf(w, which), w.sweepgc))
    && (w2.phase != w.phase ==> Current(w2, ListOf(w2, which)))
    && (w.sweepgc == NoCursor ==> w2.color == w.color)
  }

  lemma AllgcStepped(w: World, w2: World, X: iset<Obj>)
    requires Loose(w, X) && w.phase == SwpAllgc && SweepStepped(w, w2, AllGc)
    requires w2.phase == SwpAllgc || (w2.phase == SwpFinobj && w2.sweepgc == Header(FinObj))
    ensures Loose(w2, X) && Steps(w, w2) && Collects(w, w2) && Thins(w, w2) && w2.tobefnz == w.tobefnz
  {
    LooseOut(w, X);
    FromHeader(w2, FinObj);
    SweptBlind(w, w2);
    SweptValid(w, w2, X);
    SweepsThins(w, w2);
    SweepsCollects(w, w2);
  }

  lemma FinobjStepped(w: World, w2: World, X: iset<Obj>)
    requires Loose(w, X) && w.phase == SwpFinobj && SweepStepped(w, w2, FinObj) && w.blind == map[]
    requires w2.phase == SwpFinobj || (w2.phase == SwpTobefnz && w2.sweepgc == Header(ToBeFnz))
    ensures Loose(w2, X) && Steps(w, w2) && Collects(w, w2) && Thins(w, w2) && w2.tobefnz == w.tobefnz
  {
    LooseOut(w, X);
    assert w2.allgc == w.allgc by { assert ListOf(w2, AllGc) == ListOf(w, AllGc); }
    CurrentKept(w, w2, w.allgc);
    FromHeader(w2, ToBeFnz);
    SweptValid(w, w2, X);
    SweepsThins(w, w2);
    SweepsCollects(w, w2);
  }

  /** The last list is swept, or `allgc` once more when the sweep has gone astray. */
  lemma TobefnzStepped(w: World, w2: World, which: List, X: iset<Obj>)
    requires Loose(w, X) && w.phase == SwpTobefnz && SweepStepped(w, w2, which)
    requires which == HoldingList(w.allgc, w.finobj, w.sweepgc, ToBeFnz)
    requires w2.phase == SwpTobefnz || (w2.phase == SwpEnd && w2.sweepgc == NoCursor)
    ensures Loose(w2, X) && Steps(w, w2) && Collects(w, w2) && Thins(w, w2) && w2.tobefnz == w.tobefnz
  {
    LooseOut(w, X);
    HoldingTobefnz(w);
    if which == AllGc { AstraySwept(w, w2); } else { TobefnzSwept(w, w2); }
    StillMissed(w, w2, which);
    SweptBlind(w, w2);
    SweptValid(w, w2, X);
    SweepsThins(w, w2);
    SweepsCollects(w, w2);
    TobefnzSteps(w, w2, which);
  }

  lemma StillMissed(w: World, w2: World, which: List)
    requires Intact(w) && SweepStepped(w, w2, which)
    requires which == AllGc ==> forall o :: o in w.blind ==> o !in w.allgc
    requires which == ToBeFnz ==> w.blind == map[] || w.sweepgc == NoCursor
    requires which != FinObj
    ensures forall o :: o in w.blind && o in w.color ==> o in w2.color && w2.color[o] == w.color[o]
  {
    if which == AllGc { assert SweptOnly(w, w2, AllGc) by { assert Key(0); } }
  }

  lemma TobefnzSteps(w: World, w2: World, which: List)
    requires w.phase == SwpTobefnz && SweepStepped(w, w2, which) && Intact(w2) && SweepPhase(w2)
    requires which == HoldingList(w.allgc, w.finobj, w.sweepgc, ToBeFnz)
    requires w2.phase == SwpTobefnz || (w2.phase == SwpEnd && w2.sweepgc == NoCursor)
    requires w2.phase == SwpTobefnz ==> w2.sweepgc != NoCursor
    ensures Steps(w, w2)
  {
    if w2.phase == SwpTobefnz { HoldingPhase(w2, which); }
  }

  lemma AstraySwept(w: World, w2: World)
    requires Intact(w) && w.phase == SwpTobefnz && SweepPhase(w) && Astray(w) && SweepStepped(w, w2, AllGc)
    requires w2.phase == SwpTobefnz || (w2.phase == SwpEnd && w2.sweepgc == NoCursor)
    ensures SweepPhase(w2)
  {
    assert ListOf(w2, ToBeFnz) == ListOf(w, ToBeFnz) && ListOf(w2, FinObj) == ListOf(w, FinObj);
    CurrentKept(w, w2, w.finobj);
    CurrentKept(w, w2, w.tobefnz);
    CurrentKept(w, w2, w.allgc);
    assert SweptOnly(w, w2, AllGc) by { assert Key(0); }
    assert forall o :: o in w2.allgc ==> o in w.allgc;
  }

  lemma TobefnzSwept(w: World, w2: World)
    requires Intact(w) && w.phase == SwpTobefnz && SweepPhase(w) && SweepStepped(w, w2, ToBeFnz)
    requires w.blind == map[] || w.sweepgc == NoCursor
    requires w2.phase == SwpTobefnz || (w2.phase == SwpEnd && w2.sweepgc == NoCursor)
    requires w.sweepgc == NoCursor ==> w2.phase == SwpEnd
    ensures SweepPhase(w2)
  {
    assert w2.allgc == w.allgc by { assert ListOf(w2, AllGc) == ListOf(w, AllGc); }
    CurrentKept(w, w2, w.allgc);
    CurrentKept(w, w2, w.finobj);
  }

  /** Where the sweep of `tobefnz` is. */
  lemma HoldingTobefnz(w: World)
    requires Intact(w) && SweepPhase(w) && w.phase == SwpTobefnz
    ensures var which := HoldingList(w.allgc, w.finobj, w.sweepgc, ToBeFnz);
      && which != FinObj && SweptTo(w, which, w.sweepgc)
      && (which == AllGc ==> Astray(w))
      && (which == ToBeFnz ==> w.blind == map[] || w.sweepgc == NoCursor)
  {
    if w.sweepgc == NoCursor {
      assert w.tobefnz[..|w.tobefnz|] == w.tobefnz;
    } else if Astray(w) {
      HoldingPhase(w, AllGc);
    } else {
      HoldingPhase(w, ToBeFnz);
    }
  }

  lemma EndStepped(w: World, w2: World, X: iset<Obj>)
    requires Loose(w, X) && w.phase == SwpEnd && Intact(w2) && Sweeps(w, w2)
    requires w2.phase == CallFin && w2.sweepgc == NoCursor && w2.allgc == w.allgc
    requires Current(w2, [w2.mainthread])
    requires forall o :: o in w.color && o != w.mainthread ==> o in w2.color && w2.color[o] == w.color[o]
    ensures Loose(w2, X) && Steps(w, w2) && Collects(w, w2) && Thins(w, w2) && w2.tobefnz == w.tobefnz
  {
    LooseOut(w, X);
    CurrentKept(w, w2, w.allgc);
    CurrentKept(w, w2, w.finobj);
    CurrentKept(w, w2, w.tobefnz);
    SweptBlind(w, w2);
    SweptValid(w, w2, X);
    SweepsThins(w, w2);
    SweepsCollects(w, w2);
  }

  lemma MainAlive(w: World)
    requires Intact(w)
    ensures w.mainthread in Alive(w) && w.mainthread !in w.fixedgc && w.mainthread in w.color
  {
    IntactOut(w);
  }

  lemma Paused(w: World, X: iset<Obj>)
    requires Loose(w, X) && w.phase == CallFin
    ensures Loose(w.(phase := Pause), X) && Allocated(w.color) <= X
    ensures Collects(w, w.(phase := Pause)) && Thins(w, w.(phase := Pause))
  {
    LooseOut(w, X);
    var w2 := w.(phase := Pause);
    AllKept(w, X);
    IntactMoved(w, w2);
    MovedSweeps(w, w2);
    SweptBlind(w, w2);
    PausedSwept(w, w2);
    PausedKept(w, X);
    LooseSweep(w2, X);
    SweepsThins(w, w2);
    SweepsCollects(w, w2);
  }

  lemma PausedKept(w: World, X: iset<Obj>)
    requires Kept(w, X)
    ensures Kept(w.(phase := Pause), X)
  {
  }

  lemma PausedSwept(w: World, w2: World)
    requires w.phase == CallFin && SweepPhase(w) && w2 == w.(phase := Pause)
    ensures SweepPhase(w2)
  {
  }

  lemma SameHeapCollects(w: World, w2: World)
    requires w2.heap == w.heap && w2.mainthread == w.mainthread && w2.running == w.running
    requires w2.registry == w.registry && w2.mt == w.mt && w2.fixedgc == w.fixedgc
    ensures Collects(w, w2)
  {
    TrimmedSelf(w.heap);
    TidiedCleaned(w.heap, w2.heap, Reached(w));
    CleanedCollects(w, w2);
  }

  // ----- whole collections -----

  predicate Finishing(p: Phase) { SweepingPhase(p) || p == CallFin }

  /** From `w` to `w2` dead objects were freed and finalizers called; the roots and the
      objects that are not dead are as they were. */
  ghost predicate Thins(w: World, w2: World) {
    && w2.mainthread == w.mainthread && w2.running == w.running && w2.registry == w.registry
    && w2.mt == w.mt && w2.fixedgc == w.fixedgc && w2.finobj == w.finobj && w2.white == w.white
    && forall k :: Key(k) ==> ThinsKeyed(w, w2)
  }

  ghost predicate ThinsKeyed(w: World, w2: World) {
    && Alive(w2) == Alive(w) && w2.heap.ups == w.heap.ups
    && (forall o :: o in w2.heap.objs ==> o in w.heap.objs && w2.heap.objs[o] == w.heap.objs[o])
    && (forall o :: o in w.heap.objs && o in Alive(w) ==> o in w2.heap.objs)
    && (forall o :: o in w2.tobefnz ==> o in w.tobefnz)
  }

  lemma ThinsOut(w: World, w2: World)
    requires Thins(w, w2)
    ensures ThinsKeyed(w, w2)
  {
    assert Key(0);
  }

  lemma ThinsTransitive(w: World, w1: World, w2: World)
    requires Thins(w, w1) && Thins(w1, w2)
    ensures Thins(w, w2)
  {
    ThinsOut(w, w1);
    ThinsOut(w1, w2);
  }

  lemma SweepsThins(w: World, w2: World)
    requires Sweeps(w, w2)
    ensures Thins(w, w2)
  {
    SweepsOut(w, w2);
  }

  /** If nothing was dead, nothing was freed. */
  lemma ThinsNothing(w: World, w2: World)
    requires Thins(w, w2) && w.color.Keys == w.heap.objs.Keys && Alive(w) == Allocated(w.color)
    ensures w2.heap == w.heap
  {
    ThinsOut(w, w2);
    assert w2.heap.objs == w.heap.objs by {
      forall o | o in w.heap.objs ensures o in w2.heap.objs { assert o in Allocated(w.color); }
    }
  }

  /** What was to be kept at most, still is. */
  lemma KeptThinned(w: World, w2: World, X: iset<Obj>)
    requires Kept(w, X) && Thins(w, w2) && Sealed(w2) && Alive(w2) == Allocated(w2.color)
    requires w.blind == map[] && w2.blind == map[]
    ensures Kept(w2, X)
  {
    ThinsOut(w, w2);
    forall o | o in w2.heap.objs && o in X ensures StrongIn(w2.heap, X, o, true) {
      assert StrongIn(w.heap, X, o, true);
      assert o in Alive(w2) && RefsIn(w2.heap, Alive(w2), o);
      StrongThinned(w, w2, X, o);
    }
  }

  lemma StrongThinned(w: World, w2: World, X: iset<Obj>, o: Obj)
    requires ThinsKeyed(w, w2) && o in w2.heap.objs && o in w.heap.objs && StrongIn(w.heap, X, o, true)
    requires In(Allocated(w2.color), w2.heap.objs[o].meta) && w2.color.Keys == w2.heap.objs.Keys
    ensures StrongIn(w2.heap, X, o, true)
  {
    var r, m := w.heap.objs[o], TableMode(w.heap, o);
    assert TableMode(w2.heap, o) == m;
    UpsSame(w.heap, w2.heap, X, r.ups);
    forall i | 0 <= i < |r.nodes| && r.kind == Table ensures EntryIn(w2.heap, X, m, r.nodes[i], true) {
      assert EntryIn(w.heap, X, m, r.nodes[i], true);
      assert IsStr(w2.heap, r.nodes[i].key) ==> IsStr(w.heap, r.nodes[i].key);
      assert IsStr(w2.heap, r.nodes[i].val) ==> IsStr(w.heap, r.nodes[i].val);
    }
    forall i | 0 <= i < |r.slots| && r.kind == Table && (m == WeakValues || m == AllWeak)
      ensures WeakIn(w2.heap, X, r.slots[i], true)
    {
      assert WeakIn(w.heap, X, r.slots[i], true);
      assert IsStr(w2.heap, r.slots[i]) ==> IsStr(w.heap, r.slots[i]);
    }
  }

  /** What is reachable without the objects to be finalized stays so. */
  lemma ReachedThinned(w: World, w2: World)
    requires Intact(w) && Thins(w, w2) && w.blind == map[] && w2.blind == map[] && w2.stale == {}
    ensures Reached(w.(tobefnz := [], stale := {})) <= Reached(w2)
  {
    IntactOut(w);
    ThinsOut(w, w2);
    var w0 := w.(tobefnz := [], stale := {});
    forall o | o in Reached(w0) ensures Reachable(w2, o) {
      forall S: iset<Obj> | Encloses(w2, S) ensures o in S {
        ThinnedClosed(w, w2, S);
        var S2 := S * Alive(w);
        assert Rooted(w0, S2);
        assert ClosedApart(w0, S2);
        assert Encloses(w0, S2);
        assert o in S2;
      }
    }
  }

  lemma ThinnedClosed(w: World, w2: World, S: iset<Obj>)
    requires Sealed(w) && ThinsKeyed(w, w2) && ClosedApart(w2, S)
    requires w.blind == map[] && w2.blind == map[] && w2.stale == {}
    ensures Closed(w.heap, S * Alive(w), false)
  {
    forall o | o in w.heap.objs && o in S * Alive(w) ensures StrongIn(w.heap, S * Alive(w), o, false) {
      ThinnedStrong(w, w2, S, o, false);
    }
  }

  lemma ThinnedStrong(w: World, w2: World, S: iset<Obj>, o: Obj, strs: bool)
    requires ThinsKeyed(w, w2) && o in w.heap.objs && o in Alive(w) && RefsIn(w.heap, Alive(w), o)
    requires w.color.Keys == w.heap.objs.Keys
    requires o in w2.heap.objs && StrongIn(w2.heap, S, o, strs)
    ensures StrongIn(w.heap, S * Alive(w), o, strs)
  {
    var S2, r, m := S * Alive(w), w.heap.objs[o], TableMode(w.heap, o);
    assert w2.heap.objs[o] == r && TableMode(w2.heap, o) == m;
    forall i | 0 <= i < |r.ups| ensures In(S2, Up(w.heap, r.ups[i])) {
      assert In(S, Up(w2.heap, r.ups[i])) && In(Alive(w), Up(w.heap, r.ups[i]));
    }
    forall i | 0 <= i < |r.nodes| && r.kind == Table ensures EntryIn(w.heap, S2, m, r.nodes[i], strs) {
      assert EntryIn(w2.heap, S, m, r.nodes[i], strs);
      assert In(Alive(w), r.nodes[i].key) && In(Alive(w), r.nodes[i].val);
    }
    forall i | 0 <= i < |r.slots| && r.kind == Table && (m == WeakValues || m == AllWeak)
      ensures WeakIn(w.heap, S2, r.slots[i], strs)
    {
      assert WeakIn(w2.heap, S, r.slots[i], strs) && In(Alive(w), r.slots[i]);
    }
  }

  /** What is reachable stays so, and what marking comes to does not change. */
  ghost predicate Continues(w: World, w2: World) {
    && Reached(w) <= Reached(w2) && Marks(w) <= Marks(w2) && SameStrings(w, w2)
    && w2.finobj == w.finobj && w2.tobefnz == w.tobefnz && Drawn(w2) == Drawn(w)
  }

  /** Up to the atomic step, what is reachable stays reachable; the atomic step marks it, and
      parts the objects with finalizers. */
  ghost predicate Holds(w: World, w2: World) {
    if Finishing(w2.phase) then Reached(w) <= Alive(w2) && SparedAlive(w, w2) && Parted(w, w2)
    else Continues(w, w2)
  }

  lemma HoldsOn(w: World, w1: World, w2: World)
    requires Continues(w, w1) && Holds(w1, w2)
    ensures Holds(w, w2)
  {
    if Finishing(w2.phase) {
      forall o | o in Marks(w) && !IsStr(w.heap, Ref(o)) ensures o in Alive(w2) {
        assert !IsStr(w1.heap, Ref(o));
      }
    } else {
      forall o ensures IsStr(w2.heap, Ref(o)) == IsStr(w.heap, Ref(o)) {
        assert IsStr(w1.heap, Ref(o)) == IsStr(w.heap, Ref(o));
      }
    }
  }

  /** In an emergency no finalizer is called. */
  ghost predicate StillWait(w: World, w2: World) {
    w.emergency ==> forall o :: o in w.tobefnz ==> o in w2.tobefnz
  }

  /** How many finalizers are called next. */
  function Due(w: World): (n: nat)
    ensures n <= |w.tobefnz|
  {
    if |w.tobefnz| < w.gcfinnum then |w.tobefnz| else w.gcfinnum
  }

  /** After the sweep finalizers are called, the next ones that are due, until none is left;
      until then all wait. */
  ghost predicate Served(w: World, w2: World) {
    if w.phase != CallFin then w2.tobefnz == w.tobefnz
    else if w.tobefnz == [] || w.emergency then w2.phase == Pause && w2.tobefnz == w.tobefnz
    else w2.phase == CallFin && w2.tobefnz == w.tobefnz[Due(w)..]
  }

  /** What one step of the collector may do. */
  ghost predicate StepOk(w: World, w2: World, X: iset<Obj>) {
    && Steps(w, w2) && Collects(w, w2) && w2.emergency == w.emergency && w2.blind == w.blind
    && StillWait(w, w2) && (Finishing(w.phase) ==> Served(w, w2))
    && (if Finishing(w.phase) then Thins(w, w2) else Holds(w, w2))
    && (w2.phase == Pause ==> Allocated(w2.color) <= X)
  }

  lemma FinalizedThins(w: World, w2: World, n: nat)
    requires w2.heap == w.heap && w2.mainthread == w.mainthread && w2.running == w.running
    requires w2.registry == w.registry && w2.mt == w.mt && w2.fixedgc == w.fixedgc
    requires w2.finobj == w.finobj && w2.white == w.white && w2.color == w.color && w2.blind == w.blind
    requires n <= |w.tobefnz| && w2.tobefnz == w.tobefnz[n..]
    ensures Thins(w, w2) && Collects(w, w2)
  {
    assert Alive(w2) == Alive(w);
    assert forall o :: o in w2.tobefnz ==> o in w.tobefnz;
    SameHeapCollects(w, w2);
  }

  lemma PauseStepOk(w: World, w1: World, X: iset<Obj>)
    requires w.phase == Pause && Spread(Emptied(w), w1) && Marked(w1.color) <= Drawn(w)
    ensures StepOk(w, w1.(phase := Propagate), X)
  {
    EmptiedCollects(w, w1);
  }

  lemma PropagateStepOk(w: World, w1: World, w2: World, X: iset<Obj>)
    requires w.phase == Propagate && Advance(w, w1) && Work(w1) < Work(w)
    requires w2 == w1.(phase := if w1.gray == [] then Atomic else Propagate)
    requires Marked(w1.color) <= Drawn(w)
    ensures StepOk(w, w2, X)
  {
    PropagatedSteps(w, w1, w2);
    assert !Finishing(w.phase) && !Finishing(w2.phase);
    assert Holds(w, w2);
  }

  lemma FinalizedStepOk(w: World, w2: World, n: nat, X: iset<Obj>)
    requires w.phase == CallFin && w2.phase == CallFin && w2.emergency == w.emergency && !w.emergency
    requires w2.heap == w.heap && w2.mainthread == w.mainthread && w2.running == w.running
    requires w2.registry == w.registry && w2.mt == w.mt && w2.fixedgc == w.fixedgc
    requires w2.finobj == w.finobj && w2.white == w.white && w2.color == w.color && w2.blind == w.blind
    requires 0 < n == Due(w) && w2.tobefnz == w.tobefnz[n..]
    ensures StepOk(w, w2, X)
  {
    FinalizedThins(w, w2, n);
  }

  lemma PausedStepOk(w: World, X: iset<Obj>)
    requires Loose(w, X) && w.phase == CallFin && (w.tobefnz == [] || w.emergency)
    ensures Loose(w.(phase := Pause), X) && StepOk(w, w.(phase := Pause), X)
  {
    LooseOut(w, X);
    Paused(w, X);
  }

  /** The phases in the order the collection goes through them. */
  function Rank(p: Phase): nat {
    match p
    case Propagate => 0
    case Atomic => 1
    case SwpAllgc => 2
    case SwpFinobj => 3
    case SwpTobefnz => 4
    case SwpEnd => 5
    case CallFin => 6
    case Pause => 7
    case InsideAtomic => 8
  }

  /** How many phases lie before `t`. */
  function Ahead(p: Phase, t: Phase): int {
    if Rank(t) >= Rank(p) then Rank(t) - Rank(p) else Rank(t) + 8 - Rank(p)
  }

  /** What several steps up to a phase of `mask` amount to. */
  ghost predicate RunOk(w: World, w2: World, mask: set<Phase>) {
    && w2.emergency == w.emergency && w2.blind == w.blind
    && forall k :: Key(k) ==> RunKeyed(w, w2, mask)
  }

  lemma RunOut(w: World, w2: World, mask: set<Phase>)
    requires RunOk(w, w2, mask)
    ensures RunKeyed(w, w2, mask)
  {
    assert Key(0);
  }

  /** Where a run from phase `p0` may be before it gets to a phase of `mask`. */
  predicate OnTheWay(p0: Phase, p: Phase, mask: set<Phase>) {
    && (Finishing(p0) && (mask == {Pause} || mask == {CallFin}) ==> Finishing(p) || p in mask)
    && (!Finishing(p0) && mask == {SwpFinobj} ==> !Finishing(p) || p == SwpAllgc || p == SwpFinobj)
  }

  /** A run that does not go on sweeping behind what was missed before. */
  ghost predicate MayRun(w: World, mask: set<Phase>) {
    w.blind == map[] || SwpFinobj in mask || (mask == {Pause} && Rank(w.phase) > Rank(SwpFinobj))
  }

  ghost predicate RunKeyed(w: World, w2: World, mask: set<Phase>) {
    && StillWait(w, w2)
    && (Finishing(w.phase) && (mask == {Pause} || mask == {CallFin}) ==> Thins(w, w2))
    && (!Finishing(w.phase) && (CallFin in mask || mask == {SwpFinobj}) ==> Holds(w, w2))
    && (Finishing(w.phase) ==> Queues(w, w2, mask))
  }

  /** Up to the calls of finalizers all wait; at the pause none waits any more, but for an
      emergency. */
  ghost predicate Queues(w: World, w2: World, mask: set<Phase>) {
    && (mask == {CallFin} || (mask == {Pause} && w.emergency) ==> w2.tobefnz == w.tobefnz)
    && (mask == {Pause} && !w.emergency && w2.phase == Pause ==> w2.tobefnz == [])
  }

  lemma RunStays(w: World, w1: World, w2: World)
    requires StillWait(w, w1) && StillWait(w1, w2) && w1.emergency == w.emergency
    ensures StillWait(w, w2)
  {
  }

  lemma RunStep(w: World, w1: World, w2: World, mask: set<Phase>, X: iset<Obj>)
    requires RunOk(w, w1, mask) && StepOk(w1, w2, X) && w1.phase !in mask && w1.phase != InsideAtomic
    requires OnTheWay(w.phase, w1.phase, mask) && MayRun(w1, mask)
    ensures RunOk(w, w2, mask) && OnTheWay(w.phase, w2.phase, mask) && MayRun(w2, mask)
  {
    RunOut(w, w1, mask);
    RunStays(w, w1, w2);
    if Finishing(w.phase) && (mask == {Pause} || mask == {CallFin}) { ThinsTransitive(w, w1, w2); }
    if !Finishing(w.phase) && (CallFin in mask || mask == {SwpFinobj}) {
      if Finishing(w1.phase) { ThinsOut(w1, w2); } else { HoldsOn(w, w1, w2); }
    }
    if Finishing(w.phase) { RunQueues(w, w1, w2, mask, X); }
  }

  lemma RunQueues(w: World, w1: World, w2: World, mask: set<Phase>, X: iset<Obj>)
    requires Finishing(w.phase) && Queues(w, w1, mask) && StepOk(w1, w2, X) && w1.phase !in mask
    requires OnTheWay(w.phase, w1.phase, mask) && w1.emergency == w.emergency
    ensures Queues(w, w2, mask)
  {
  }

  lemma NoRun(w: World, mask: set<Phase>)
    ensures RunOk(w, w, mask)
  {
  }

  lemma StepDecreases(w: World, w2: World, t: Phase, X: iset<Obj>)
    requires Loose(w, X) && StepOk(w, w2, X) && w.phase != t && t != InsideAtomic
    ensures Left(w) >= 0 && 0 <= Ahead(w2.phase, t) <= Ahead(w.phase, t)
    ensures Ahead(w2.phase, t) == Ahead(w.phase, t) ==> Left(w2) < Left(w)
  {
    LooseOut(w, X);
    assert Steps(w, w2);
  }

  // ----- a full collection -----

  predicate Anything(o: Obj) { true }

  ghost function Everything(): iset<Obj> { iset o | Anything(o) }

  lemma EverythingKept(w: World)
    ensures Kept(w, Everything())
  {
    forall o | o in w.heap.objs ensures StrongIn(w.heap, Everything(), o, true) {
    }
  }

  lemma ValidMark(w: World)
    requires Intact(w) && w.blind == map[] && StaleMarked(w)
    requires MarkingPhase(w.phase) && MarkPhase(w, Everything())
    ensures Valid(w, Everything())
  {
    LooseMark(w, Everything());
  }

  lemma ValidSweep(w: World)
    requires Intact(w) && w.blind == map[] && w.stale == {} && !MarkingPhase(w.phase) && SweepPhase(w)
    ensures Valid(w, Everything())
  {
    EverythingKept(w);
    LooseSweep(w, Everything());
  }

  lemma NoneStale(w: World, X: iset<Obj>)
    requires Loose(w, X) && !MarkingPhase(w.phase)
    ensures w.stale == {} && StaleMarked(w)
  {
    LooseOut(w, X);
  }

  lemma EverythingClosed(w: World)
    ensures ClosedBut(w.heap, w.stale, w.blind, Everything()) && Marked(w.color) <= Everything()
  {
    forall o | o in w.heap.objs
      ensures StrongIn(w.heap, Everything(), o, true) && StringsIn(w.heap, Everything(), o)
    {
    }
  }

  lemma PauseValid(w: World, X: iset<Obj>, Y: iset<Obj>)
    requires Loose(w, X) && w.phase == Pause && Kept(w, Y)
    ensures Loose(w, Y)
  {
    LooseOut(w, X);
    LooseSweep(w, Y);
  }

  lemma NothingDead(w: World, X: iset<Obj>)
    requires Loose(w, X) && MarkingPhase(w.phase)
    ensures Alive(w) == Allocated(w.color) && w.sweepgc == NoCursor
  {
    LooseOut(w, X);
    MarkPhaseOut(w, X);
  }

  lemma PauseAlive(w: World, X: iset<Obj>)
    requires Loose(w, X) && w.phase == Pause
    ensures Alive(w) == Allocated(w.color) && Sealed(w)
    ensures forall o :: o in w.color && o !in w.fixedgc && o !in w.blind ==> w.color[o] == White(w.white)
  {
    LooseOut(w, X);
    IntactOut(w);
    PauseColors(w);
  }

  lemma PauseMarked(w: World)
    requires Loose(w, Everything()) && w.phase == Pause
    ensures w.stale == {} && forall o :: o in Marked(w.color) <==> o in w.fixedgc || o in w.blind
  {
    LooseOut(w, Everything());
    PauseAlive(w, Everything());
    assert WellFormed(w) by { IntactOut(w); }
    forall o | o in w.blind ensures o in Marked(w.color) { assert KeptBlind(w, o); }
  }

  /** A collection in three runs. */
  lemma CycleKeeps(w1: World, w2: World, w3: World, w4: World, mask: set<Phase>)
    requires w1.phase == Pause && CallFin in mask && RunOk(w1, w2, mask)
    requires RunOk(w2, w3, {CallFin}) && w3.phase == CallFin && RunOk(w3, w4, {Pause}) && w4.phase == Pause
    ensures Reached(w1) <= Allocated(w4.color) && SparedAlive(w1, w4) && Ended(w1, w4)
  {
    RunOut(w1, w2, mask);
    RunOut(w2, w3, {CallFin});
    RunOut(w3, w4, {Pause});
    ThinsOut(w3, w4);
    if Finishing(w2.phase) { ThinsOut(w2, w3); } else { HoldsOn(w1, w2, w3); }
  }

  /** At the end of a collection the objects with finalizers are those that the program can
      get at; the finalizers of the others have been called, or wait if this is an
      emergency. */
  ghost predicate Ended(w: World, w2: World) {
    && w2.finobj == Within(w.finobj, Drawn(w))
    && w2.tobefnz == if w.emergency then w.tobefnz + Outside(w.finobj, Drawn(w)) else []
  }

  lemma PauseFor(w0: World, w: World, X: iset<Obj>)
    requires Kept(w0, X) && Thins(w0, w) && Valid(w, Everything()) && w.phase == Pause && w0.blind == map[]
    ensures Valid(w, X)
  {
    LooseOut(w, Everything());
    assert Alive(w) == Allocated(w.color) && Sealed(w) by { PauseAlive(w, Everything()); }
    KeptThinned(w0, w, X);
    PauseValid(w, Everything(), X);
  }

  lemma PauseForAll(w: World, X: iset<Obj>)
    requires Valid(w, X) && w.phase == Pause
    ensures Valid(w, Everything())
  {
    LooseOut(w, X);
    EverythingKept(w);
    PauseValid(w, X, Everything());
  }

  lemma SameReached(w: World, w2: World)
    requires w2.heap == w.heap && w2 == w.(emergency := w2.emergency)
    ensures Reached(w2) == Reached(w)
  {
    assert forall S: iset<Obj> :: Encloses(w2, S) <==> Encloses(w, S);
  }

  // ----- a sweep gone astray -----

  /** The list that place `p` is in; `phase` is the list swept when there is none. */
  function HoldingList(allgc: seq<Obj>, finobj: seq<Obj>, p: Cursor, phase: List): List {
    match p
    case NoCursor => phase
    case Header(l) => l
    case NextOf(o) => if o in allgc then AllGc else if o in finobj then FinObj else ToBeFnz
  }

  /** As long as the invariant holds, the sweep is in the list its phase is about. */
  lemma HoldingPhase(w: World, which: List)
    requires Intact(w) && SweptTo(w, which, w.sweepgc)
    ensures HoldingList(w.allgc, w.finobj, w.sweepgc, which) == which
  {
    IntactOut(w);
    if w.sweepgc.NextOf? { OnlyIn(w, which, w.sweepgc.o); }
  }

  lemma OnlyIn(w: World, which: List, o: Obj)
    requires Owned(w) && o in ListOf(w, which)
    ensures which != AllGc ==> o !in w.allgc
    ensures which != FinObj ==> o !in w.finobj
  {
    assert Owners(w)[o] <= 1;
  }
}
