/** An object whose metatable has a finalizer moves to the list of such objects; and which
    of them a full collection finalizes. */
module GcFinalizers {
  import opened Prelude
  import opened GcHeap
  import opened GcWorld
  import opened GcLimits
  import opened GcVisit
  import opened GcAtomic
  import opened GcState
  import opened GcPhases
  import opened GcSteps

  function Cut(l: seq<Obj>, i: nat): seq<Obj>
    requires i < |l|
  {
    l[..i] + l[i + 1..]
  }

  ghost function MovedOut(w: World, i: nat): World
    requires i < |w.allgc|
  {
    w.(allgc := Cut(w.allgc, i), finobj := [w.allgc[i]] + w.finobj, fin := w.fin + {w.allgc[i]})
  }

  /** The sweep does not stand behind object `o`; during the sweep `o` has been swept. */
  ghost predicate Movable(w: World, o: Obj) {
    && o in Alive(w) && w.sweepgc != NextOf(o)
    && (SweepingPhase(w.phase) ==> Current(w, [o]))
  }

  lemma MovedOutValid(w: World, i: nat, X: iset<Obj>)
    requires Valid(w, X) && i < |w.allgc| && Movable(w, w.allgc[i]) && X == Everything()
    requires w.allgc[i] in w.heap.objs && w.heap.objs[w.allgc[i]].kind != Str
    ensures Valid(MovedOut(w, i), X)
  {
    LooseOut(w, X);
    var w2 := MovedOut(w, i);
    MovedOutIntact(w, i);
    if MarkingPhase(w.phase) {
      assert SameMarks(w, w2);
      OwnersChanged(w, w2, [], X);
      MarkPhaseOut(w, X);
      GraySame(w, w2);
      assert Alive(w2) == Alive(w);
      assert MarkPhaseKeyed(w2, X);
      ValidMark(w2);
    } else {
      MovedOutSweep(w, i);
      ValidSweep(w2);
    }
  }

  lemma MovedOutIntact(w: World, i: nat)
    requires Intact(w) && i < |w.allgc| && w.allgc[i] in Alive(w)
    requires w.allgc[i] in w.heap.objs && w.heap.objs[w.allgc[i]].kind != Str
    ensures Intact(MovedOut(w, i))
  {
    IntactOut(w);
    MovedOutOwned(w, i);
    MovedOutFormed(w, i);
    MovedOutSealed(w, i);
  }

  lemma MovedOutFormed(w: World, i: nat)
    requires WellFormed(w) && i < |w.allgc|
    requires w.allgc[i] in w.heap.objs && w.heap.objs[w.allgc[i]].kind != Str
    ensures WellFormed(MovedOut(w, i))
  {
  }

  lemma MovedOutOwned(w: World, i: nat)
    requires Owned(w) && i < |w.allgc|
    ensures Owned(MovedOut(w, i)) && w.allgc[i] !in w.finobj && w.allgc[i] !in Cut(w.allgc, i)
  {
    var w2, o := MovedOut(w, i), w.allgc[i];
    assert w.allgc == w.allgc[..i] + [o] + w.allgc[i + 1..];
    assert multiset(w.allgc) == multiset(w2.allgc) + multiset{o};
    assert multiset([o] + w.finobj) == multiset{o} + multiset(w.finobj);
    assert Owners(w)[o] <= 1;
    assert forall p :: Owners(w2)[p] == Owners(w)[p];
  }

  lemma MovedOutSealed(w: World, i: nat)
    requires Sealed(w) && i < |w.allgc| && w.allgc[i] in Alive(w)
    ensures Sealed(MovedOut(w, i))
  {
    var w2 := MovedOut(w, i);
    assert Alive(w2) == Alive(w);
    forall p | p in w2.heap.objs && p in Alive(w2) && p !in w2.blind ensures RefsIn(w2.heap, Alive(w2), p) {
      assert RefsIn(w.heap, Alive(w), p);
    }
  }

  lemma MovedOutSweep(w: World, i: nat)
    requires Intact(w) && SweepPhase(w) && i < |w.allgc| && Movable(w, w.allgc[i]) && w.blind == map[]
    ensures SweepPhase(MovedOut(w, i))
  {
    var w2, o := MovedOut(w, i), w.allgc[i];
    assert o !in w.finobj by { IntactOut(w); MovedOutOwned(w, i); }
    match w.phase
    case SwpAllgc => CutSwept(w, i);
    case SwpFinobj => CutCurrent(w, i); PushedSwept(w, w2, o, FinObj);
    case SwpTobefnz =>
      CutCurrent(w, i);
      PushedFinobj(w, i);
      if Astray(w) {
        CutSwept(w, i);
        CurrentAlong(w, w2, w.tobefnz);
      } else {
        SameSwept(w, w2, ToBeFnz);
      }
    case SwpEnd => CutAllSwept(w, i);
    case CallFin => CutAllSwept(w, i); CurrentAlong(w, w2, [w.mainthread]);
    case Pause => CutAllSwept(w, i); CurrentAlong(w, w2, [w.mainthread]);
  }

  lemma CutCurrent(w: World, i: nat)
    requires i < |w.allgc| && Current(w, w.allgc)
    ensures Current(MovedOut(w, i), Cut(w.allgc, i))
  {
    assert forall p :: p in Cut(w.allgc, i) ==> p in w.allgc;
  }

  lemma PushedFinobj(w: World, i: nat)
    requires i < |w.allgc| && Current(w, w.finobj) && Current(w, [w.allgc[i]])
    ensures Current(MovedOut(w, i), [w.allgc[i]] + w.finobj)
  {
    assert w.allgc[i] in [w.allgc[i]];
  }

  lemma CutAllSwept(w: World, i: nat)
    requires i < |w.allgc| && AllSwept(w)
    ensures AllSwept(MovedOut(w, i))
  {
    var w2 := MovedOut(w, i);
    CutCurrent(w, i);
    assert w.allgc[i] in w.allgc;
    PushedFinobj(w, i);
    CurrentAlong(w, w2, w.tobefnz);
  }

  lemma CutTail(l: seq<Obj>, i: nat)
    requires 0 < i < |l|
    ensures Cut(l, i)[0] == l[0] && Cut(l, i)[1..] == Cut(l[1..], i - 1)
  {
    assert l[..i][1..] == l[1..][..i - 1];
    assert l[1..][i..] == l[i + 1..];
  }

  /** Where an object is found after another was taken out of the list. */
  lemma {:induction false} IndexCut(l: seq<Obj>, i: nat, q: Obj)
    requires i < |l| && q in l && q != l[i]
    ensures q in Cut(l, i)
    ensures IndexOf(Cut(l, i), q) == if IndexOf(l, q) < i then IndexOf(l, q) else IndexOf(l, q) - 1
  {
    var m := Cut(l, i);
    if i == 0 {
      assert m == l[1..];
    } else {
      CutTail(l, i);
      if l[0] != q { IndexCut(l[1..], i - 1, q); }
    }
  }

  lemma CutSwept(w: World, i: nat)
    requires SweptTo(w, AllGc, w.sweepgc) && i < |w.allgc| && w.sweepgc != NextOf(w.allgc[i])
    ensures SweptTo(MovedOut(w, i), AllGc, w.sweepgc)
  {
    var w2, l := MovedOut(w, i), w.allgc;
    match w.sweepgc
    case NoCursor =>
      assert l[..|l|] == l;
      CutCurrent(w, i);
      assert w2.allgc[..|w2.allgc|] == w2.allgc;
    case Header(_) =>
    case NextOf(q) =>
      IndexCut(l, i, q);
      var k := IndexOf(l, q) + 1;
      CutPrefix(l, i, k);
      CurrentAlong(w, w2, l[..k]);
  }

  lemma CutPrefix(l: seq<Obj>, i: nat, k: nat)
    requires i < |l| && k <= |l|
    ensures forall o :: o in Cut(l, i)[..if k - 1 < i then k else k - 1] ==> o in l[..k]
  {
    var m := Cut(l, i);
    var n := if k - 1 < i then k else k - 1;
    if k <= i {
      assert m[..n] == l[..k];
    } else {
      assert m[..n] == l[..i] + l[i + 1..k];
      assert l[..k] == l[..i] + [l[i]] + l[i + 1..k];
    }
  }

  // ----- before the object is moved -----

  lemma OwnedByAllgc(w: World, o: Obj)
    requires Intact(w) && o in w.heap.objs && o != w.mainthread && o !in w.fixedgc && o !in w.fin
    ensures o in w.allgc
  {
    IntactOut(w);
    assert Owners(w)[o] == 1;
  }

  lemma InAllgc(w: World, o: Obj)
    requires Intact(w) && o in w.allgc
    ensures o !in w.finobj && o !in w.tobefnz && o !in w.fixedgc && o !in w.fin
    ensures o in w.heap.objs && o != w.mainthread && o in w.color
  {
    IntactOut(w);
    NotFixed(w, AllGc, o);
    assert Owners(w)[o] <= 1;
  }

  /** When the sweep stands behind an ordinary object, it is in `allgc`. */
  lemma BehindOrdinary(w: World, o: Obj)
    requires Intact(w) && SweepPhase(w) && o in w.allgc && w.sweepgc == NextOf(o)
    ensures w.phase == SwpAllgc || (w.phase == SwpTobefnz && Astray(w))
    ensures SweptTo(w, AllGc, w.sweepgc)
  {
    InAllgc(w, o);
  }

  /** Sweeping on in `allgc` from there keeps the invariant. */
  lemma SweptOn(w: World, w2: World)
    requires Valid(w, Everything()) && Intact(w2) && Sweeps(w, w2) && SweptTo(w2, AllGc, w2.sweepgc)
    requires SameOthers(w, w2, AllGc) && w2.phase == w.phase
    requires w.phase == SwpAllgc || (w.phase == SwpTobefnz && Astray(w))
    ensures Valid(w2, Everything())
  {
    LooseOut(w, Everything());
    if w.phase == SwpTobefnz { AstrayOn(w, w2); }
    ValidSweep(w2);
  }

  lemma AstrayOn(w: World, w2: World)
    requires Intact(w) && Intact(w2) && Sweeps(w, w2) && SweptTo(w2, AllGc, w2.sweepgc)
    requires SameOthers(w, w2, AllGc) && w2.phase == w.phase == SwpTobefnz && w.blind == map[]
    requires SweepPhase(w) && Astray(w)
    ensures SweepPhase(w2)
  {
    assert ListOf(w2, ToBeFnz) == ListOf(w, ToBeFnz) && ListOf(w2, FinObj) == ListOf(w, FinObj);
    CurrentKept(w, w2, w.finobj);
    CurrentKept(w, w2, w.tobefnz);
    CurrentKept(w, w2, w.allgc);
    assert SweptOnly(w, w2, AllGc) by { assert Key(0); }
    assert Current(w2, w2.allgc);
  }

  lemma WhitenedValid(w: World, o: Obj, w2: World)
    requires Valid(w, Everything()) && SweepingPhase(w.phase) && Intact(w2)
    requires o in w.color && w2 == w.(color := w.color[o := White(w.white)])
    ensures Valid(w2, Everything()) && Current(w2, [o])
  {
    LooseOut(w, Everything());
    RecoloredPhase(w, w2);
    ValidSweep(w2);
  }

  lemma RecoloredPhase(w: World, w2: World)
    requires SweepPhase(w) && KeepsCurrent(w, w2) && w2 == w.(color := w2.color)
    ensures SweepPhase(w2)
  {
    assert forall s :: Current(w, s) ==> Current(w2, s);
  }

  lemma StillOrdinary(w: World, w2: World, o: Obj)
    requires Intact(w) && o in w.allgc && o in Alive(w) && Current(w, [o])
    requires Intact(w2) && Sweeps(w, w2)
    ensures o in w2.allgc && o in Alive(w2) && Current(w2, [o])
  {
    InAllgc(w, o);
    SweepsOut(w, w2);
    CurrentKept(w, w2, [o]);
    OwnedByAllgc(w2, o);
  }

  /** Outside the sweep there is no place to go on sweeping. */
  lemma NoCursorElsewhere(w: World, o: Obj)
    requires Valid(w, Everything()) && !SweepingPhase(w.phase)
    ensures w.sweepgc != NextOf(o)
  {
    LooseOut(w, Everything());
  }

  // ----- what a full collection finalizes -----

  /** The state with the objects to be finalized that still wait when the new collection
      begins: in an emergency no finalizer is called, and between two collections none. */
  ghost function Waiting(w: World, isemergency: bool): World {
    w.(tobefnz := if isemergency || w.phase == Pause then w.tobefnz else [])
  }

  /** After the collection under way has been finished, the program can get at what it could
      get at before. */
  lemma HeldDrawn(w: World, w1: World)
    requires Intact(w) && w.blind == map[] && Thins(w, w1)
    requires Loose(w1, Everything()) && w1.phase == Pause && w1.blind == map[]
    ensures Drawn(w1) == Held(w.(tobefnz := w1.tobefnz))
  {
    var wq := w.(tobefnz := w1.tobefnz);
    PauseMarked(w1);
    assert Alive(w1) == Allocated(w1.color) && Sealed(w1) by { PauseAlive(w1, Everything()); }
    HeldGrips(wq);
    DrawnDraws(w1);
    ThinnedDraws(w, w1, Held(wq));
    ThinnedGrips(w, w1, Drawn(w1));
    forall o ensures o in Drawn(w1) <==> o in Held(wq) {
      if o in Drawn(w1) { assert InDrawn(w1, o); }
      if o in Held(wq) { assert InHeld(wq, o); }
    }
  }

  lemma ThinnedDraws(w: World, w1: World, X: iset<Obj>)
    requires Thins(w, w1) && Sealed(w1) && Alive(w1) == Allocated(w1.color) && w1.blind == map[] && w1.stale == {}
    requires forall o :: o in Marked(w1.color) <==> o in w1.fixedgc
    requires Grips(w.(tobefnz := w1.tobefnz), X)
    ensures Draws(w1, X)
  {
    ThinsOut(w, w1);
    forall o | o in w1.heap.objs && o in X ensures StrongIn(w1.heap, X, o, true) {
      assert StrongIn(w.heap, X, o, true);
      assert o in Alive(w1) && RefsIn(w1.heap, Alive(w1), o);
      StrongThinned(w, w1, X, o);
    }
  }

  lemma ThinnedGrips(w: World, w1: World, S: iset<Obj>)
    requires Intact(w) && w.blind == map[] && Thins(w, w1) && w1.blind == map[] && w1.stale == {}
    requires forall o :: o in Marked(w1.color) <==> o in w1.fixedgc
    requires Draws(w1, S)
    ensures Grips(w.(tobefnz := w1.tobefnz), S * Alive(w))
  {
    IntactOut(w);
    ThinsOut(w, w1);
    forall o | o in w.heap.objs && o in S * Alive(w) ensures StrongIn(w.heap, S * Alive(w), o, true) {
      assert StrongIn(w1.heap, S, o, true) && RefsIn(w.heap, Alive(w), o);
      ThinnedStrong(w, w1, S, o, true);
    }
    assert forall o :: o in w.fixedgc ==> o in Alive(w) && o in Marked(w1.color);
    assert Rooted(w, Alive(w)) && Rooted(w1, S);
  }

  lemma FinishedDrawn(w: World, w0: World, w1: World, isemergency: bool)
    requires Valid(w, Everything()) && w0 == w.(emergency := isemergency) && Thins(w0, w1)
    requires Valid(w1, Everything()) && w1.phase == Pause && w1.tobefnz == Waiting(w0, isemergency).tobefnz
    ensures Drawn(w1) == Held(Waiting(w, isemergency)) && w1.finobj == w.finobj
    ensures w1.tobefnz == Waiting(w, isemergency).tobefnz
  {
    LooseOut(w, Everything());
    ThinsOut(w0, w1);
    assert Alive(w0) == Alive(w);
    assert ThinsKeyed(w, w1);
    HeldDrawn(w, w1);
  }

  /** Who has a finalizer still to be called after a full collection: in an emergency all
      that had; else those that were not to be finalized yet and that the program can get
      at. */
  ghost predicate FinalizersCalled(w: World, w2: World, isemergency: bool) {
    var H := Held(Waiting(w, isemergency));
    && w2.finobj == Within(w.finobj, H)
    && w2.tobefnz == (if isemergency then w.tobefnz + Outside(w.finobj, H) else [])
    && forall o :: o in w.fin ==> (o in w2.fin <==> isemergency || (o in w.finobj && o in H))
  }

  lemma CalledNow(w: World, w1: World, w2: World, isemergency: bool)
    requires Valid(w, Everything()) && Valid(w2, Everything())
    requires w1.finobj == w.finobj && w1.emergency == isemergency
    requires w1.tobefnz == Waiting(w, isemergency).tobefnz && Drawn(w1) == Held(Waiting(w, isemergency))
    requires Ended(w1, w2)
    ensures FinalizersCalled(w, w2, isemergency)
  {
    LooseOut(w, Everything());
    LooseOut(w2, Everything());
    assert Owned(w) && Owned(w2) by { IntactOut(w); IntactOut(w2); }
    PartMembers(w.finobj, Held(Waiting(w, isemergency)));
  }
}
