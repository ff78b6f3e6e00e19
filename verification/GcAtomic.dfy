/** The stages of the atomic step, and what is reachable when it begins. */
module GcAtomic {
  import opened Prelude
  import opened GcHeap
  import opened GcWorld
  import opened GcLimits
  import opened GcVisit
  import opened GcClear

  // ----- reachability -----

  /** The objects strongly reachable from the roots, the values of ephemeron entries
      with a reachable key included: the least closed set. */
  ghost function Reached(w: World): iset<Obj> { iset o | Reachable(w, o) }

  ghost predicate Reachable(w: World, o: Obj) {
    forall S: iset<Obj> :: Encloses(w, S) ==> o in S
  }

  ghost predicate Encloses(w: World, S: iset<Obj>) {
    ClosedApart(w, S) && Rooted(w, S)
  }

  ghost predicate RootsOk(w: World, X: iset<Obj>) {
    Rooted(w, Allocated(w.color)) && Rooted(w, X)
  }

  /** What the atomic step needs besides the marking invariant. */
  ghost predicate Ready(w: World, X: iset<Obj>) {
    && RootsOk(w, X) && w.mainthread in Marked(w.color) && ListIn(Marked(w.color), w.tobefnz)
    && ListIn(Allocated(w.color), w.finobj) && ListIn(X, w.finobj)
    && ListIn(Allocated(w.color), w.strcache) && w.memerrmsg in Marked(w.color)
    && Finalizable(w.heap, w.finobj)
  }

  ghost predicate Finalizable(h: Heap, l: seq<Obj>) { forall o :: o in l ==> !IsStr(h, Ref(o)) }

  // ----- changing the bound -----

  /** The marking invariant holds for every bound there is. */
  lemma Rebound(w: World, todo: seq<Obj>, busy: iset<Obj>, X: iset<Obj>, Y: iset<Obj>)
    requires Marking(w, todo, busy, X) && Bounded(w, Y)
    ensures Marking(w, todo, busy, Y)
  {
    Unfold(w, todo, busy, X);
    assert MarkingKeyed(w, todo, busy, Y);
  }

  /** `X` bounds the marking as long as a smaller bound does. */
  lemma StillBounded(w: World, w2: World, X: iset<Obj>, Y: iset<Obj>, todo: seq<Obj>, busy: iset<Obj>)
    requires Bounded(w, X) && Trimmed(w.heap, w2.heap) && w2.stale == w.stale && w2.blind == w.blind
    requires Marking(w2, todo, busy, Y) && Y <= X
    ensures Marking(w2, todo, busy, X)
  {
    ClosedTrimmed(w.heap, w2.heap, w.stale, w.blind, X);
    MarkedInBound(w2, todo, busy, Y);
    Rebound(w2, todo, busy, Y, X);
  }

  /** For a bound that holds the roots, marking may as well be bounded by what the program
      can get at. */
  lemma BoundDrawn(w: World, todo: seq<Obj>, busy: iset<Obj>, X: iset<Obj>)
    requires Marking(w, todo, busy, X) && Rooted(w, X)
    ensures Marking(w, todo, busy, Drawn(w)) && Draws(w, Drawn(w)) && Drawn(w) <= X && Bounded(w, X)
  {
    Unfold(w, todo, busy, X);
    DrawnDraws(w);
    Rebound(w, todo, busy, X, Drawn(w));
    assert Draws(w, X);
    forall o | o in Drawn(w) ensures o in X { assert InDrawn(w, o); }
  }

  /** Marking within that bound does not change it. */
  lemma DrawnSame(w: World, w2: World)
    requires Tidied(w.heap, w2.heap) && w2.mainthread == w.mainthread && w2.running == w.running
    requires w2.registry == w.registry && w2.mt == w.mt && w2.tobefnz == w.tobefnz
    requires w2.stale == w.stale && w2.blind == w.blind
    requires Marked(w.color) <= Marked(w2.color) <= Drawn(w)
    ensures Drawn(w2) == Drawn(w)
  {
    DrawnDraws(w);
    DrawnDraws(w2);
    ClosedTrimmed(w.heap, w2.heap, w.stale, w.blind, Drawn(w));
    ButTidied(w.heap, w2.heap, w.stale, w.blind, Drawn(w2));
    assert Draws(w2, Drawn(w)) && Draws(w, Drawn(w2));
    forall o ensures o in Drawn(w) <==> o in Drawn(w2) {
      if o in Drawn(w) { assert InDrawn(w, o); }
      if o in Drawn(w2) { assert InDrawn(w2, o); }
    }
  }

  lemma MarkedInBound(w: World, todo: seq<Obj>, busy: iset<Obj>, X: iset<Obj>)
    requires Marking(w, todo, busy, X)
    ensures Marked(w.color) <= X
  {
    Unfold(w, todo, busy, X);
  }

  // ----- from one stage of the atomic step to the next -----

  /** Objects were marked and visited. */
  ghost predicate Progress(w: World, w2: World) {
    && w2 == w.(heap := w2.heap, color := w2.color, phase := w2.phase, gray := w2.gray,
                grayagain := w2.grayagain, weak := w2.weak, ephemeron := w2.ephemeron,
                allweak := w2.allweak)
    && forall k :: Key(k) ==> ProgressKeyed(w, w2)
  }

  ghost predicate ProgressKeyed(w: World, w2: World) {
    && Tidied(w.heap, w2.heap) && OnlyMarks(w.color, w2.color)
    && Marked(w.color) <= Marked(w2.color)
  }

  lemma ProgressOut(w: World, w2: World)
    requires Progress(w, w2)
    ensures ProgressKeyed(w, w2)
  {
    assert Key(0);
  }

  lemma ProgressTransitive(w: World, w1: World, w2: World)
    requires Progress(w, w1) && Progress(w1, w2)
    ensures Progress(w, w2)
  {
    ProgressOut(w, w1);
    ProgressOut(w1, w2);
    TidiedTransitive(w.heap, w1.heap, w2.heap);
  }

  lemma AdvanceProgress(w: World, w2: World)
    requires Advance(w, w2)
    ensures Progress(w, w2)
  {
    AdvanceOut(w, w2);
  }

  lemma SpreadProgress(w: World, w2: World)
    requires Spread(w, w2)
    ensures Progress(w, w2)
  {
    SpreadOut(w, w2);
  }

  /** Entering the atomic step: `grayagain` is saved for later. */
  lemma Entered(w: World, X: iset<Obj>)
    requires Marking(w, [], iset{}, X) && w.phase == Atomic
    ensures var w2 := w.(phase := InsideAtomic);
      Marking(w2, w.grayagain, iset{}, X) && Progress(w, w2)
  {
    var w2 := w.(phase := InsideAtomic);
    Unfold(w, [], iset{}, X);
    SameListings(w, [], w2, w.grayagain);
    SameTricolor(w, [], w2, w.grayagain);
    SoundSame(w, w2);
    assert MarkingKeyed(w2, w.grayagain, iset{}, X);
    TrimmedSelf(w.heap);
  }

  /** Taking up the saved list. */
  lemma Retaken(w: World, todo: seq<Obj>, X: iset<Obj>)
    requires Marking(w, todo, iset{}, X) && w.phase == InsideAtomic && w.gray == []
    ensures var w2 := w.(gray := todo);
      Marking(w2, [], iset{}, X) && Progress(w, w2)
  {
    var w2 := w.(gray := todo);
    Unfold(w, todo, iset{}, X);
    SameListings(w, todo, w2, []);
    SameTricolor(w, todo, w2, []);
    SoundSame(w, w2);
    assert MarkingKeyed(w2, [], iset{}, X);
    TrimmedSelf(w.heap);
  }

  lemma SameListings(w: World, todo: seq<Obj>, w2: World, todo2: seq<Obj>)
    requires Listed(w, todo) && w2 == w.(phase := InsideAtomic, gray := w2.gray)
    requires multiset(w2.gray) + multiset(todo2)
      == multiset(w.gray) + multiset(todo) + multiset(Again(w))
    ensures Listed(w2, todo2)
  {
    var L, L2 := Listings(w, todo), Listings(w2, todo2);
    assert L2 == L;
    forall p ensures L2[p] <= 1 && (L2[p] == 1 ==> ListedOk(w2, p)) {
      assert L[p] <= 1 && (L[p] == 1 ==> ListedOk(w, p));
    }
  }

  lemma SameTricolor(w: World, todo: seq<Obj>, w2: World, todo2: seq<Obj>)
    requires Tricolor(w, todo, iset{}) && w2 == w.(phase := InsideAtomic, gray := w2.gray)
    requires forall o :: Pending(w, todo, o) ==> Pending(w2, todo2, o)
    ensures Tricolor(w2, todo2, iset{})
  {
    TrimmedSelf(w.heap);
    forall p | p in w2.heap.objs && p in w2.color && !w2.color[p].White?
      && p !in iset{} && !Pending(w2, todo2, p)
      ensures Visited(w2, p)
    {
      assert !Pending(w, todo, p);
      VisitedGrows(w, w2, p);
    }
  }

  /** Emptying entries that are empty already does not make a set closed. */
  lemma StrongTidied(h: Heap, h2: Heap, S: iset<Obj>, o: Obj, strs: bool)
    requires Tidied(h, h2) && o in h.objs && StrongIn(h2, S, o, strs)
    ensures StrongIn(h, S, o, strs)
  {
    var r, r2 := h.objs[o], h2.objs[o];
    assert TidyRecord(r, r2) && RecordTrimmed(r, r2);
    TrimmedParts(h, h2, S, o);
    forall i | 0 <= i < |r.ups| ensures In(S, Up(h, r.ups[i])) { assert In(S, Up(h2, r2.ups[i])); }
    forall i | r.kind == Table && 0 <= i < |r.nodes|
      ensures EntryIn(h, S, TableMode(h, o), r.nodes[i], strs)
    {
      assert EntryIn(h2, S, TableMode(h, o), r2.nodes[i], strs);
      SameStr(h, h2, r.nodes[i].key);
      SameStr(h, h2, r.nodes[i].val);
    }
    forall i | 0 <= i < |r.slots| ensures IsStr(h2, r.slots[i]) == IsStr(h, r.slots[i]) {
      SameStr(h, h2, r.slots[i]);
    }
  }

  lemma StringsTidied(h: Heap, h2: Heap, S: iset<Obj>, o: Obj)
    requires Tidied(h, h2) && o in h.objs && StringsIn(h2, S, o)
    ensures StringsIn(h, S, o)
  {
    var r, r2 := h.objs[o], h2.objs[o];
    assert TidyRecord(r, r2) && RecordTrimmed(r, r2);
    forall i | 0 <= i < |r.nodes| ensures EntryIn(h, S, AllWeak, r.nodes[i], true) {
      assert EntryIn(h2, S, AllWeak, r2.nodes[i], true);
      SameStr(h, h2, r.nodes[i].key);
      SameStr(h, h2, r.nodes[i].val);
    }
    forall i | 0 <= i < |r.slots| ensures WeakIn(h, S, r.slots[i], true) {
      SameStr(h, h2, r.slots[i]);
    }
  }

  lemma ButTidied(h: Heap, h2: Heap, stale: set<Obj>, blind: map<Obj, Object>, S: iset<Obj>)
    requires Tidied(h, h2) && ClosedBut(h2, stale, blind, S)
    ensures ClosedBut(h, stale, blind, S)
  {
    forall o | o in h.objs && o in S && o !in blind
      ensures if o in stale then StringsIn(h, S, o) else StrongIn(h, S, o, true)
    {
      if o in stale { StringsTidied(h, h2, S, o); } else { StrongTidied(h, h2, S, o, true); }
    }
  }

  lemma ApartTidied(w: World, w2: World, S: iset<Obj>)
    requires Tidied(w.heap, w2.heap) && w2.stale == w.stale && w2.blind == w.blind && ClosedApart(w2, S)
    ensures ClosedApart(w, S)
  {
    forall o | o in w.heap.objs && o in S && o !in w.blind
      ensures if o in w.stale then In(S, w.heap.objs[o].meta) else StrongIn(w.heap, S, o, false)
    {
      assert RecordTrimmed(w.heap.objs[o], w2.heap.objs[o]);
      if o !in w.stale { StrongTidied(w.heap, w2.heap, S, o, false); }
    }
  }

  lemma StaleMarkedKept(w: World, w2: World)
    requires StaleMarked(w) && Trimmed(w.heap, w2.heap) && Marked(w.color) <= Marked(w2.color)
    requires w2.stale == w.stale
    ensures StaleMarked(w2)
  {
    forall t | t in w2.stale && t in w2.heap.objs ensures In(Marked(w2.color), w2.heap.objs[t].meta) {
      assert RecordTrimmed(w.heap.objs[t], w2.heap.objs[t]);
    }
  }

  /** Marking up to here has found everything reachable. */
  lemma ReachedMarked(w0: World, w: World, X: iset<Obj>)
    requires Progress(w0, w) && Marking(w, [], iset{}, X) && w.phase == InsideAtomic && w.gray == []
    requires EphemeronsSettled(w) && Rooted(w, Marked(w.color))
    ensures StaleMarked(w0) ==> Reached(w0) <= Marked(w.color)
  {
    if StaleMarked(w0) {
      ProgressOut(w0, w);
      StaleMarkedKept(w0, w);
      MarkedClosed(w, X);
      ApartTidied(w0, w, Marked(w.color));
      assert Encloses(w0, Marked(w.color));
    }
  }

  // ----- which tables can be cleared -----

  lemma ListsClearable(w: World, X: iset<Obj>)
    requires Marking(w, [], iset{}, X) && w.phase == InsideAtomic && w.gray == []
    ensures AllClearable(w, w.weak) && AllClearable(w, w.allweak)
    ensures AllMarkedTables(w, w.weak) && AllMarkedTables(w, w.allweak) && AllMarkedTables(w, w.ephemeron)
  {
    Unfold(w, [], iset{}, X);
    forall o | Cleared(w, o) ensures MarkedTable(w, o) && (o !in w.ephemeron ==> Clearable(w, o)) {
      InListed(w, o, []);
      assert !Pending(w, [], o) && Visited(w, o);
    }
    forall o | o in w.weak || o in w.allweak ensures Clearable(w, o) {
      assert Cleared(w, o);
      OnlyOnce(w, o);
    }
  }

  lemma OnlyOnce(w: World, o: Obj)
    requires Listed(w, [])
    ensures o in w.weak ==> o !in w.ephemeron && o !in w.allweak
    ensures o in w.ephemeron ==> o !in w.weak && o !in w.allweak
  {
    assert Listings(w, [])[o] <= 1;
    OneList(w, o);
  }

  lemma CleanSettled(w: World, w2: World, X: iset<Obj>)
    requires Clean(w, w2) && EphemeronsSettled(w) && Marking(w, [], iset{}, X)
    ensures EphemeronsSettled(w2)
  {
    Unfold(w, [], iset{}, X);
    CleanOut(w, w2);
    forall o | o in w2.ephemeron ensures AllSettled(w2.heap, Marked(w2.color), NodesOf(w2, o)) {
      InListed(w, o, []);
      SettledCleaned(w, w2, o);
    }
  }

  lemma SettledCleaned(w: World, w2: World, o: Obj)
    requires CleanKeyed(w, w2) && Sound(w) && o in w.heap.objs
    requires AllSettled(w.heap, Marked(w.color), NodesOf(w, o))
    ensures AllSettled(w2.heap, Marked(w2.color), NodesOf(w2, o))
  {
    var r, r2 := w.heap.objs[o], w2.heap.objs[o];
    assert RecordTrimmed(r, r2);
    assert RefsIn(w.heap, Allocated(w.color), o);
    forall i | 0 <= i < |r2.nodes| ensures Settled(w2.heap, Marked(w2.color), r2.nodes[i]) {
      assert NodeTrimmed(r.nodes[i], r2.nodes[i]);
      assert Settled(w.heap, Marked(w.color), r.nodes[i]);
      if r2.nodes[i] == r.nodes[i] { SettledNodeCleaned(w, w2, r.nodes[i]); }
    }
  }

  lemma SettledNodeCleaned(w: World, w2: World, n: Node)
    requires CleanKeyed(w, w2) && w.color.Keys == w.heap.objs.Keys
    requires Settled(w.heap, Marked(w.color), n) && In(Allocated(w.color), n.key)
    ensures Settled(w2.heap, Marked(w2.color), n)
  {
    SameStr(w.heap, w2.heap, n.key);
  }

  /** The record of `o`, without the metatable that came too late if `o` is stale. */
  ghost function Unstale(w: World, o: Obj): Object
    requires o in w.heap.objs
  {
    if o in w.stale then w.heap.objs[o].(meta := Nil) else w.heap.objs[o]
  }

  /** Marked objects refer to marked objects only, late metatables and missed objects
      apart. */
  ghost predicate Compact(w: World) {
    && w.color.Keys == w.heap.objs.Keys
    && forall o :: o in w.heap.objs && o in Marked(w.color) && o !in w.blind ==>
         RecordIn(w.heap, Marked(w.color), Unstale(w, o))
  }

  /** After all clearing, marked objects refer to marked objects only. */
  lemma NothingDangles(w: World, X: iset<Obj>)
    requires Marking(w, [], iset{}, X) && w.phase == InsideAtomic && w.gray == []
    requires EphemeronsSettled(w) && KeysCleared(w, w.ephemeron) && KeysCleared(w, w.allweak)
    requires ValsCleared(w, w.weak) && ValsCleared(w, w.allweak)
    ensures Compact(w)
  {
    Unfold(w, [], iset{}, X);
    forall o | o in w.heap.objs && o in Marked(w.color) && o !in w.blind
      ensures RecordIn(w.heap, Marked(w.color), Unstale(w, o))
    {
      assert !Pending(w, [], o) && Visited(w, o);
      OnlyOnce(w, o);
      if o in w.ephemeron { SettledVals(w, o); }
      if o in w.stale {
        assert o in w.allweak;
        InListed(w, o, []);
        assert Shaped(w.heap.objs[o]);
      }
    }
  }

  lemma SettledVals(w: World, o: Obj)
    requires EphemeronsSettled(w) && KeysCleared(w, w.ephemeron) && o in w.ephemeron
    ensures ValsIn(Marked(w.color), NodesOf(w, o))
  {
    var n := NodesOf(w, o);
    forall i | 0 <= i < |n| ensures In(Marked(w.color), n[i].val) {
      assert Settled(w.heap, Marked(w.color), n[i]);
    }
  }

  lemma ListInKept(w: World, w2: World, l: seq<Obj>)
    requires Progress(w, w2) && ListIn(Marked(w.color), l)
    ensures ListIn(Marked(w2.color), l)
  {
    ProgressOut(w, w2);
  }

  lemma ListStep(w: World, w2: World, l: seq<Obj>, i: nat)
    requires i < |l| && Spread(w, w2)
    requires ListIn(Marked(w.color), l[..i]) && l[i] in Marked(w2.color)
    ensures ListIn(Marked(w2.color), l[..i + 1])
  {
    SpreadOut(w, w2);
    assert l[..i + 1] == l[..i] + [l[i]];
  }

  lemma RootedKept(w: World, w2: World)
    requires Progress(w, w2) && Rooted(w, Marked(w.color))
    ensures Rooted(w2, Marked(w2.color))
  {
    ProgressOut(w, w2);
  }

  /** Which roots the atomic step has marked after its first three calls. */
  lemma RootsMarked(w: World, w1: World, w2: World, w3: World)
    requires Spread(w, w1) && Spread(w1, w2) && Spread(w2, w3)
    requires w.mainthread in Marked(w.color) && ListIn(Marked(w.color), w.tobefnz)
    requires w.running in Marked(w1.color) && In(Marked(w2.color), w.registry)
    requires SlotsIn(Marked(w3.color), w.mt)
    ensures Rooted(w3, Marked(w3.color)) && Spread(w, w3)
  {
    SpreadOut(w, w1);
    SpreadOut(w1, w2);
    SpreadOut(w2, w3);
    SpreadTransitive(w, w1, w2);
    SpreadTransitive(w, w2, w3);
  }

  lemma RootsStay(w: World, w2: World, X: iset<Obj>)
    requires Spread(w, w2) && Rooted(w, Allocated(w.color)) && Rooted(w, X)
    ensures Rooted(w2, Allocated(w2.color)) && Rooted(w2, X)
  {
    SpreadOut(w, w2);
    assert Allocated(w2.color) == Allocated(w.color);
  }

  // ----- objects to be finalized -----

  /** What `SeparateToBeFnz` leaves in a list and what it takes out. */
  function Staying(l: seq<Obj>, c: map<Obj, Color>, all: bool): seq<Obj> {
    if l == [] then []
    else
      var last := l[|l| - 1];
      var front := Staying(l[..|l| - 1], c, all);
      if all || (last in c && c[last].White?) then front else front + [last]
  }

  function Leaving(l: seq<Obj>, c: map<Obj, Color>, all: bool): seq<Obj> {
    if l == [] then []
    else
      var last := l[|l| - 1];
      var front := Leaving(l[..|l| - 1], c, all);
      if all || (last in c && c[last].White?) then front + [last] else front
  }

  /** The two halves hold the same objects as the whole; a marked object stays. */
  lemma {:induction false} Separated(l: seq<Obj>, c: map<Obj, Color>, all: bool)
    ensures multiset(Staying(l, c, all)) + multiset(Leaving(l, c, all)) == multiset(l)
    ensures forall o :: o in Staying(l, c, all) ==> o in l && !(all || (o in c && c[o].White?))
    ensures forall o :: o in Leaving(l, c, all) ==> o in l && (all || (o in c && c[o].White?))
  {
    if l != [] {
      var front, last := l[..|l| - 1], l[|l| - 1];
      Separated(front, c, all);
      assert l == front + [last];
      assert forall o :: o in front ==> o in l;
    }
  }

  /** Separating by colour is separating by a set when the marked objects are those of it. */
  lemma {:induction false} StayingWithin(l: seq<Obj>, c: map<Obj, Color>, S: iset<Obj>)
    requires forall o :: o in l ==> o in c && (c[o].White? <==> o !in S)
    ensures Staying(l, c, false) == Within(l, S) && Leaving(l, c, false) == Outside(l, S)
  {
    if l != [] {
      var front, last := l[..|l| - 1], l[|l| - 1];
      assert l == front + [last] && last in l;
      StayingWithin(front, c, S);
    }
  }

  /** `Marking` does not depend on the lists that own the objects. */
  ghost predicate SameMarks(w: World, w2: World) {
    w2 == w.(allgc := w2.allgc, finobj := w2.finobj, tobefnz := w2.tobefnz, fin := w2.fin,
             gcfinnum := w2.gcfinnum, emergency := w2.emergency)
  }

  lemma OwnersChanged(w: World, w2: World, todo: seq<Obj>, X: iset<Obj>)
    requires Marking(w, todo, iset{}, X) && SameMarks(w, w2)
    ensures Marking(w2, todo, iset{}, X)
  {
    Unfold(w, todo, iset{}, X);
    OwnersListed(w, w2, todo);
    OwnersTricolor(w, w2, todo);
    SoundSame(w, w2);
    assert MarkingKeyed(w2, todo, iset{}, X);
  }

  lemma OwnersListed(w: World, w2: World, todo: seq<Obj>)
    requires Listed(w, todo) && SameMarks(w, w2)
    ensures Listed(w2, todo)
  {
    var L, L2 := Listings(w, todo), Listings(w2, todo);
    assert L2 == L;
    forall p ensures L2[p] <= 1 && (L2[p] == 1 ==> ListedOk(w2, p)) {
      assert L[p] <= 1 && (L[p] == 1 ==> ListedOk(w, p));
    }
  }

  lemma OwnersTricolor(w: World, w2: World, todo: seq<Obj>)
    requires Tricolor(w, todo, iset{}) && GrayListed(w, todo, iset{}) && SameMarks(w, w2)
    ensures Tricolor(w2, todo, iset{}) && GrayListed(w2, todo, iset{})
  {
    TrimmedSelf(w.heap);
    forall p | p in w2.heap.objs && p in w2.color && !w2.color[p].White? && p !in iset{}
      && !Pending(w2, todo, p)
      ensures Visited(w2, p)
    {
      assert !Pending(w, todo, p);
      VisitedGrows(w, w2, p);
    }
    forall p | w.phase == Propagate && p in w2.color && w2.color[p] == Gray && p !in w2.fixedgc && p !in w2.blind
      ensures Pending(w2, todo, p) || Cleared(w2, p)
    {
      assert Pending(w, todo, p) || Cleared(w, p);
    }
  }

  // ----- the lists of weak tables in two parts -----

  lemma PartsClearable(w: World, l: seq<Obj>, orig: seq<Obj>)
    requires AllClearable(w, l) && Suffix(orig, l)
    ensures AllClearable(w, l[..|l| - |orig|])
    ensures AllMarkedTables(w, l[..|l| - |orig|]) && AllMarkedTables(w, orig)
  {
    forall o | o in l[..|l| - |orig|] || o in orig ensures Clearable(w, o) {
      assert o in l;
    }
  }

  lemma ValsJoined(w: World, l: seq<Obj>, orig: seq<Obj>)
    requires Suffix(orig, l) && ValsCleared(w, l[..|l| - |orig|]) && ValsCleared(w, orig)
    ensures ValsCleared(w, l)
  {
    assert l == l[..|l| - |orig|] + orig;
  }

  /** One list of tables was cleared; the part of it cleared before stays so. */
  lemma NewValsCleared(w: World, w2: World, l: seq<Obj>, orig: seq<Obj>)
    requires Clean(w, w2) && AllClearable(w, l) && Suffix(orig, l)
    requires ValsCleared(w, orig) && ValsCleared(w2, l[..|l| - |orig|])
    ensures ValsCleared(w2, l)
  {
    CleanShrinks(w, w2);
    PartsClearable(w, l, orig);
    ListsKept(w, w2, orig);
    ValsJoined(w2, l, orig);
  }

  lemma ClearableKept(w: World, w2: World, l: seq<Obj>)
    requires Clean(w, w2) && AllClearable(w, l)
    ensures AllClearable(w2, l)
    ensures KeysCleared(w, l) ==> KeysCleared(w2, l)
    ensures ValsCleared(w, l) ==> ValsCleared(w2, l)
  {
    CleanShrinks(w, w2);
    assert forall o :: o in l ==> Clearable(w, o);
    ListsKept(w, w2, l);
  }

  lemma KeysClearedKept(w: World, w2: World, l: seq<Obj>)
    requires Clean(w, w2) && AllMarkedTables(w, l) && KeysCleared(w, l)
    ensures AllMarkedTables(w2, l) && KeysCleared(w2, l)
  {
    CleanShrinks(w, w2);
    ListsKept(w, w2, l);
  }

  // ----- the whole atomic step -----

  /** What the atomic step leaves: everything reachable is marked, the marked objects
      refer to each other only, and nothing reachable was dropped from a table. */
  ghost predicate Flipped(w0: World, w: World, X: iset<Obj>) {
    && w == w0.(heap := w.heap, color := w.color, white := !w0.white, phase := InsideAtomic,
                finobj := w.finobj, tobefnz := w.tobefnz, gray := w.gray, grayagain := w.grayagain,
                weak := w.weak, ephemeron := w.ephemeron, allweak := w.allweak,
                strcache := w.strcache, gcfinnum := 1)
    && forall k :: Key(k) ==> FlippedKeyed(w0, w, X)
  }

  ghost predicate FlippedKeyed(w0: World, w: World, X: iset<Obj>) {
    && OnlyMarks(w0.color, w.color) && Trimmed(w0.heap, w.heap) && Marked(w.color) <= X
    && (StaleMarked(w0) ==> Cleaned(w0.heap, w.heap, Reached(w0)) && Reached(w0) <= Marked(w.color))
    && Spared(w0, w) && BlindSame(w) && Compact(w) && Rooted(w, Marked(w.color))
    && ListIn(Marked(w.color), w.finobj) && ListIn(Marked(w.color), w.strcache)
    && multiset(w.finobj) + multiset(w.tobefnz) == multiset(w0.finobj) + multiset(w0.tobefnz)
    && Parted(w0, w) && WeakPurged(w, Drawn(w0))
  }

  /** A table of `S` whose values are weak has only values in `S`: an object that is about to
      be finalized has been removed from it. */
  ghost predicate WeakPurged(w: World, S: iset<Obj>) {
    forall o :: o in w.heap.objs && o in S && o !in w.blind && o !in w.stale && WeakTable(w.heap, o) ==>
      SlotsIn(S, w.heap.objs[o].slots) && ValsIn(S, w.heap.objs[o].nodes)
  }

  ghost predicate WeakTable(h: Heap, o: Obj)
    requires o in h.objs
  {
    h.objs[o].kind == Table && (TableMode(h, o) == WeakValues || TableMode(h, o) == AllWeak)
  }

  lemma PurgedKept(w: World, w2: World, S: iset<Obj>)
    requires WeakPurged(w, S) && Trimmed(w.heap, w2.heap) && w2.stale == w.stale && w2.blind == w.blind
    ensures WeakPurged(w2, S)
  {
    forall o | o in w2.heap.objs && o in S && o !in w2.blind && o !in w2.stale && WeakTable(w2.heap, o)
      ensures SlotsIn(S, w2.heap.objs[o].slots) && ValsIn(S, w2.heap.objs[o].nodes)
    {
      TrimmedParts(w.heap, w2.heap, S, o);
      assert RecordTrimmed(w.heap.objs[o], w2.heap.objs[o]);
    }
  }

  /** The values of the listed tables have been cleared, those of the others are marked. */
  lemma PurgedNow(w0: World, w: World)
    requires DrewAll(w0, w) && Trimmed(w0.heap, w.heap)
    requires Marking(w, [], iset{}, Drawn(w0)) && w.phase == InsideAtomic && w.gray == []
    requires ValsCleared(w, w.weak) && ValsCleared(w, w.allweak)
    ensures WeakPurged(w, Drawn(w0))
  {
    var S := Drawn(w0);
    Unfold(w, [], iset{}, S);
    MarkedInBound(w, [], iset{}, S);
    forall o | o in w.heap.objs && o in S && o !in w.blind && o !in w.stale && WeakTable(w.heap, o)
      ensures SlotsIn(S, w.heap.objs[o].slots) && ValsIn(S, w.heap.objs[o].nodes)
    {
      SameStr(w0.heap, w.heap, Ref(o));
      assert o in Marked(w.color);
      PurgedTable(w, o);
      PartsGrow(w.heap, Marked(w.color), S, w.heap.objs[o]);
    }
  }

  lemma PurgedTable(w: World, o: Obj)
    requires Tricolor(w, [], iset{}) && w.phase == InsideAtomic && w.gray == []
    requires ValsCleared(w, w.weak) && ValsCleared(w, w.allweak)
    requires o in w.heap.objs && o in Marked(w.color) && o !in w.blind && o !in w.stale && WeakTable(w.heap, o)
    ensures SlotsIn(Marked(w.color), w.heap.objs[o].slots) && ValsIn(Marked(w.color), w.heap.objs[o].nodes)
  {
    assert !Pending(w, [], o) && Visited(w, o);
  }

  /** Of the objects with finalizers those stay that the program can get at; the others wait
      to be finalized, behind those that do already. */
  ghost predicate Parted(w0: World, w: World) {
    && w.finobj == Within(w0.finobj, Drawn(w0))
    && w.tobefnz == w0.tobefnz + Outside(w0.finobj, Drawn(w0))
  }

  lemma FlippedOut(w0: World, w: World, X: iset<Obj>)
    requires Flipped(w0, w, X)
    ensures FlippedKeyed(w0, w, X)
  {
    assert Key(0);
  }

  /** What a sweep has missed is marked and as it was. */
  ghost predicate BlindSame(w: World) {
    forall o :: o in w.blind ==> o in w.heap.objs && w.heap.objs[o] == w.blind[o] && o in Marked(w.color)
  }

  lemma BlindStays(w: World, todo: seq<Obj>, busy: iset<Obj>, X: iset<Obj>)
    requires Marking(w, todo, busy, X)
    ensures BlindSame(w)
  {
    Unfold(w, todo, busy, X);
  }

  /** All but strings that marking on from `w0` comes to is marked. */
  ghost predicate Spared(w0: World, w: World) {
    forall o :: o in Marks(w0) && !IsStr(w0.heap, Ref(o)) ==> o in Marked(w.color)
  }

  /** Marking, clearing, marking again and clearing again, seen as a whole. */
  lemma Stages(w0: World, w1: World, w2: World, w3: World, w4: World, w5: World)
    requires Progress(w0, w1) && Clean(w1, w2) && w3.heap == w2.heap && w3.color == w2.color
    requires Progress(w3, w4) && Clean(w4, w5)
    requires StaleMarked(w0) ==> Reached(w0) <= Marked(w1.color)
    ensures OnlyMarks(w0.color, w5.color) && Trimmed(w0.heap, w5.heap)
    ensures StaleMarked(w0) ==> Cleaned(w0.heap, w5.heap, Reached(w0))
    ensures Trimmed(w0.heap, w4.heap)
    ensures Marked(w1.color) <= Marked(w2.color) <= Marked(w4.color) <= Marked(w5.color)
  {
    var M := Marked(w1.color);
    ProgressOut(w0, w1);
    CleanOut(w1, w2);
    ProgressOut(w3, w4);
    CleanOut(w4, w5);
    TidiedCleaned(w0.heap, w1.heap, M);
    CleanedTransitive(w0.heap, w1.heap, w2.heap, M, M);
    TidiedCleaned(w3.heap, w4.heap, M);
    CleanedTransitive(w0.heap, w2.heap, w4.heap, M, M);
    CleanedTransitive(w0.heap, w4.heap, w5.heap, M, Marked(w4.color));
    if StaleMarked(w0) { CleanedFewer(w0.heap, w5.heap, M, Reached(w0)); }
  }

  lemma StagesRoots(w1: World, w2: World, w3: World, w4: World, w5: World)
    requires Rooted(w1, Marked(w1.color)) && ListIn(Marked(w2.color), w3.finobj)
    requires ListIn(Marked(w4.color), w4.tobefnz)
    requires Marked(w1.color) <= Marked(w2.color) <= Marked(w4.color) <= Marked(w5.color)
    requires Clean(w1, w2) && Separation(w2, w3) && Progress(w3, w4) && Clean(w4, w5)
    ensures Rooted(w5, Marked(w5.color)) && ListIn(Marked(w5.color), w5.finobj)
  {
  }

  /** The unmarked objects of `finobj` went to the end of `tobefnz`. */
  ghost predicate Separation(w: World, w1: World) {
    && w1 == w.(finobj := w1.finobj, tobefnz := w1.tobefnz, gcfinnum := 1)
    && w1.finobj == Staying(w.finobj, w.color, false)
    && w1.tobefnz == w.tobefnz + Leaving(w.finobj, w.color, false)
    && multiset(w1.finobj) + multiset(w1.tobefnz) == multiset(w.finobj) + multiset(w.tobefnz)
    && w.tobefnz <= w1.tobefnz
    && (ListIn(Allocated(w.color), w.finobj) ==> ListIn(Marked(w.color), w1.finobj))
  }

  ghost predicate Resurrected(w: World, w2: World) {
    exists w1 :: Separation(w, w1) && Advance(w1, w2)
  }

  ghost predicate CacheCleared(w: World, w2: World) {
    && |w2.strcache| == |w.strcache|
    && forall i :: 0 <= i < |w.strcache| ==>
         w2.strcache[i] == if w.strcache[i] in w.color && w.color[w.strcache[i]].White?
                           then w.memerrmsg else w.strcache[i]
  }

  lemma CacheMarked(w: World, w2: World)
    requires CacheCleared(w, w2) && w.memerrmsg in Marked(w.color)
    requires ListIn(Allocated(w.color), w.strcache) && w2.color == w.color
    ensures ListIn(Marked(w2.color), w2.strcache)
  {
    forall o | o in w2.strcache ensures o in Marked(w2.color) {
      var i :| 0 <= i < |w2.strcache| && w2.strcache[i] == o;
      assert w.strcache[i] in w.strcache;
    }
  }

  /** The first half of the atomic step: `w1` is the moment everything reachable is marked. */
  ghost predicate FirstHalf(w0: World, w1: World, w2: World) {
    && Progress(w0, w1) && Clean(w1, w2) && w1.phase == InsideAtomic
    && forall k :: Key(k) ==>
         && (StaleMarked(w0) ==> Reached(w0) <= Marked(w1.color)) && Rooted(w1, Marked(w1.color))
         && Pulls(w0, w1, w2) && DrewAll(w0, w2) && WeakPurged(w2, Drawn(w0))
  }

  /** Strings apart, what is marked is what the program can get at. */
  ghost predicate DrewAll(w0: World, w2: World) {
    forall o :: !IsStr(w0.heap, Ref(o)) ==> (o in Marked(w2.color) <==> o in Drawn(w0))
  }

  lemma DrawnMarked(w0: World, w1: World, w2: World)
    requires Progress(w0, w1) && Clean(w1, w2) && Rooted(w1, Marked(w1.color))
    requires Marking(w1, [], iset{}, Drawn(w0)) && Marking(w2, [], iset{}, Drawn(w0))
    requires w1.phase == InsideAtomic && w1.gray == [] && EphemeronsSettled(w1)
    ensures DrewAll(w0, w2)
  {
    assert Trimmed(w0.heap, w1.heap) by { ProgressOut(w0, w1); }
    assert Marked(w1.color) <= Marked(w2.color) by { CleanOut(w1, w2); }
    SettledLimits(w1, Drawn(w0));
    SettledDraws(w0, w1);
    MarkedInBound(w2, [], iset{}, Drawn(w0));
    forall o | !IsStr(w0.heap, Ref(o)) ensures o in Marked(w2.color) <==> o in Drawn(w0) {
      SameStr(w0.heap, w1.heap, Ref(o));
      if o in Drawn(w0) { assert InDrawn(w0, o) && StringOrMarked(w1, o); }
    }
  }

  lemma FirstPurged(w0: World, w1: World, w2: World)
    requires Progress(w0, w1) && Clean(w1, w2) && DrewAll(w0, w2)
    requires Marking(w2, [], iset{}, Drawn(w0)) && w2.phase == InsideAtomic && w2.gray == []
    requires ValsCleared(w2, w2.weak) && ValsCleared(w2, w2.allweak)
    ensures WeakPurged(w2, Drawn(w0))
  {
    ProgressOut(w0, w1);
    CleanOut(w1, w2);
    TrimmedTransitive(w0.heap, w1.heap, w2.heap);
    PurgedNow(w0, w2);
  }

  lemma SettledDraws(w0: World, w1: World)
    requires Progress(w0, w1) && Rooted(w1, Marked(w1.color))
    requires ClosedBut(w1.heap, w1.stale, w1.blind, WithStrings(w1))
    ensures Draws(w0, WithStrings(w1))
  {
    var S := WithStrings(w1);
    ProgressOut(w0, w1);
    ButTidied(w0.heap, w1.heap, w0.stale, w0.blind, S);
    RootedGrows(w1, Marked(w1.color), S);
  }

  ghost predicate SecondHalf(w2: World, w4: World, w5: World, X: iset<Obj>) {
    && Resurrected(w2, w4) && Clean(w4, w5)
    && forall k :: Key(k) ==>
         && ListIn(Marked(w4.color), w4.tobefnz) && Compact(w5) && Marked(w5.color) <= X && BlindSame(w5)
         && ClosedBut(w4.heap, w4.stale, w4.blind, WithStrings(w4))
  }

  lemma FirstHalfOut(w0: World, w1: World, w2: World)
    requires FirstHalf(w0, w1, w2)
    ensures StaleMarked(w0) ==> Reached(w0) <= Marked(w1.color)
    ensures Rooted(w1, Marked(w1.color))
  {
    assert Key(0);
  }

  /** The first half is bounded by what the program can get at, the second also by what the
      objects with finalizers keep. */
  lemma HalfBounded(w0: World, w1: World, w2: World, X: iset<Obj>)
    requires FirstHalf(w0, w1, w2) && Bounded(w0, X) && Drawn(w0) <= X
    requires Marking(w2, [], iset{}, Drawn(w0))
    ensures Marking(w2, [], iset{}, X)
  {
    ProgressOut(w0, w1);
    CleanOut(w1, w2);
    TrimmedTransitive(w0.heap, w1.heap, w2.heap);
    StillBounded(w0, w2, X, Drawn(w0), [], iset{});
  }

  lemma SecondHalfOut(w2: World, w4: World, w5: World, X: iset<Obj>)
    requires SecondHalf(w2, w4, w5, X)
    ensures ListIn(Marked(w4.color), w4.tobefnz) && Compact(w5) && Marked(w5.color) <= X && BlindSame(w5)
  {
    assert Key(0);
  }

  // ----- exactly what survives -----

  ghost predicate AllStringsIn(h: Heap, S: iset<Obj>) {
    forall o :: IsStr(h, Ref(o)) ==> o in S
  }

  ghost predicate StringOrMarked(w: World, o: Obj) { IsStr(w.heap, Ref(o)) || o in Marked(w.color) }

  ghost function WithStrings(w: World): iset<Obj> { iset o | StringOrMarked(w, o) }

  /** With all strings, the marked objects are closed once nothing is left to visit. */
  lemma SettledLimits(w: World, X: iset<Obj>)
    requires Marking(w, [], iset{}, X) && w.phase == InsideAtomic && w.gray == [] && EphemeronsSettled(w)
    ensures ClosedBut(w.heap, w.stale, w.blind, WithStrings(w))
  {
    var S := WithStrings(w);
    Unfold(w, [], iset{}, X);
    forall o | o in w.heap.objs && o in S && o !in w.blind
      ensures if o in w.stale then StringsIn(w.heap, S, o) else StrongIn(w.heap, S, o, true)
    {
      if o in w.stale {
        StringsThere(w.heap, S, o);
      } else if IsStr(w.heap, Ref(o)) {
        assert Shaped(w.heap.objs[o]);
      } else {
        assert !Pending(w, [], o) && Visited(w, o);
        if Cleared(w, o) { InListed(w, o, []); }
        OnlyOnce(w, o);
        VisitedClosed(w, o, S, true);
      }
    }
  }

  lemma StringsThere(h: Heap, S: iset<Obj>, o: Obj)
    requires o in h.objs && AllStringsIn(h, S)
    ensures StringsIn(h, S, o)
  {
  }

  /** A set that is closed after the first clearing was so when the atomic step began. */
  ghost predicate Pulls(w0: World, w1: World, w2: World) {
    forall S: iset<Obj> ::
      Marked(w1.color) <= S && AllStringsIn(w0.heap, S) && ClosedBut(w2.heap, w0.stale, w0.blind, S) ==>
        ClosedBut(w0.heap, w0.stale, w0.blind, S)
  }

  lemma PullsBack(w0: World, w1: World, w2: World, X: iset<Obj>)
    requires Progress(w0, w1) && Marking(w1, [], iset{}, X) && w1.phase == InsideAtomic && w1.gray == []
    requires Drops(w1, w2, w1.weak + w1.allweak)
    ensures Pulls(w0, w1, w2)
  {
    ProgressOut(w0, w1);
    forall S: iset<Obj> | Marked(w1.color) <= S && AllStringsIn(w0.heap, S)
      && ClosedBut(w2.heap, w0.stale, w0.blind, S)
      ensures ClosedBut(w0.heap, w0.stale, w0.blind, S)
    {
      forall o ensures IsStr(w1.heap, Ref(o)) == IsStr(w0.heap, Ref(o)) { SameStr(w0.heap, w1.heap, Ref(o)); }
      CleanOut(w1, w2);
      forall o | o in w1.heap.objs && o in S && o !in w1.blind
        ensures if o in w1.stale then StringsIn(w1.heap, S, o) else StrongIn(w1.heap, S, o, true)
      {
        if o in w1.stale {
          StringsThere(w1.heap, S, o);
        } else {
          DroppedStrong(w1, w2, S, o, X);
        }
      }
      ButTidied(w0.heap, w1.heap, w0.stale, w0.blind, S);
    }
  }

  lemma DroppedStrong(w1: World, w2: World, S: iset<Obj>, o: Obj, X: iset<Obj>)
    requires Marking(w1, [], iset{}, X) && w1.phase == InsideAtomic && w1.gray == []
    requires Drops(w1, w2, w1.weak + w1.allweak) && Marked(w1.color) <= S && AllStringsIn(w1.heap, S)
    requires o in w1.heap.objs && o !in w1.stale && o !in w1.blind
    requires o in w2.heap.objs && StrongIn(w2.heap, S, o, true)
    ensures StrongIn(w1.heap, S, o, true)
  {
    assert Trimmed(w1.heap, w2.heap) by { CleanOut(w1, w2); }
    UpsBack(w1.heap, w2.heap, S, o);
    if w2.heap.objs[o] == w1.heap.objs[o] {
      SameStrong(w1.heap, w2.heap, S, o);
    } else {
      DropsOut(w1, w2, w1.weak + w1.allweak);
      ListedVisited(w1, o, X);
      DroppedEntries(w1, w2, S, o);
    }
  }

  lemma UpsBack(h: Heap, h2: Heap, S: iset<Obj>, o: Obj)
    requires Trimmed(h, h2) && o in h.objs && UpsIn(h2, S, h2.objs[o].ups)
    ensures UpsIn(h, S, h.objs[o].ups)
  {
    assert RecordTrimmed(h.objs[o], h2.objs[o]);
    forall i | 0 <= i < |h.objs[o].ups| ensures In(S, Up(h, h.objs[o].ups[i])) {
      assert In(S, Up(h2, h2.objs[o].ups[i]));
    }
  }

  lemma ListedVisited(w: World, o: Obj, X: iset<Obj>)
    requires Marking(w, [], iset{}, X) && w.phase == InsideAtomic && w.gray == []
    requires o in w.weak + w.allweak && o !in w.stale
    ensures o in w.heap.objs && w.heap.objs[o].kind == Table && VisitedFully(w, o)
    ensures (o in w.weak && o !in w.ephemeron && o !in w.allweak) || (o in w.allweak && o !in w.weak)
  {
    Unfold(w, [], iset{}, X);
    assert Cleared(w, o);
    InListed(w, o, []);
    OnlyOnce(w, o);
    assert !Pending(w, [], o) && Visited(w, o);
  }

  lemma SameStrong(h: Heap, h2: Heap, S: iset<Obj>, o: Obj)
    requires Trimmed(h, h2) && o in h.objs && h2.objs[o] == h.objs[o] && StrongIn(h2, S, o, true)
    requires UpsIn(h, S, h.objs[o].ups)
    ensures StrongIn(h, S, o, true)
  {
    TrimmedParts(h, h2, S, o);
    assert forall v :: IsStr(h2, v) == IsStr(h, v) by {
      forall v ensures IsStr(h2, v) == IsStr(h, v) { SameStr(h, h2, v); }
    }
    forall i | 0 <= i < |h.objs[o].nodes| && h.objs[o].kind == Table
      ensures EntryIn(h, S, TableMode(h, o), h.objs[o].nodes[i], true)
    {
      assert EntryIn(h2, S, TableMode(h, o), h.objs[o].nodes[i], true);
    }
    forall i | 0 <= i < |h.objs[o].slots| && IsStr(h, h.objs[o].slots[i])
      ensures WeakIn(h2, S, h.objs[o].slots[i], true) ==> WeakIn(h, S, h.objs[o].slots[i], true)
    {
    }
  }

  /** What a weak table lost did not count. */
  lemma DroppedEntries(w1: World, w2: World, S: iset<Obj>, o: Obj)
    requires o in w1.heap.objs && o in w2.heap.objs && w1.heap.objs[o].kind == Table && VisitedFully(w1, o)
    requires (o in w1.weak && o !in w1.ephemeron && o !in w1.allweak) || (o in w1.allweak && o !in w1.weak)
    requires Trimmed(w1.heap, w2.heap) && Marked(w1.color) <= S && AllStringsIn(w1.heap, S)
    requires DropsRecord(w1.heap, w1.heap.objs[o], w2.heap.objs[o], Marked(w1.color))
    requires StrongIn(w2.heap, S, o, true) && UpsIn(w1.heap, S, w1.heap.objs[o].ups)
    ensures StrongIn(w1.heap, S, o, true)
  {
    var r, r2, m := w1.heap.objs[o], w2.heap.objs[o], TableMode(w1.heap, o);
    TrimmedParts(w1.heap, w2.heap, S, o);
    assert RecordTrimmed(r, r2);
    forall i | 0 <= i < |r.nodes| ensures EntryIn(w1.heap, S, m, r.nodes[i], true) {
      assert EntryIn(w2.heap, S, m, r2.nodes[i], true);
      SameStr(w1.heap, w2.heap, r.nodes[i].key);
      SameStr(w1.heap, w2.heap, r.nodes[i].val);
      if KeysIn(Marked(w1.color), r.nodes) { assert In(Marked(w1.color), r.nodes[i].key); }
      if ValsIn(Marked(w1.color), r.nodes) { assert In(Marked(w1.color), r.nodes[i].val); }
    }
    forall i | 0 <= i < |r.slots|
      ensures WeakIn(w1.heap, S, r.slots[i], true)
      ensures SlotsIn(Marked(w1.color), r.slots) ==> In(S, r.slots[i])
    {
    }
  }

  /** All the atomic step marks is enclosed by each set that encloses what was marked
      before; so it marks no less than the least such set, strings apart. */
  lemma MarksSpared(w0: World, w1: World, w2: World, w3: World, w4: World)
    requires Progress(w0, w1) && Clean(w1, w2) && Separation(w2, w3) && Advance(w3, w4)
    requires Pulls(w0, w1, w2) && Rooted(w1, Marked(w1.color)) && ListIn(Marked(w4.color), w4.tobefnz)
    requires ClosedBut(w4.heap, w4.stale, w4.blind, WithStrings(w4)) && Trimmed(w0.heap, w4.heap)
    requires ListIn(Allocated(w0.color), w0.finobj)
    ensures Limits(w0, WithStrings(w4)) && Spared(w0, w4)
  {
    var S := WithStrings(w4);
    ProgressOut(w0, w1);
    CleanOut(w1, w2);
    AdvanceOut(w3, w4);
    ButTidied(w2.heap, w4.heap, w0.stale, w0.blind, S);
    forall o ensures IsStr(w4.heap, Ref(o)) == IsStr(w0.heap, Ref(o)) { SameStr(w0.heap, w4.heap, Ref(o)); }
    assert ClosedBut(w0.heap, w0.stale, w0.blind, S);
    assert Allocated(w2.color) == Allocated(w0.color);
    forall o | o in w0.finobj ensures o in S {
      var F, F3 := multiset(w2.finobj) + multiset(w2.tobefnz), multiset(w3.finobj) + multiset(w3.tobefnz);
      assert o in F && o in F3;
    }
    assert Rooted(w0, S);
    assert Limits(w0, S);
  }

  lemma Composed(w0: World, w1: World, w2: World, w4: World, w5: World, w6: World, X: iset<Obj>)
    requires FirstHalf(w0, w1, w2) && SecondHalf(w2, w4, w5, X)
    requires ListIn(Allocated(w0.color), w0.finobj) && ListIn(Allocated(w0.color), w0.strcache)
    requires w0.memerrmsg in Marked(w0.color) && Finalizable(w0.heap, w0.finobj)
    requires w6 == w5.(strcache := w6.strcache, white := !w5.white) && CacheCleared(w5, w6)
    ensures Flipped(w0, w6, X)
  {
    var w3 :| Separation(w2, w3) && Advance(w3, w4);
    ComposedFrame(w0, w1, w2, w3, w4, w5, w6);
    ComposedKeyed(w0, w1, w2, w3, w4, w5, w6, X);
  }

  lemma ComposedFrame(w0: World, w1: World, w2: World, w3: World, w4: World, w5: World, w6: World)
    requires Progress(w0, w1) && Clean(w1, w2) && w1.phase == InsideAtomic
    requires Separation(w2, w3) && Advance(w3, w4) && Clean(w4, w5)
    requires w6 == w5.(strcache := w6.strcache, white := !w5.white)
    ensures w6 == w0.(heap := w6.heap, color := w6.color, white := !w0.white, phase := InsideAtomic,
                finobj := w6.finobj, tobefnz := w6.tobefnz, gray := w6.gray, grayagain := w6.grayagain,
                weak := w6.weak, ephemeron := w6.ephemeron, allweak := w6.allweak,
                strcache := w6.strcache, gcfinnum := 1)
  {
  }

  lemma ComposedKeyed(w0: World, w1: World, w2: World, w3: World, w4: World, w5: World, w6: World,
                      X: iset<Obj>)
    requires FirstHalf(w0, w1, w2) && SecondHalf(w2, w4, w5, X)
    requires Separation(w2, w3) && Advance(w3, w4)
    requires ListIn(Allocated(w0.color), w0.finobj) && ListIn(Allocated(w0.color), w0.strcache)
    requires w0.memerrmsg in Marked(w0.color) && Finalizable(w0.heap, w0.finobj)
    requires w6 == w5.(strcache := w6.strcache, white := !w5.white) && CacheCleared(w5, w6)
    ensures FlippedKeyed(w0, w6, X)
  {
    FirstHalfOut(w0, w1, w2);
    SecondHalfOut(w2, w4, w5, X);
    AdvanceProgress(w3, w4);
    Stages(w0, w1, w2, w3, w4, w5);
    ComposedMarks(w0, w1, w2, w3, w4, w5, X);
    CompactFlip(w5, w6);
    ComposedCache(w0, w1, w5, w6);
    ComposedParts(w0, w1, w2, w3);
    ComposedPurged(w0, w1, w2, w3, w4, w5, w6);
  }

  lemma ComposedPurged(w0: World, w1: World, w2: World, w3: World, w4: World, w5: World, w6: World)
    requires FirstHalf(w0, w1, w2) && Separation(w2, w3) && Advance(w3, w4) && Clean(w4, w5)
    requires w6 == w5.(strcache := w6.strcache, white := !w5.white)
    ensures WeakPurged(w6, Drawn(w0))
  {
    assert WeakPurged(w2, Drawn(w0)) by { assert Key(0); }
    AdvanceOut(w3, w4);
    CleanOut(w4, w5);
    PurgedKept(w2, w4, Drawn(w0));
    PurgedKept(w4, w5, Drawn(w0));
  }

  lemma ComposedParts(w0: World, w1: World, w2: World, w3: World)
    requires FirstHalf(w0, w1, w2) && Separation(w2, w3)
    requires ListIn(Allocated(w0.color), w0.finobj) && Finalizable(w0.heap, w0.finobj)
    ensures Parted(w0, w3)
  {
    assert DrewAll(w0, w2) by { assert Key(0); }
    assert Allocated(w2.color) == Allocated(w0.color) by { ProgressOut(w0, w1); CleanOut(w1, w2); }
    forall o | o in w0.finobj ensures o in w2.color && (w2.color[o].White? <==> o !in Drawn(w0)) {
      assert o in Allocated(w0.color);
    }
    StayingWithin(w0.finobj, w2.color, Drawn(w0));
  }

  lemma ComposedMarks(w0: World, w1: World, w2: World, w3: World, w4: World, w5: World, X: iset<Obj>)
    requires FirstHalf(w0, w1, w2) && SecondHalf(w2, w4, w5, X)
    requires Separation(w2, w3) && Advance(w3, w4) && Trimmed(w0.heap, w4.heap)
    requires ListIn(Allocated(w0.color), w0.finobj)
    requires Marked(w1.color) <= Marked(w2.color) <= Marked(w4.color) <= Marked(w5.color)
    ensures Rooted(w5, Marked(w5.color)) && ListIn(Marked(w5.color), w5.finobj) && Spared(w0, w5)
  {
    assert Key(0);
    assert Allocated(w2.color) == Allocated(w0.color) by { ProgressOut(w0, w1); CleanOut(w1, w2); }
    MarksSpared(w0, w1, w2, w3, w4);
    StagesRoots(w1, w2, w3, w4, w5);
  }

  lemma CompactFlip(w5: World, w6: World)
    requires w6 == w5.(strcache := w6.strcache, white := !w5.white)
    ensures Compact(w5) ==> Compact(w6)
    ensures Rooted(w5, Marked(w5.color)) ==> Rooted(w6, Marked(w6.color))
  {
    if Compact(w5) {
      forall o | o in w6.heap.objs && o in Marked(w6.color) && o !in w6.blind
        ensures RecordIn(w6.heap, Marked(w6.color), Unstale(w6, o))
      {
        assert RecordIn(w5.heap, Marked(w5.color), Unstale(w5, o));
      }
    }
  }

  lemma ComposedCache(w0: World, w1: World, w5: World, w6: World)
    requires Progress(w0, w1) && Marked(w1.color) <= Marked(w5.color) && OnlyMarks(w0.color, w5.color)
    requires w5.strcache == w0.strcache && w5.memerrmsg == w0.memerrmsg
    requires ListIn(Allocated(w0.color), w0.strcache) && w0.memerrmsg in Marked(w0.color)
    requires CacheCleared(w5, w6) && w6.color == w5.color
    ensures ListIn(Marked(w6.color), w6.strcache)
  {
    assert Allocated(w5.color) == Allocated(w0.color);
    assert Marked(w0.color) <= Marked(w1.color) by { ProgressOut(w0, w1); }
    CacheMarked(w5, w6);
  }

  /** The lists `SeparateAndResurrect` works on are as they were at the beginning. */
  lemma StillReady(w0: World, w1: World, w2: World, X: iset<Obj>)
    requires Progress(w0, w1) && Clean(w1, w2)
    requires ListIn(Allocated(w0.color), w0.finobj) && Rooted(w0, Allocated(w0.color))
    ensures ListIn(Allocated(w2.color), w2.finobj) && ListIn(Allocated(w2.color), w2.tobefnz)
  {
    ProgressOut(w0, w1);
    CleanOut(w1, w2);
    assert Allocated(w2.color) == Allocated(w0.color);
  }

  lemma StillCleared(w2: World, w4: World, X: iset<Obj>)
    requires Resurrected(w2, w4) && Marking(w2, [], iset{}, X) && w2.phase == InsideAtomic && w2.gray == []
    requires ValsCleared(w2, w2.weak) && ValsCleared(w2, w2.allweak)
    ensures ValsCleared(w4, w2.weak) && ValsCleared(w4, w2.allweak)
    ensures Suffix(w2.weak, w4.weak) && Suffix(w2.allweak, w4.allweak)
  {
    var w3 :| Separation(w2, w3) && Advance(w3, w4);
    ListsClearable(w2, X);
    AdvanceOut(w3, w4);
    ListsKept(w2, w4, w2.weak);
    ListsKept(w2, w4, w2.allweak);
  }
}