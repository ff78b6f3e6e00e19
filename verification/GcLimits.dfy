/** Sets of objects that marking cannot leave, and the least of them: what marking comes
    to from here, with the objects that have finalizers or without. */
module GcLimits {
  import opened GcHeap
  import opened GcWorld

  ghost predicate ListIn(S: iset<Obj>, l: seq<Obj>) {
    forall o :: o in l ==> o in S
  }

  /** What the mutator and the finalizers start from. */
  ghost predicate Rooted(w: World, S: iset<Obj>) {
    && w.mainthread in S && w.running in S && In(S, w.registry) && SlotsIn(S, w.mt)
    && ListIn(S, w.tobefnz)
  }

  lemma RootedGrows(w: World, S: iset<Obj>, T: iset<Obj>)
    requires Rooted(w, S) && S <= T
    ensures Rooted(w, T)
  {
  }

  /** An upper bound for what a collection keeps. */
  ghost predicate Kept(w: World, X: iset<Obj>) {
    && ClosedBut(w.heap, {}, w.blind, X) && Rooted(w, X) && ListIn(X, w.finobj) && ListIn(X, w.fixedgc)
    && forall o :: o in w.blind ==> o in X
  }

  ghost predicate Bounds(w: World, X: iset<Obj>) { Rooted(w, X) && ListIn(X, w.finobj) }

  /** What is marked now is in `X`, and so are the roots, the objects with finalizers and
      all that objects in `X` keep. */
  ghost predicate Limits(w: World, X: iset<Obj>) { Bounded(w, X) && Bounds(w, X) }

  /** The least such set: what marking on from here comes to. */
  ghost function Marks(w: World): iset<Obj> { iset o | InMarks(w, o) }

  ghost predicate InMarks(w: World, o: Obj) {
    forall X: iset<Obj> :: Limits(w, X) ==> o in X
  }

  /** The least set that a collection may be bounded by: the roots, the objects with
      finalizers, the missed ones, and all that is kept by those but the missed. */
  ghost function Keeps(w: World): iset<Obj> { iset o | InKeeps(w, o) }

  ghost predicate InKeeps(w: World, o: Obj) {
    forall X: iset<Obj> :: Kept(w, X) ==> o in X
  }

  /** What is marked now is in `X`, and so are the roots and all that objects in `X` keep;
      the objects with finalizers do not count. */
  ghost predicate Draws(w: World, X: iset<Obj>) { Bounded(w, X) && Rooted(w, X) }

  /** The least such set: what the program can get at. An object with a finalizer outside
      it is to be finalized. */
  ghost function Drawn(w: World): iset<Obj> { iset o | InDrawn(w, o) }

  ghost predicate InDrawn(w: World, o: Obj) {
    forall X: iset<Obj> :: Draws(w, X) ==> o in X
  }

  /** Whatever the colours, the roots and all that objects in `X` keep are in `X`. */
  ghost predicate Grips(w: World, X: iset<Obj>) {
    ClosedBut(w.heap, {}, map[], X) && Rooted(w, X) && ListIn(X, w.fixedgc)
  }

  /** The least such set: what a collection begun now would find from the roots. */
  ghost function Held(w: World): iset<Obj> { iset o | InHeld(w, o) }

  ghost predicate InHeld(w: World, o: Obj) {
    forall X: iset<Obj> :: Grips(w, X) ==> o in X
  }

  // ----- what a family of sets has in common -----

  ghost function Meet(F: iset<iset<Obj>>): iset<Obj> { iset o | InAll(F, o) }

  ghost predicate InAll(F: iset<iset<Obj>>, o: Obj) {
    forall X: iset<Obj> :: X in F ==> o in X
  }

  ghost predicate ClosedFor(h: Heap, stale: set<Obj>, X: iset<Obj>, o: Obj)
    requires o in h.objs
  {
    if o in stale then StringsIn(h, X, o) else StrongIn(h, X, o, true)
  }

  /** What closed sets have in common is closed. */
  lemma MeetClosed(h: Heap, stale: set<Obj>, blind: map<Obj, Object>, F: iset<iset<Obj>>)
    requires forall X :: X in F ==> ClosedBut(h, stale, blind, X)
    ensures ClosedBut(h, stale, blind, Meet(F))
  {
    forall o | o in h.objs && o in Meet(F) && o !in blind ensures ClosedFor(h, stale, Meet(F), o) {
      forall X | X in F ensures ClosedFor(h, stale, X, o) {
        assert InAll(F, o) && o in X && ClosedBut(h, stale, blind, X);
      }
      if o in stale { MeetStrings(h, F, o); } else { MeetStrong(h, F, o); }
    }
  }

  lemma MeetStrings(h: Heap, F: iset<iset<Obj>>, o: Obj)
    requires o in h.objs && forall X :: X in F ==> StringsIn(h, X, o)
    ensures StringsIn(h, Meet(F), o)
  {
    var r := h.objs[o];
    forall i | 0 <= i < |r.slots| ensures WeakIn(h, Meet(F), r.slots[i], true) {
      forall X | X in F ensures WeakIn(h, X, r.slots[i], true) { assert StringsIn(h, X, o); }
      MeetWeak(h, F, r.slots[i]);
    }
    forall i | 0 <= i < |r.nodes| ensures EntryIn(h, Meet(F), AllWeak, r.nodes[i], true) {
      forall X | X in F ensures EntryIn(h, X, AllWeak, r.nodes[i], true) { assert StringsIn(h, X, o); }
      MeetEntry(h, F, r.nodes[i], AllWeak);
    }
  }

  lemma MeetWeak(h: Heap, F: iset<iset<Obj>>, v: Value)
    requires forall X :: X in F ==> WeakIn(h, X, v, true)
    ensures WeakIn(h, Meet(F), v, true)
  {
    if IsStr(h, v) { assert InAll(F, v.o); }
  }

  lemma MeetIn(F: iset<iset<Obj>>, v: Value)
    requires forall X :: X in F ==> In(X, v)
    ensures In(Meet(F), v)
  {
    if v.Ref? { assert InAll(F, v.o); }
  }

  lemma MeetEntry(h: Heap, F: iset<iset<Obj>>, n: Node, m: Mode)
    requires forall X :: X in F ==> EntryIn(h, X, m, n, true)
    ensures EntryIn(h, Meet(F), m, n, true)
  {
    if n.val != Nil {
      match m
      case Strong => MeetIn(F, n.key); MeetIn(F, n.val);
      case WeakValues => MeetIn(F, n.key); MeetWeak(h, F, n.val);
      case AllWeak => MeetWeak(h, F, n.key); MeetWeak(h, F, n.val);
      case Ephemeron =>
        MeetWeak(h, F, n.key);
        if In(Meet(F), n.key) {
          forall X | X in F ensures In(X, n.val) {
            if n.key.Ref? { assert InAll(F, n.key.o); }
            assert EntryIn(h, X, m, n, true);
          }
          MeetIn(F, n.val);
        }
    }
  }

  lemma MeetStrong(h: Heap, F: iset<iset<Obj>>, o: Obj)
    requires o in h.objs && forall X :: X in F ==> StrongIn(h, X, o, true)
    ensures StrongIn(h, Meet(F), o, true)
  {
    var r, m := h.objs[o], TableMode(h, o);
    forall X | X in F ensures In(X, r.meta) { assert StrongIn(h, X, o, true); }
    MeetIn(F, r.meta);
    forall i | 0 <= i < |r.ups| ensures In(Meet(F), Up(h, r.ups[i])) {
      forall X | X in F ensures In(X, Up(h, r.ups[i])) { assert StrongIn(h, X, o, true); }
      MeetIn(F, Up(h, r.ups[i]));
    }
    MeetSlots(h, F, o);
    forall i | 0 <= i < |r.nodes| && r.kind == Table ensures EntryIn(h, Meet(F), m, r.nodes[i], true) {
      forall X | X in F ensures EntryIn(h, X, m, r.nodes[i], true) { assert StrongIn(h, X, o, true); }
      MeetEntry(h, F, r.nodes[i], m);
    }
  }

  lemma MeetSlots(h: Heap, F: iset<iset<Obj>>, o: Obj)
    requires o in h.objs && forall X :: X in F ==> StrongIn(h, X, o, true)
    ensures var r, m := h.objs[o], TableMode(h, o);
      if r.kind != Table || m == Strong || m == Ephemeron then SlotsIn(Meet(F), r.slots)
      else forall i :: 0 <= i < |r.slots| ==> WeakIn(h, Meet(F), r.slots[i], true)
  {
    var r, m := h.objs[o], TableMode(h, o);
    if r.kind != Table || m == Strong || m == Ephemeron {
      forall i | 0 <= i < |r.slots| ensures In(Meet(F), r.slots[i]) {
        forall X | X in F ensures In(X, r.slots[i]) { assert StrongIn(h, X, o, true) && SlotsIn(X, r.slots); }
        MeetIn(F, r.slots[i]);
      }
    } else {
      forall i | 0 <= i < |r.slots| ensures WeakIn(h, Meet(F), r.slots[i], true) {
        forall X | X in F ensures WeakIn(h, X, r.slots[i], true) { assert StrongIn(h, X, o, true); }
        MeetWeak(h, F, r.slots[i]);
      }
    }
  }

  lemma MeetRooted(w: World, F: iset<iset<Obj>>)
    requires forall X :: X in F ==> Rooted(w, X)
    ensures Rooted(w, Meet(F))
  {
    assert InAll(F, w.mainthread) && InAll(F, w.running);
    MeetIn(F, w.registry);
    forall i | 0 <= i < |w.mt| ensures In(Meet(F), w.mt[i]) {
      forall X | X in F ensures In(X, w.mt[i]) { assert Rooted(w, X); }
      MeetIn(F, w.mt[i]);
    }
    MeetList(F, w.tobefnz);
  }

  lemma MeetList(F: iset<iset<Obj>>, l: seq<Obj>)
    requires forall X :: X in F ==> ListIn(X, l)
    ensures ListIn(Meet(F), l)
  {
    forall o | o in l ensures InAll(F, o) { }
  }

  lemma MeetBounded(w: World, F: iset<iset<Obj>>)
    requires forall X :: X in F ==> Bounded(w, X)
    ensures Bounded(w, Meet(F))
  {
    MeetClosed(w.heap, w.stale, w.blind, F);
    forall o | o in Marked(w.color) ensures InAll(F, o) { }
  }

  // ----- the least sets are such sets -----

  /** What all limits have in common is a limit. */
  lemma MarksLimit(w: World)
    ensures Limits(w, Marks(w))
  {
    var F := iset X: iset<Obj> | Limits(w, X);
    MeetBounded(w, F);
    MeetRooted(w, F);
    MeetList(F, w.finobj);
    forall o ensures o in Meet(F) <==> o in Marks(w) { assert InAll(F, o) <==> InMarks(w, o); }
    assert Meet(F) == Marks(w);
  }

  lemma DrawnDraws(w: World)
    ensures Draws(w, Drawn(w))
  {
    var F := iset X: iset<Obj> | Draws(w, X);
    MeetBounded(w, F);
    MeetRooted(w, F);
    forall o ensures o in Meet(F) <==> o in Drawn(w) { assert InAll(F, o) <==> InDrawn(w, o); }
    assert Meet(F) == Drawn(w);
  }

  lemma HeldGrips(w: World)
    ensures Grips(w, Held(w))
  {
    var F := iset X: iset<Obj> | Grips(w, X);
    MeetClosed(w.heap, {}, map[], F);
    MeetRooted(w, F);
    MeetList(F, w.fixedgc);
    forall o ensures o in Meet(F) <==> o in Held(w) { assert InAll(F, o) <==> InHeld(w, o); }
    assert Meet(F) == Held(w);
  }

  // ----- a list in two parts -----

  /** The objects of `l` that are in `S`, in their order. */
  ghost function Within(l: seq<Obj>, S: iset<Obj>): seq<Obj> {
    if l == [] then []
    else
      var last := l[|l| - 1];
      Within(l[..|l| - 1], S) + if last in S then [last] else []
  }

  /** The others. */
  ghost function Outside(l: seq<Obj>, S: iset<Obj>): seq<Obj> {
    if l == [] then []
    else
      var last := l[|l| - 1];
      Outside(l[..|l| - 1], S) + if last in S then [] else [last]
  }

  lemma {:induction false} PartMembers(l: seq<Obj>, S: iset<Obj>)
    ensures forall o :: o in Within(l, S) <==> o in l && o in S
    ensures forall o :: o in Outside(l, S) <==> o in l && o !in S
  {
    if l != [] {
      PartMembers(l[..|l| - 1], S);
      assert l == l[..|l| - 1] + [l[|l| - 1]];
    }
  }
}
