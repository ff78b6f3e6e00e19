/** Clearing weak tables, and what the atomic step leaves behind. */
module GcClear {
  import opened Prelude
  import opened GcHeap
  import opened GcWorld
  import opened GcLimits
  import opened GcVisit

  /** From `w` to `w2` only strings were marked, and only entries with an unmarked key
      or value were emptied. */
  ghost predicate Clean(w: World, w2: World) {
    && w2 == w.(heap := w2.heap, color := w2.color)
    && forall k :: Key(k) ==> CleanKeyed(w, w2)
  }

  ghost predicate CleanKeyed(w: World, w2: World) {
    && Cleaned(w.heap, w2.heap, Marked(w.color))
    && w2.color.Keys == w.color.Keys && OnlyMarks(w.color, w2.color)
    && (forall o :: o in w.color && !w.color[o].White? ==> w2.color[o] == w.color[o])
    && StringsKeyed(w, w2)
  }

  lemma CleanOut(w: World, w2: World)
    requires Clean(w, w2)
    ensures CleanKeyed(w, w2) && Marked(w.color) <= Marked(w2.color)
  {
    assert Key(0);
  }

  lemma CleanTransitive(w: World, w1: World, w2: World)
    requires Clean(w, w1) && Clean(w1, w2) && w.color.Keys == w.heap.objs.Keys
    ensures Clean(w, w2)
  {
    CleanOut(w, w1);
    CleanOut(w1, w2);
    CleanedTransitive(w.heap, w1.heap, w2.heap, Marked(w.color), Marked(w1.color));
    StringsKeyedTransitive(w, w1, w2);
  }

  lemma StringsKeyedTransitive(w: World, w1: World, w2: World)
    requires StringsKeyed(w, w1) && StringsKeyed(w1, w2) && Trimmed(w.heap, w1.heap)
    requires w1.color.Keys == w.color.Keys && w.color.Keys <= w.heap.objs.Keys
    requires forall o :: o in w.color && !w.color[o].White? ==> w1.color[o] == w.color[o]
    ensures StringsKeyed(w, w2)
  {
    forall o | o in w.color && o in w.heap.objs && w.color[o].White? && o in Marked(w2.color)
      ensures w.heap.objs[o].kind == Str
    {
      assert RecordTrimmed(w.heap.objs[o], w1.heap.objs[o]);
    }
  }

  lemma StringsClean(w: World, w2: World)
    requires Strings(w, w2)
    ensures Clean(w, w2)
  {
    SpreadOut(w, w2);
    StringsOut(w, w2);
    TidiedCleaned(w.heap, w2.heap, Marked(w.color));
  }

  lemma OneCleaned(w: World, o: Obj, r: Object, todo: seq<Obj>, busy: iset<Obj>, X: iset<Obj>)
    requires Marking(w, todo, busy, X) && o in w.heap.objs && RecordTrimmed(w.heap.objs[o], r)
    requires CleanRecord(w.heap, w.heap.objs[o], r, Marked(w.color))
    requires o !in w.blind
    ensures var w2 := w.(heap := w.heap.(objs := w.heap.objs[o := r]));
      Marking(w2, todo, busy, X) && Clean(w, w2)
  {
    var h2 := w.heap.(objs := w.heap.objs[o := r]);
    OneTrimmed(w.heap, o, r, Marked(w.color));
    TrimMarking(w, w.(heap := h2), todo, busy, X);
    assert StringsKeyed(w, w.(heap := h2));
    assert CleanKeyed(w, w.(heap := h2));
  }

  lemma OneTrimmed(h: Heap, o: Obj, r: Object, M: iset<Obj>)
    requires o in h.objs && RecordTrimmed(h.objs[o], r) && CleanRecord(h, h.objs[o], r, M)
    ensures Cleaned(h, h.(objs := h.objs[o := r]), M)
  {
  }

  /** Emptying entry `i`, whose key or value is unmarked. */
  lemma NodeCleared(w: World, o: Obj, i: nat, todo: seq<Obj>, busy: iset<Obj>, X: iset<Obj>)
    requires Marking(w, todo, busy, X) && i < |NodesOf(w, o)| && o !in w.blind
    requires var n := NodesOf(w, o)[i];
      Droppable(w.heap, Marked(w.color), n.key) || Droppable(w.heap, Marked(w.color), n.val)
    ensures var w2 := w.(heap := SetNode(w.heap, o, i, Node(NodesOf(w, o)[i].key, Nil)));
      Marking(w2, todo, busy, X) && Clean(w, w2) && NodeStep(w, w2, o, i) && SlotsOf(w2, o) == SlotsOf(w, o)
  {
    var r := w.heap.objs[o];
    OneCleaned(w, o, r.(nodes := r.nodes[i := Node(r.nodes[i].key, Nil)]), todo, busy, X);
  }

  lemma SlotCleared(w: World, o: Obj, i: nat, todo: seq<Obj>, busy: iset<Obj>, X: iset<Obj>)
    requires Marking(w, todo, busy, X) && i < |SlotsOf(w, o)| && o !in w.blind
    requires w.heap.objs[o].kind == Table && Droppable(w.heap, Marked(w.color), SlotsOf(w, o)[i])
    ensures var w2 := w.(heap := SetSlot(w.heap, o, i, Nil));
      && Marking(w2, todo, busy, X) && Clean(w, w2)
      && SlotsOf(w2, o) == SlotsOf(w, o)[i := Nil] && NodesOf(w2, o) == NodesOf(w, o)
  {
    var r := w.heap.objs[o];
    OneCleaned(w, o, r.(slots := r.slots[i := Nil]), todo, busy, X);
  }

  lemma CleanKeysStep(w: World, w2: World, o: Obj, i: nat)
    requires Clean(w, w2) && NodeStep(w, w2, o, i)
    requires KeysIn(Marked(w.color), NodesOf(w, o)[..i])
    requires In(Marked(w2.color), NodesOf(w2, o)[i].key)
    ensures KeysIn(Marked(w2.color), NodesOf(w2, o)[..i + 1])
  {
    CleanOut(w, w2);
    KeysGrow(w, w2, o, i);
  }

  lemma CleanValsStep(w: World, w2: World, o: Obj, i: nat)
    requires Clean(w, w2) && NodeStep(w, w2, o, i)
    requires ValsIn(Marked(w.color), NodesOf(w, o)[..i])
    requires In(Marked(w2.color), NodesOf(w2, o)[i].val)
    ensures ValsIn(Marked(w2.color), NodesOf(w2, o)[..i + 1])
  {
    CleanOut(w, w2);
    ValsGrow(w, w2, o, i);
  }

  lemma NodeStepTransitive(w: World, w1: World, w2: World, o: Obj, i: nat)
    requires NodeStep(w, w1, o, i) && NodeStep(w1, w2, o, i)
    ensures NodeStep(w, w2, o, i)
  {
  }

  lemma CleanSlotsStep(w: World, w2: World, o: Obj, i: nat)
    requires Clean(w, w2) && i < |SlotsOf(w, o)|
    requires SlotsOf(w2, o) == SlotsOf(w, o) || SlotsOf(w2, o) == SlotsOf(w, o)[i := Nil]
    requires SlotsIn(Marked(w.color), SlotsOf(w, o)[..i])
    requires In(Marked(w2.color), SlotsOf(w2, o)[i])
    ensures SlotsIn(Marked(w2.color), SlotsOf(w2, o)[..i + 1])
  {
    CleanOut(w, w2);
    var t := SlotsOf(w2, o)[..i + 1];
    forall k | 0 <= k < |t| ensures In(Marked(w2.color), t[k]) {
      if k < i { assert t[k] == SlotsOf(w, o)[..i][k]; }
    }
  }

  // ----- which entries clearing by values drops -----

  /** Only tables in `l` lost entries, and only entries and slots with an unmarked value. */
  ghost predicate Drops(w: World, w2: World, l: seq<Obj>) {
    Clean(w, w2) && forall k :: Key(k) ==> DropsKeyed(w, w2, l)
  }

  ghost predicate DropsKeyed(w: World, w2: World, l: seq<Obj>) {
    forall o :: o in w.heap.objs && o in w2.heap.objs ==>
      && (o in l || w2.heap.objs[o] == w.heap.objs[o])
      && DropsRecord(w.heap, w.heap.objs[o], w2.heap.objs[o], Marked(w.color))
  }

  ghost predicate DropsRecord(h: Heap, r: Object, r2: Object, M: iset<Obj>) {
    && |r2.slots| == |r.slots| && |r2.nodes| == |r.nodes|
    && (forall i :: 0 <= i < |r.slots| ==> r2.slots[i] == r.slots[i] || Droppable(h, M, r.slots[i]))
    && (forall i :: 0 <= i < |r.nodes| ==>
          r.nodes[i].val == Nil || r2.nodes[i] == r.nodes[i] || Droppable(h, M, r.nodes[i].val))
  }

  lemma DropsOut(w: World, w2: World, l: seq<Obj>)
    requires Drops(w, w2, l)
    ensures DropsKeyed(w, w2, l)
  {
    assert Key(0);
  }

  lemma DropsMore(w: World, w2: World, l: seq<Obj>, m: seq<Obj>)
    requires Drops(w, w2, l) && forall o :: o in l ==> o in m
    ensures Drops(w, w2, m)
  {
    DropsOut(w, w2, l);
    assert DropsKeyed(w, w2, m);
  }

  lemma DropsTransitive(w: World, w1: World, w2: World, l: seq<Obj>)
    requires Drops(w, w1, l) && Drops(w1, w2, l) && w.color.Keys == w.heap.objs.Keys
    ensures Drops(w, w2, l)
  {
    CleanTransitive(w, w1, w2);
    DropsOut(w, w1, l);
    DropsOut(w1, w2, l);
    CleanOut(w, w1);
    CleanOut(w1, w2);
    forall o | o in w.heap.objs && o in w2.heap.objs
      ensures o in l || w2.heap.objs[o] == w.heap.objs[o]
      ensures DropsRecord(w.heap, w.heap.objs[o], w2.heap.objs[o], Marked(w.color))
    {
      DropsRecordTransitive(w, w1, w.heap.objs[o], w1.heap.objs[o], w2.heap.objs[o]);
    }
    assert DropsKeyed(w, w2, l);
  }

  lemma DropsRecordTransitive(w: World, w1: World, r: Object, r1: Object, r2: Object)
    requires Trimmed(w.heap, w1.heap) && Marked(w.color) <= Marked(w1.color)
    requires RecordTrimmed(r, r1)
    requires DropsRecord(w.heap, r, r1, Marked(w.color)) && DropsRecord(w1.heap, r1, r2, Marked(w1.color))
    ensures DropsRecord(w.heap, r, r2, Marked(w.color))
  {
    forall i | 0 <= i < |r.slots|
      ensures r2.slots[i] == r.slots[i] || Droppable(w.heap, Marked(w.color), r.slots[i])
    {
      SameStr(w.heap, w1.heap, r1.slots[i]);
    }
    forall i | 0 <= i < |r.nodes|
      ensures r.nodes[i].val == Nil || r2.nodes[i] == r.nodes[i]
        || Droppable(w.heap, Marked(w.color), r.nodes[i].val)
    {
      SameStr(w.heap, w1.heap, r1.nodes[i].val);
    }
  }

  /** Marking strings drops nothing. */
  lemma StringsDrop(w: World, w2: World, l: seq<Obj>)
    requires Strings(w, w2) && w2.heap == w.heap
    ensures Drops(w, w2, l)
  {
    StringsClean(w, w2);
    assert DropsKeyed(w, w2, l);
  }

  /** Only the record of `o` changed. */
  lemma OneDropped(w: World, w2: World, o: Obj, r: Object)
    requires Clean(w, w2) && o in w.heap.objs && w2.heap == w.heap.(objs := w.heap.objs[o := r])
    requires DropsRecord(w.heap, w.heap.objs[o], r, Marked(w.color))
    ensures Drops(w, w2, [o])
  {
    assert DropsKeyed(w, w2, [o]);
  }

  /** Entry `i` had an unmarked value and is now empty. */
  lemma EntryDropped(w: World, w2: World, o: Obj, i: nat)
    requires Clean(w, w2) && NodeStep(w, w2, o, i) && o in w.heap.objs && SlotsOf(w2, o) == SlotsOf(w, o)
    requires forall p :: p in w.heap.objs && p != o ==> p in w2.heap.objs && w2.heap.objs[p] == w.heap.objs[p]
    requires Droppable(w.heap, Marked(w.color), NodesOf(w, o)[i].val)
    ensures Drops(w, w2, [o])
  {
    CleanOut(w, w2);
    forall p | p in w.heap.objs && p in w2.heap.objs
      ensures p in [o] || w2.heap.objs[p] == w.heap.objs[p]
      ensures DropsRecord(w.heap, w.heap.objs[p], w2.heap.objs[p], Marked(w.color))
    {
    }
    assert DropsKeyed(w, w2, [o]);
  }

  // ----- clearing the tables of a list -----

  /** `o` is a marked table; the values of an ephemeron table are marked. */
  ghost predicate Clearable(w: World, o: Obj) {
    && MarkedTable(w, o)
    && (o in w.stale || TableMode(w.heap, o) != Ephemeron || ValsIn(Marked(w.color), NodesOf(w, o)))
  }

  ghost predicate MarkedTable(w: World, o: Obj) {
    o in w.heap.objs && w.heap.objs[o].kind == Table && o in Marked(w.color) && o !in w.blind
  }

  ghost predicate AllMarkedTables(w: World, l: seq<Obj>) {
    forall o :: o in l ==> MarkedTable(w, o)
  }

  ghost predicate AllClearable(w: World, l: seq<Obj>) {
    forall o :: o in l ==> Clearable(w, o)
  }

  ghost predicate KeysCleared(w: World, l: seq<Obj>) {
    forall o :: o in l ==> KeysIn(Marked(w.color), NodesOf(w, o))
  }

  ghost predicate ValsCleared(w: World, l: seq<Obj>) {
    forall o :: o in l ==> SlotsIn(Marked(w.color), SlotsOf(w, o)) && ValsIn(Marked(w.color), NodesOf(w, o))
  }

  /** What is cleared stays cleared. */
  ghost predicate Shrinks(w: World, w2: World) {
    Trimmed(w.heap, w2.heap) && Marked(w.color) <= Marked(w2.color) && w2.stale == w.stale && w2.blind == w.blind
  }

  lemma TableKept(w: World, w2: World, o: Obj)
    requires Shrinks(w, w2) && o in w.heap.objs
    ensures o in w2.heap.objs && w2.heap.objs[o].kind == w.heap.objs[o].kind
    ensures TableMode(w2.heap, o) == TableMode(w.heap, o)
    ensures KeysIn(Marked(w.color), NodesOf(w, o)) ==> KeysIn(Marked(w2.color), NodesOf(w2, o))
    ensures ValsIn(Marked(w.color), NodesOf(w, o)) ==> ValsIn(Marked(w2.color), NodesOf(w2, o))
    ensures SlotsIn(Marked(w.color), SlotsOf(w, o)) ==> SlotsIn(Marked(w2.color), SlotsOf(w2, o))
  {
    assert RecordTrimmed(w.heap.objs[o], w2.heap.objs[o]);
    TrimmedParts(w.heap, w2.heap, Marked(w2.color), o);
    PartsGrow(w.heap, Marked(w.color), Marked(w2.color), w.heap.objs[o]);
  }

  lemma ListsKept(w: World, w2: World, l: seq<Obj>)
    requires Shrinks(w, w2) && AllMarkedTables(w, l)
    ensures AllMarkedTables(w2, l)
    ensures AllClearable(w, l) ==> AllClearable(w2, l)
    ensures KeysCleared(w, l) ==> KeysCleared(w2, l)
    ensures ValsCleared(w, l) ==> ValsCleared(w2, l)
  {
    forall o | o in l
      ensures MarkedTable(w2, o)
      ensures Clearable(w, o) ==> Clearable(w2, o)
      ensures KeysIn(Marked(w.color), NodesOf(w, o)) ==> KeysIn(Marked(w2.color), NodesOf(w2, o))
      ensures SlotsIn(Marked(w.color), SlotsOf(w, o)) && ValsIn(Marked(w.color), NodesOf(w, o)) ==>
        SlotsIn(Marked(w2.color), SlotsOf(w2, o)) && ValsIn(Marked(w2.color), NodesOf(w2, o))
    {
      assert MarkedTable(w, o);
      TableKept(w, w2, o);
    }
  }

  lemma KeysClearedStep(w: World, w2: World, l: seq<Obj>, i: nat)
    requires Clean(w, w2) && AllMarkedTables(w, l) && i < |l|
    requires KeysCleared(w, l[..i]) && KeysIn(Marked(w2.color), NodesOf(w2, l[i]))
    ensures AllMarkedTables(w2, l) && KeysCleared(w2, l[..i + 1])
  {
    CleanShrinks(w, w2);
    ListsKept(w, w2, l);
    forall o | o in l[..i + 1] ensures KeysIn(Marked(w2.color), NodesOf(w2, o)) {
      if o in l[..i] {
        assert o in l && MarkedTable(w, o);
        TableKept(w, w2, o);
      } else {
        assert o == l[i];
      }
    }
  }

  lemma ValsClearedStep(w: World, w2: World, l: seq<Obj>, i: nat)
    requires Clean(w, w2) && AllClearable(w, l) && i < |l|
    requires ValsCleared(w, l[..i])
    requires SlotsIn(Marked(w2.color), SlotsOf(w2, l[i])) && ValsIn(Marked(w2.color), NodesOf(w2, l[i]))
    ensures AllClearable(w2, l) && ValsCleared(w2, l[..i + 1])
  {
    CleanShrinks(w, w2);
    assert forall o :: o in l ==> MarkedTable(w, o);
    ListsKept(w, w2, l);
    forall o | o in l[..i + 1]
      ensures SlotsIn(Marked(w2.color), SlotsOf(w2, o)) && ValsIn(Marked(w2.color), NodesOf(w2, o))
    {
      if o in l[..i] {
        assert o in l && MarkedTable(w, o);
        TableKept(w, w2, o);
      } else {
        assert o == l[i];
      }
    }
  }

  lemma MarkedTableKept(w: World, w2: World, o: Obj)
    requires Clean(w, w2) && MarkedTable(w, o)
    ensures MarkedTable(w2, o) && (Clearable(w, o) ==> Clearable(w2, o))
  {
    CleanShrinks(w, w2);
    TableKept(w, w2, o);
  }

  lemma CleanShrinks(w: World, w2: World)
    requires Clean(w, w2)
    ensures Shrinks(w, w2)
  {
    CleanOut(w, w2);
  }

  /** What clearing an entry or a slot of table `o` needs to know. */
  lemma ClearBound(w: World, o: Obj, todo: seq<Obj>, busy: iset<Obj>, X: iset<Obj>)
    requires Marking(w, todo, busy, X) && MarkedTable(w, o)
    ensures forall i :: 0 <= i < |NodesOf(w, o)| && NodesOf(w, o)[i].val != Nil ==>
      In(Allocated(w.color), NodesOf(w, o)[i].key) && WeakIn(w.heap, X, NodesOf(w, o)[i].key, true)
    ensures forall i :: 0 <= i < |SlotsOf(w, o)| ==>
      In(Allocated(w.color), SlotsOf(w, o)[i]) && WeakIn(w.heap, X, SlotsOf(w, o)[i], true)
    ensures Clearable(w, o) ==> forall i :: 0 <= i < |NodesOf(w, o)| && NodesOf(w, o)[i].val != Nil ==>
      In(Allocated(w.color), NodesOf(w, o)[i].val) && WeakIn(w.heap, X, NodesOf(w, o)[i].val, true)
  {
    InBound(w, o, todo, busy, X);
    Unfold(w, todo, busy, X);
    forall i | 0 <= i < |NodesOf(w, o)| && NodesOf(w, o)[i].val != Nil
      ensures WeakIn(w.heap, X, NodesOf(w, o)[i].key, true)
      ensures Clearable(w, o) ==> WeakIn(w.heap, X, NodesOf(w, o)[i].val, true)
    {
      if o in w.stale {
        assert EntryIn(w.heap, X, AllWeak, NodesOf(w, o)[i], true);
      } else {
        assert EntryIn(w.heap, X, TableMode(w.heap, o), NodesOf(w, o)[i], true);
      }
    }
  }
}
