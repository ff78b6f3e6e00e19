/** What a collection comes to when marking goes on from a given state; and a metatable set
    while its table waits in `allweak`, which the collector will not look at any more. */
module GcLate {
  import opened GcHeap
  import opened GcWorld
  import opened GcLimits
  import opened GcVisit
  import opened GcAtomic
  import opened GcState
  import opened GcPhases
  import opened GcSteps
  import opened GcMutator
  import opened GcObjects

  /** While the collector marks, the invariant holds for every limit. */
  lemma Relimited(w: World, X: iset<Obj>, Y: iset<Obj>)
    requires Loose(w, X) && MarkingPhase(w.phase) && Limits(w, Y)
    ensures Loose(w, Y)
  {
    LooseOut(w, X);
    MarkPhaseOut(w, X);
    Unfold(w, [], iset{}, X);
    assert MarkingKeyed(w, [], iset{}, Y);
    assert MarkPhaseKeyed(w, Y);
    LooseMark(w, Y);
  }

  /** Between collections, the limits are what a collection may be bounded by. */
  lemma PauseLimits(w: World, X: iset<Obj>)
    requires Loose(w, Everything()) && w.phase == Pause
    ensures Limits(w, X) <==> Kept(w, X)
  {
    LooseOut(w, Everything());
    PauseMarked(w);
  }

  // ----- a metatable that comes late -----

  ghost function Late(w: World, t: Obj, v: Value): World
    requires t in w.heap.objs
  {
    Stored(w, t, w.heap.objs[t].(meta := v)).(stale := w.stale + {t})
  }

  /** The metatables of the stale tables other than `t` are marked. */
  ghost predicate OthersMarked(w: World, t: Obj) {
    forall s :: s in w.stale && s != t && s in w.heap.objs ==> In(Marked(w.color), w.heap.objs[s].meta)
  }

  /** `t` becomes stale; apart from that the collector's invariant is kept. */
  lemma LateStored(w: World, t: Obj, v: Value, X: iset<Obj>)
    requires Valid(w, X) && MarkingPhase(w.phase) && t in w.allweak && t in w.heap.objs
    requires v.Ref? && In(Alive(w), v)
    ensures Loose(Late(w, t, v), X) && OthersMarked(Late(w, t, v), t)
    ensures t in Marked(w.color) && w.color[t] == Gray
  {
    LooseOut(w, X);
    MarkPhaseOut(w, X);
    LateGray(w, t, X);
    LateRecord(w, t, v, X);
    LateIntact(w, t, v);
    LateMarking(w, t, v, X);
    LateMarkKeyed(w, t, v, X);
    LooseMark(Late(w, t, v), X);
  }

  lemma LateGray(w: World, t: Obj, X: iset<Obj>)
    requires Marking(w, [], iset{}, X) && t in w.allweak
    ensures t in w.heap.objs && t in w.color && w.color[t] == Gray && w.heap.objs[t].kind == Table
  {
    Unfold(w, [], iset{}, X);
    InListed(w, t, []);
  }

  lemma LateIntact(w: World, t: Obj, v: Value)
    requires Intact(w) && t in w.heap.objs
    requires var r := w.heap.objs[t].(meta := v); Shaped(r) && RecordIn(w.heap, Alive(w), r)
    ensures Intact(Late(w, t, v))
  {
    var w1 := Stored(w, t, w.heap.objs[t].(meta := v));
    StoredIntact(w, t, w.heap.objs[t].(meta := v));
    IntactUnstale(w1, Late(w, t, v));
  }

  lemma LateRecord(w: World, t: Obj, v: Value, X: iset<Obj>)
    requires Valid(w, X) && MarkingPhase(w.phase) && t in w.allweak && t in w.heap.objs
    requires v.Ref? && In(Alive(w), v) && w.heap.objs[t].kind == Table && t in Marked(w.color)
    ensures var r := w.heap.objs[t].(meta := v);
      Shaped(r) && RecordIn(w.heap, Alive(w), r) && RecordIn(w.heap, Allocated(w.color), r)
    ensures t in w.stale || TableMode(w.heap, t) == AllWeak
  {
    LooseOut(w, X);
    IntactOut(w);
    MarkPhaseOut(w, X);
    assert t in Alive(w) && RefsIn(w.heap, Alive(w), t);
  }

  lemma LateMarking(w: World, t: Obj, v: Value, X: iset<Obj>)
    requires Marking(w, [], iset{}, X) && t in w.allweak && t in w.heap.objs && w.blind == map[]
    requires (t in w.stale || TableMode(w.heap, t) == AllWeak) && w.heap.objs[t].kind == Table
    requires var r := w.heap.objs[t].(meta := v);
      Shaped(r) && RecordIn(w.heap, Allocated(w.color), r)
    ensures Marking(Late(w, t, v), [], iset{}, X)
  {
    var w2 := Late(w, t, v);
    var r := w.heap.objs[t].(meta := v);
    Unfold(w, [], iset{}, X);
    StoredSound(w, t, r);
    SoundSame(Stored(w, t, r), w2);
    StoredListed(w, t, r);
    StaleListings(Stored(w, t, r), w2);
    LateTricolor(w, t, v);
    LateClosed(w, t, v, X);
    assert MarkingKeyed(w2, [], iset{}, X);
  }

  lemma LateTricolor(w: World, t: Obj, v: Value)
    requires Tricolor(w, [], iset{}) && GrayListed(w, [], iset{}) && t in w.heap.objs && w.blind == map[]
    requires Shaped(w.heap.objs[t].(meta := v))
    ensures Tricolor(Late(w, t, v), [], iset{}) && GrayListed(Late(w, t, v), [], iset{})
  {
    var w2 := Late(w, t, v);
    forall p | p in w2.heap.objs && p in w2.color && !w2.color[p].White? && p !in iset{}
      && !Pending(w2, [], p)
      ensures Visited(w2, p)
    {
      assert !Pending(w, [], p) && Visited(w, p);
      StoredModes(w.heap, t, w.heap.objs[t].(meta := v), w.heap.objs[p].meta);
      if p !in w2.stale { UpsSame(w.heap, w2.heap, Marked(w.color), w.heap.objs[p].ups); }
    }
    forall p | w.phase == Propagate && p in w2.color && w2.color[p] == Gray && p !in w2.fixedgc && p !in w2.blind
      ensures Pending(w2, [], p) || Cleared(w2, p)
    {
      assert Pending(w, [], p) || Cleared(w, p);
    }
  }

  lemma LateClosed(w: World, t: Obj, v: Value, X: iset<Obj>)
    requires Bounded(w, X) && w.blind == map[] && t in w.heap.objs
    requires t in w.stale || TableMode(w.heap, t) == AllWeak
    requires w.heap.objs[t].kind == Table && Shaped(w.heap.objs[t].(meta := v))
    ensures Bounded(Late(w, t, v), X)
  {
    var w2 := Late(w, t, v);
    assert forall q :: IsStr(w2.heap, q) == IsStr(w.heap, q);
    forall o | o in w2.heap.objs && o in X && o !in w2.blind
      ensures if o in w2.stale then StringsIn(w2.heap, X, o) else StrongIn(w2.heap, X, o, true)
    {
      if o in w2.stale { LateStrings(w, t, v, X, o); } else { LateStrong(w, t, v, X, o); }
    }
  }

  lemma LateStrings(w: World, t: Obj, v: Value, X: iset<Obj>, o: Obj)
    requires t in w.heap.objs && w.heap.objs[t].kind == Table && o in w.heap.objs && (o in w.stale || o == t)
    requires if o in w.stale then StringsIn(w.heap, X, o) else StrongIn(w.heap, X, o, true)
    requires o !in w.stale ==> TableMode(w.heap, o) == AllWeak
    ensures StringsIn(Late(w, t, v).heap, X, o)
  {
    var w2, r := Late(w, t, v), w.heap.objs[o];
    assert forall q :: IsStr(w2.heap, q) == IsStr(w.heap, q);
    forall i | 0 <= i < |r.nodes| ensures EntryIn(w2.heap, X, AllWeak, r.nodes[i], true) {
      assert EntryIn(w.heap, X, AllWeak, r.nodes[i], true);
    }
    forall i | 0 <= i < |r.slots| ensures WeakIn(w2.heap, X, r.slots[i], true) {
      assert WeakIn(w.heap, X, r.slots[i], true);
    }
  }

  lemma LateStrong(w: World, t: Obj, v: Value, X: iset<Obj>, o: Obj)
    requires t in w.heap.objs && o in w.heap.objs && o != t && StrongIn(w.heap, X, o, true)
    requires Shaped(w.heap.objs[t].(meta := v))
    ensures StrongIn(Late(w, t, v).heap, X, o, true)
  {
    var w2, r, m := Late(w, t, v), w.heap.objs[o], TableMode(w.heap, o);
    assert forall q :: IsStr(w2.heap, q) == IsStr(w.heap, q);
    StoredModes(w.heap, t, w.heap.objs[t].(meta := v), r.meta);
    UpsSame(w.heap, w2.heap, X, r.ups);
    forall i | 0 <= i < |r.nodes| && r.kind == Table ensures EntryIn(w2.heap, X, m, r.nodes[i], true) {
      assert EntryIn(w.heap, X, m, r.nodes[i], true);
    }
    forall i | 0 <= i < |r.slots| && r.kind == Table && (m == WeakValues || m == AllWeak)
      ensures WeakIn(w2.heap, X, r.slots[i], true)
    {
      assert WeakIn(w.heap, X, r.slots[i], true);
    }
  }

  lemma LateMarkKeyed(w: World, t: Obj, v: Value, X: iset<Obj>)
    requires MarkPhaseKeyed(w, X) && t in w.heap.objs
    requires Shaped(w.heap.objs[t].(meta := v))
    ensures MarkPhaseKeyed(Late(w, t, v), X)
  {
    var w2 := Late(w, t, v);
    assert Alive(w2) == Alive(w);
    forall p | p in w2.allweak && p in w2.heap.objs && p !in w2.stale
      ensures TableMode(w2.heap, p) == AllWeak
    {
      StoredModes(w.heap, t, w.heap.objs[t].(meta := v), w.heap.objs[p].meta);
      assert TableMode(w.heap, p) == AllWeak;
    }
    forall p | p in w2.color && w2.color[p] == Gray && p !in w2.fixedgc && p !in w2.blind
      ensures Pending(w2, [], p) || Cleared(w2, p)
    {
      assert Pending(w, [], p) || Cleared(w, p);
    }
  }

  /** From the store to the end of the atomic step: `t` has a live metatable exactly when
      marking comes to that metatable without `t`. */
  lemma LateOutcome(w0: World, w1: World, w2: World, t: Obj, m: Obj)
    requires Intact(w1) && Alive(w1) == Allocated(w1.color) && Progress(w0, w1)
    requires Flipped(w1, w2, Marks(w0)) && w0.blind == map[] && OthersMarked(w0, t) && t in w0.stale
    requires t in w0.heap.objs && w0.heap.objs[t].meta == Ref(m) && t in Marked(w0.color)
    requires !IsStr(w0.heap, Ref(m))
    ensures t in w2.heap.objs && w2.heap.objs[t].meta == Ref(m) && t in Alive(w2)
    ensures m in Alive(w2) <==> m in Marks(w0)
    ensures Sealed(w2) <==> m in Marks(w0)
  {
    FlippedOut(w1, w2, Marks(w0));
    LateKept(w0, w1, w2, t);
    FlippedAlive(w1, w2);
    LateSpared(w0, w1, w2, m);
    LateOthers(w0, w1, w2, t);
    if Sealed(w2) { assert RefsIn(w2.heap, Alive(w2), t); }
    if m in Alive(w2) {
      assert StaleMarked(w2);
      FlippedSealed(w1, w2, Marks(w0));
    }
  }

  lemma LateSpared(w0: World, w1: World, w2: World, m: Obj)
    requires Progress(w0, w1) && FlippedKeyed(w1, w2, Marks(w0)) && !IsStr(w0.heap, Ref(m))
    ensures m in Marked(w2.color) <==> m in Marks(w0)
  {
    ProgressOut(w0, w1);
    MarksTidied(w0, w1);
    SameStr(w0.heap, w1.heap, Ref(m));
  }

  lemma LateOthers(w0: World, w1: World, w2: World, t: Obj)
    requires Progress(w0, w1) && OnlyMarks(w1.color, w2.color) && Trimmed(w1.heap, w2.heap)
    requires OthersMarked(w0, t) && w2.stale == w0.stale
    ensures OthersMarked(w2, t)
  {
    ProgressOut(w0, w1);
    forall s | s in w2.stale && s != t && s in w2.heap.objs ensures In(Marked(w2.color), w2.heap.objs[s].meta) {
      assert RecordTrimmed(w0.heap.objs[s], w1.heap.objs[s]);
      assert RecordTrimmed(w1.heap.objs[s], w2.heap.objs[s]);
    }
  }

  lemma LateKept(w0: World, w1: World, w2: World, t: Obj)
    requires Progress(w0, w1) && OnlyMarks(w1.color, w2.color) && Trimmed(w1.heap, w2.heap)
    requires t in w0.heap.objs && t in Marked(w0.color)
    ensures t in w2.heap.objs && w2.heap.objs[t].meta == w0.heap.objs[t].meta && t in Marked(w2.color)
  {
    ProgressOut(w0, w1);
    assert RecordTrimmed(w0.heap.objs[t], w1.heap.objs[t]);
    assert RecordTrimmed(w1.heap.objs[t], w2.heap.objs[t]);
  }
}
