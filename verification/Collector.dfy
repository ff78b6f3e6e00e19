/** The incremental mark-and-sweep collector. */
module Collector {
  import opened Prelude
  import opened GcHeap
  import opened GcWorld
  import opened GcLimits
  import opened GcVisit
  import opened GcClear
  import opened GcAtomic
  import opened GcState
  import opened GcPhases
  import opened GcSteps
  import opened GcMutator
  import opened GcObjects
  import opened GcFinalizers
  import opened GcLate
  import opened GcMissed

  // sizes on a 64-bit machine
  const SIZEOF_TSTRING: nat := 24
  const GCSTEPSIZE: nat := 100 * SIZEOF_TSTRING
  const GCSWEEPCOST: nat := (SIZEOF_TSTRING + 4) / 4
  const GCSWEEPMAX: nat := (GCSTEPSIZE / GCSWEEPCOST) / 4

  class GlobalState {
    var heap: Heap
    var color: map<Obj, Color>
    var fin: set<Obj>
    var currentwhite: bool
    var gcstate: Phase
    var allgc: seq<Obj>
    var finobj: seq<Obj>
    var tobefnz: seq<Obj>
    var fixedgc: seq<Obj>
    var gray: seq<Obj>
    var grayagain: seq<Obj>
    var weak: seq<Obj>
    var ephemeron: seq<Obj>
    var allweak: seq<Obj>
    ghost var stale: set<Obj>
    ghost var blind: map<Obj, Object>
    var sweepgc: Cursor
    var mainthread: Obj
    var running: Obj
    var registry: Value
    var mt: seq<Value>
    var memerrmsg: Obj
    var strcache: seq<Obj>
    var gcfinnum: nat
    var emergency: bool

    ghost function Now(): World
      reads this
    {
      World(heap, color, fin, currentwhite, gcstate, allgc, finobj, tobefnz, fixedgc,
            gray, grayagain, weak, ephemeron, allweak, stale, blind, sweepgc, mainthread, running,
            registry, mt, memerrmsg, strcache, gcfinnum, emergency)
    }

    /** The state of `w`. */
    constructor (w: World)
      ensures Now() == w
    {
      heap, color, fin, currentwhite, gcstate := w.heap, w.color, w.fin, w.white, w.phase;
      allgc, finobj, tobefnz, fixedgc := w.allgc, w.finobj, w.tobefnz, w.fixedgc;
      gray, grayagain, weak, ephemeron := w.gray, w.grayagain, w.weak, w.ephemeron;
      allweak, stale, blind, sweepgc, mainthread := w.allweak, w.stale, w.blind, w.sweepgc, w.mainthread;
      running, registry, mt, memerrmsg := w.running, w.registry, w.mt, w.memerrmsg;
      strcache, gcfinnum, emergency := w.strcache, w.gcfinnum, w.emergency;
    }

    // ----- marking -----

    predicate IsWhite(v: Value)
      reads this
    {
      v.Ref? && v.o in color && color[v.o].White?
    }

    method MarkValue(v: Value, ghost todo: seq<Obj>, ghost busy: iset<Obj>, ghost X: iset<Obj>)
      requires Marking(Now(), todo, busy, X)
      requires In(Allocated(color), v) && In(X, v)
      modifies this`color, this`gray
      ensures Marking(Now(), todo, busy, X) && Spread(old(Now()), Now())
      ensures In(Marked(color), v)
      ensures old(IsWhite(v)) ==> |Whites(color)| < old(|Whites(color)|)
      ensures !old(IsWhite(v)) ==> Now() == old(Now())
      decreases |Whites(color)|, 4
    {
      NoSpread(Now());
      if IsWhite(v) {
        ReallyMarkObject(v.o, todo, busy, X);
      }
    }

    method MarkSimple(o: Obj, ghost todo: seq<Obj>, ghost busy: iset<Obj>, ghost X: iset<Obj>)
      requires Marking(Now(), todo, busy, X)
      requires IsWhite(Ref(o)) && o in X && heap.objs[o].kind != Udata
      modifies this`color, this`gray
      ensures Marking(Now(), todo, busy, X) && Spread(old(Now()), Now())
      ensures o in Marked(color) && |Whites(color)| < old(|Whites(color)|)
    {
      ghost var w := Now();
      if heap.objs[o].kind == Str {
        color := color[o := Black];
        assert Now() == w.(color := w.color[o := Black]);
        MarkedBlack(w, o, todo, busy, X);
      } else {
        color, gray := color[o := Gray], [o] + gray;
        assert Now() == w.(color := w.color[o := Gray], gray := [o] + w.gray);
        MarkedGray(w, o, todo, busy, X);
      }
    }

    /** Nothing looks at the colour of the userdata while its metatable is marked. */
    method MarkUserdata(o: Obj, ghost todo: seq<Obj>, ghost busy: iset<Obj>, ghost X: iset<Obj>)
      requires Marking(Now(), todo, busy, X)
      requires IsWhite(Ref(o)) && o in X && heap.objs[o].kind == Udata
      modifies this`color, this`gray
      ensures Marking(Now(), todo, busy + iset{o}, X) && Spread(old(Now()), Now())
      ensures o in color && color[o] == Black && |Whites(color)| < old(|Whites(color)|)
      ensures In(Marked(color), heap.objs[o].meta)
      decreases |Whites(color)|, 0
    {
      ghost var w := Now();
      color := color[o := Black];
      assert Now() == w.(color := w.color[o := Black]);
      MarkedBlack(w, o, todo, busy, X);
      ghost var w1 := Now();
      InBound(w1, o, todo, busy + iset{o}, X);
      MarkValue(heap.objs[o].meta, todo, busy + iset{o}, X);
      SpreadTransitive(w, w1, Now());
      SpreadOut(w1, Now());
    }

    /** Marks `o`; tells whether it is a userdata whose user value is still to be marked. */
    method MarkOne(o: Obj, ghost todo: seq<Obj>, ghost busy: iset<Obj>, ghost X: iset<Obj>)
      returns (reentry: bool)
      requires Marking(Now(), todo, busy, X)
      requires IsWhite(Ref(o)) && o in X
      modifies this`color, this`gray
      ensures Marking(Now(), todo, busy + if reentry then iset{o} else iset{}, X)
      ensures Spread(old(Now()), Now())
      ensures o in Marked(color) && |Whites(color)| < old(|Whites(color)|)
      ensures reentry ==> |heap.objs[o].slots| == 1 && IsWhite(heap.objs[o].slots[0])
      ensures reentry ==> heap.objs[o].slots[0].o in X && Awaits(Now(), o, heap.objs[o].slots[0].o)
      decreases |Whites(color)|, 1
    {
      assert busy + iset{} == busy;
      reentry := false;
      if heap.objs[o].kind == Udata {
        MarkUserdata(o, todo, busy, X);
        InBound(Now(), o, todo, busy + iset{o}, X);
        var user := heap.objs[o].slots[0];
        assert heap.objs[o].slots == [user];
        reentry := IsWhite(user);
        if !reentry {
          Unfold(Now(), todo, busy + iset{o}, X);
          UserdataVisited(Now(), o, todo);
          Done(Now(), o, todo, busy, X);
        }
      } else {
        MarkSimple(o, todo, busy, X);
      }
    }

    /** The same when the userdata `u` waits for `o` to be marked. */
    method MarkNext(o: Obj, ghost u: Obj, ghost hold: iset<Obj>, ghost todo: seq<Obj>,
                    ghost busy: iset<Obj>, ghost X: iset<Obj>)
      returns (reentry: bool, next: Obj)
      requires Marking(Now(), todo, hold, X) && Chained(Now(), u, o, busy, hold)
      requires IsWhite(Ref(o)) && o in X
      modifies this`color, this`gray
      ensures Spread(old(Now()), Now()) && o in Marked(color)
      ensures |Whites(color)| < old(|Whites(color)|)
      ensures !reentry ==> Marking(Now(), todo, busy, X)
      ensures reentry ==> Marking(Now(), todo, busy + iset{o}, X) && Awaits(Now(), o, next)
      ensures reentry ==> IsWhite(Ref(next)) && next in X
      decreases |Whites(color)|, 2
    {
      ghost var w := Now();
      next := o;
      reentry := MarkOne(o, todo, hold, X);
      if reentry {
        ChainStep(w, Now(), u, o, busy, hold, todo, iset{o}, X);
        next := heap.objs[o].slots[0].o;
      } else {
        ChainStep(w, Now(), u, o, busy, hold, todo, iset{}, X);
        assert busy + iset{} == busy;
      }
    }

    /** Marks `start`, and goes on from a userdata to its user value. */
    method ReallyMarkObject(start: Obj, ghost todo: seq<Obj>, ghost busy: iset<Obj>, ghost X: iset<Obj>)
      requires Marking(Now(), todo, busy, X)
      requires IsWhite(Ref(start)) && start in X
      modifies this`color, this`gray
      ensures Marking(Now(), todo, busy, X) && Spread(old(Now()), Now())
      ensures start in Marked(color)
      ensures |Whites(color)| < old(|Whites(color)|)
      decreases |Whites(color)|, 3
    {
      ghost var w0 := Now();
      var o := start;
      var reentry := true;
      ghost var u, hold := o, busy;   // the userdata whose user value is `o`, if any
      NoSpread(w0);
      while reentry
        invariant Spread(w0, Now())
        invariant reentry ==> Marking(Now(), todo, hold, X) && Chained(Now(), u, o, busy, hold)
        invariant reentry ==> IsWhite(Ref(o)) && o in X
        invariant !reentry ==> Marking(Now(), todo, busy, X)
        invariant (reentry && o == start) || start in Marked(color)
        decreases |Whites(color)|, reentry
      {
        ghost var w := Now();
        var next;
        reentry, next := MarkNext(o, u, hold, todo, busy, X);
        SpreadTransitive(w0, w, Now());
        SpreadIn(w, Now(), Ref(start));
        u, hold, o := o, busy + iset{o}, next;
      }
      NowMarked(w0, Now(), start);
    }

    // ----- traversing one object -----

    /** Marks what the slots of `o` hold; tells whether that marked anything. */
    method MarkSlots(o: Obj, ghost todo: seq<Obj>, ghost X: iset<Obj>) returns (marked: bool)
      requires Marking(Now(), todo, iset{o}, X) && o in Marked(color)
      requires SlotsIn(X, heap.objs[o].slots)
      modifies this`color, this`gray
      ensures Marking(Now(), todo, iset{o}, X) && Spread(old(Now()), Now())
      ensures SlotsIn(Marked(color), SlotsOf(Now(), o))
      ensures old(Visiting(Now(), o, todo, X)) ==> Visiting(Now(), o, todo, X)
      ensures marked ==> |Whites(color)| < old(|Whites(color)|)
      ensures !marked ==> Now() == old(Now())
    {
      ghost var w := Now();
      marked := MarkEach(o, todo, X);
      if Visiting(w, o, todo, X) { VisitingSpread(w, Now(), o, todo, X); }
    }

    method MarkEach(o: Obj, ghost todo: seq<Obj>, ghost X: iset<Obj>) returns (marked: bool)
      requires Marking(Now(), todo, iset{o}, X) && o in Marked(color)
      requires SlotsIn(X, heap.objs[o].slots)
      modifies this`color, this`gray
      ensures Marking(Now(), todo, iset{o}, X) && Spread(old(Now()), Now())
      ensures SlotsIn(Marked(color), SlotsOf(Now(), o))
      ensures marked ==> |Whites(color)| < old(|Whites(color)|)
      ensures !marked ==> Now() == old(Now())
    {
      marked := false;
      var s := heap.objs[o].slots;
      NoSpread(Now());
      InBound(Now(), o, todo, iset{o}, X);
      for i := 0 to |s|
        invariant Marking(Now(), todo, iset{o}, X) && Spread(old(Now()), Now())
        invariant marked ==> |Whites(color)| < old(|Whites(color)|)
        invariant !marked ==> color == old(color) && gray == old(gray)
        invariant SlotsIn(Marked(color), s[..i])
      {
        ghost var w := Now();
        assert In(Allocated(color), s[i]) && In(X, s[i]) by { SpreadOut(old(Now()), w); }
        if IsWhite(s[i]) { marked := true; }
        MarkValue(s[i], todo, iset{o}, X);
        SpreadTransitive(old(Now()), w, Now());
        SlotsStep(w, Now(), s, i);
      }
      assert s[..|s|] == s;
    }

    /** An empty entry lets its key go if that is still unmarked. */
    method RemoveEntry(o: Obj, i: nat, ghost todo: seq<Obj>, ghost busy: iset<Obj>, ghost X: iset<Obj>)
      requires Marking(Now(), todo, busy, X) && o in Marked(color) && i < |NodesOf(Now(), o)|
      requires NodesOf(Now(), o)[i].val == Nil && o !in blind
      modifies this`heap
      ensures heap == old(heap) || heap == SetNode(old(heap), o, i, Node(DeadKey, Nil))
      ensures Marking(Now(), todo, busy, X) && EntryStep(old(Now()), Now(), o, i)
      ensures Strings(old(Now()), Now()) && TableMode(heap, o) == old(TableMode(heap, o))
      ensures NodesOf(Now(), o)[i].val == Nil && In(Marked(color), NodesOf(Now(), o)[i].key)
    {
      ghost var w := Now();
      var n := heap.objs[o].nodes[i];
      NoStrings(w);
      EntryAllocated(w, o, i, todo, busy, X);
      if IsWhite(n.key) {
        heap := SetNode(heap, o, i, Node(DeadKey, Nil));
        assert Now() == w.(heap := SetNode(w.heap, o, i, Node(DeadKey, Nil)));
        NodeEmptied(w, o, i, Node(DeadKey, Nil), todo, busy, X);
        SameColorStrings(w, Now());
      }
    }

    method StrongEntry(o: Obj, i: nat, ghost todo: seq<Obj>, ghost X: iset<Obj>)
      requires Visiting(Now(), o, todo, X) && i < |heap.objs[o].nodes|
      requires TableMode(heap, o) == Strong
      modifies this`heap, this`color, this`gray
      ensures Visiting(Now(), o, todo, X) && EntryStep(old(Now()), Now(), o, i)
      ensures TableMode(heap, o) == Strong
      ensures In(Marked(color), heap.objs[o].nodes[i].key) && In(Marked(color), heap.objs[o].nodes[i].val)
    {
      var n := heap.objs[o].nodes[i];
      ghost var w := Now();
      VisitBound(w, o, todo, X);
      if n.val == Nil {
        RemoveEntry(o, i, todo, iset{o}, X);
        VisitingSpread(w, Now(), o, todo, X);
      } else {
        EntryBound(w, o, i, todo, X);
        MarkValue(n.key, todo, iset{o}, X);
        ghost var w1 := Now();
        SpreadIn(w, w1, n.val);
        MarkValue(n.val, todo, iset{o}, X);
        SpreadIn(w1, Now(), n.key);
        SpreadTransitive(w, w1, Now());
        EntryMarked(w, Now(), o, i);
        VisitingSpread(w, Now(), o, todo, X);
      }
    }

    method StrongEntries(o: Obj, ghost todo: seq<Obj>, ghost X: iset<Obj>)
      requires Visiting(Now(), o, todo, X) && TableMode(heap, o) == Strong
      modifies this`heap, this`color, this`gray
      ensures Visiting(Now(), o, todo, X) && Spread(old(Now()), Now())
      ensures SlotsOf(Now(), o) == old(SlotsOf(Now(), o))
      ensures KeysIn(Marked(color), NodesOf(Now(), o)) && ValsIn(Marked(color), NodesOf(Now(), o))
    {
      var n := |heap.objs[o].nodes|;
      NoSpread(Now());
      for i := 0 to n
        invariant Visiting(Now(), o, todo, X) && Spread(old(Now()), Now())
        invariant n == |NodesOf(Now(), o)| && TableMode(heap, o) == Strong
        invariant SlotsOf(Now(), o) == old(SlotsOf(Now(), o))
        invariant KeysIn(Marked(color), NodesOf(Now(), o)[..i])
        invariant ValsIn(Marked(color), NodesOf(Now(), o)[..i])
      {
        ghost var w := Now();
        StrongEntry(o, i, todo, X);
        KeysStep(w, Now(), o, i);
        ValsStep(w, Now(), o, i);
        SpreadTransitive(old(Now()), w, Now());
      }
      assert NodesOf(Now(), o)[..n] == NodesOf(Now(), o);
    }

    method TraverseStrongTable(o: Obj, ghost todo: seq<Obj>, ghost X: iset<Obj>)
      requires Visiting(Now(), o, todo, X) && heap.objs[o].kind == Table
      requires TableMode(heap, o) == Strong
      modifies this`heap, this`color, this`gray
      ensures Visiting(Now(), o, todo, X) && Spread(old(Now()), Now())
      ensures SlotsIn(Marked(color), SlotsOf(Now(), o))
      ensures KeysIn(Marked(color), NodesOf(Now(), o)) && ValsIn(Marked(color), NodesOf(Now(), o))
    {
      VisitBound(Now(), o, todo, X);
      var _ := MarkSlots(o, todo, X);
      ghost var w := Now();
      StrongEntries(o, todo, X);
      SpreadTransitive(old(Now()), w, Now());
      SpreadOut(w, Now());
    }

    /** Tells whether a weak table must drop `v`; a string is a value, never dropped,
        so it is marked instead. */
    method IsCleared(v: Value, ghost todo: seq<Obj>, ghost busy: iset<Obj>, ghost X: iset<Obj>)
      returns (cleared: bool)
      requires Marking(Now(), todo, busy, X)
      requires In(Allocated(color), v) && WeakIn(heap, X, v, true)
      modifies this`color
      ensures Marking(Now(), todo, busy, X) && Strings(old(Now()), Now())
      ensures cleared ==> IsWhite(v) && !IsStr(heap, v)
      ensures !cleared ==> In(Marked(color), v)
    {
      ghost var w := Now();
      NoSpread(w);
      if IsStr(heap, v) {
        if color[v.o].White? {
          color := color[v.o := Black];
          assert Now() == w.(color := w.color[v.o := Black]);
          MarkedString(w, v.o, todo, busy, X);
        }
        cleared := false;
      } else {
        cleared := IsWhite(v);
      }
    }

    method WeakValueEntry(o: Obj, i: nat, hasclears: bool, ghost todo: seq<Obj>, ghost X: iset<Obj>)
      returns (clears: bool)
      requires Visiting(Now(), o, todo, X) && i < |heap.objs[o].nodes|
      requires TableMode(heap, o) == WeakValues
      modifies this`heap, this`color, this`gray
      ensures Visiting(Now(), o, todo, X) && EntryStep(old(Now()), Now(), o, i)
      ensures TableMode(heap, o) == WeakValues
      ensures In(Marked(color), heap.objs[o].nodes[i].key)
      ensures hasclears ==> clears
      ensures !clears ==> In(Marked(color), heap.objs[o].nodes[i].val)
    {
      var n := heap.objs[o].nodes[i];
      clears := hasclears;
      ghost var w := Now();
      VisitBound(w, o, todo, X);
      if n.val == Nil {
        RemoveEntry(o, i, todo, iset{o}, X);
        VisitingSpread(w, Now(), o, todo, X);
      } else {
        EntryBound(w, o, i, todo, X);
        MarkValue(n.key, todo, iset{o}, X);
        ghost var w1 := Now();
        SpreadIn(w, w1, n.val);
        NoSpread(w1);
        if !clears {
          clears := IsCleared(n.val, todo, iset{o}, X);
        }
        SpreadIn(w1, Now(), n.key);
        SpreadTransitive(w, w1, Now());
        EntryMarked(w, Now(), o, i);
        VisitingSpread(w, Now(), o, todo, X);
      }
    }

    method WeakValueEntries(o: Obj, ghost todo: seq<Obj>, ghost X: iset<Obj>) returns (hasclears: bool)
      requires Visiting(Now(), o, todo, X) && TableMode(heap, o) == WeakValues
      modifies this`heap, this`color, this`gray
      ensures Visiting(Now(), o, todo, X) && Spread(old(Now()), Now())
      ensures SlotsOf(Now(), o) == old(SlotsOf(Now(), o)) && TableMode(heap, o) == WeakValues
      ensures KeysIn(Marked(color), NodesOf(Now(), o))
      ensures !hasclears ==> SlotsOf(Now(), o) == [] && ValsIn(Marked(color), NodesOf(Now(), o))
    {
      hasclears := |heap.objs[o].slots| > 0;
      var n := |heap.objs[o].nodes|;
      NoSpread(Now());
      for i := 0 to n
        invariant Visiting(Now(), o, todo, X) && Spread(old(Now()), Now())
        invariant n == |NodesOf(Now(), o)| && TableMode(heap, o) == WeakValues
        invariant SlotsOf(Now(), o) == old(SlotsOf(Now(), o))
        invariant KeysIn(Marked(color), NodesOf(Now(), o)[..i])
        invariant !hasclears ==> SlotsOf(Now(), o) == [] && ValsIn(Marked(color), NodesOf(Now(), o)[..i])
      {
        ghost var w := Now();
        hasclears := WeakValueEntry(o, i, hasclears, todo, X);
        KeysStep(w, Now(), o, i);
        if !hasclears { ValsStep(w, Now(), o, i); }
        SpreadTransitive(old(Now()), w, Now());
      }
      assert NodesOf(Now(), o)[..n] == NodesOf(Now(), o);
    }

    method LinkWeakValue(o: Obj, hasclears: bool, ghost todo: seq<Obj>, ghost X: iset<Obj>)
      requires Visiting(Now(), o, todo, X) && color[o] == Gray
      requires TableMode(heap, o) == WeakValues && HeadIn(Now(), o)
      requires KeysIn(Marked(color), NodesOf(Now(), o))
      requires !hasclears ==> SlotsOf(Now(), o) == [] && ValsIn(Marked(color), NodesOf(Now(), o))
      modifies this`grayagain, this`weak
      ensures Marking(Now(), todo, iset{}, X) && Advance(old(Now()), Now())
    {
      ghost var w := Now();
      if gcstate == Propagate {
        grayagain := [o] + grayagain;
        assert Now() == w.(grayagain := [o] + w.grayagain);
        LinkedAgain(w, o, todo, X);
      } else if hasclears {
        weak := [o] + weak;
        assert Now() == w.(weak := [o] + w.weak);
        LinkedWeak(w, o, todo, X);
      } else {
        LinkedNowhere(w, o, todo, X);
      }
    }

    method TraverseWeakValue(o: Obj, ghost todo: seq<Obj>, ghost X: iset<Obj>)
      requires Visiting(Now(), o, todo, X) && color[o] == Gray
      requires TableMode(heap, o) == WeakValues && HeadIn(Now(), o)
      modifies this`heap, this`color, this`gray, this`grayagain, this`weak
      ensures Marking(Now(), todo, iset{}, X) && Advance(old(Now()), Now())
    {
      ghost var w0 := Now();
      var hasclears := WeakValueEntries(o, todo, X);
      ghost var w := Now();
      HeadKept(w0, w, o);
      SpreadColor(w0, w, o);
      SpreadAdvance(w0, w);
      LinkWeakValue(o, hasclears, todo, X);
      AdvanceTransitive(w0, w, Now());
    }

    method EphemeronEntry(o: Obj, i: nat, ghost todo: seq<Obj>, ghost X: iset<Obj>)
      returns (cleared: bool, ww: bool, marked: bool)
      requires Visiting(Now(), o, todo, X) && i < |heap.objs[o].nodes|
      requires TableMode(heap, o) == Ephemeron
      modifies this`heap, this`color, this`gray
      ensures Visiting(Now(), o, todo, X) && EntryStep(old(Now()), Now(), o, i)
      ensures TableMode(heap, o) == Ephemeron
      ensures !cleared ==> In(Marked(color), heap.objs[o].nodes[i].key)
      ensures !ww ==> In(Marked(color), heap.objs[o].nodes[i].val)
      ensures marked ==> |Whites(color)| < old(|Whites(color)|)
      ensures !marked ==> Strings(old(Now()), Now())
      ensures !marked ==> Settled(heap, Marked(color), heap.objs[o].nodes[i])
    {
      var n := heap.objs[o].nodes[i];
      cleared, ww, marked := false, false, false;
      ghost var w := Now();
      VisitBound(w, o, todo, X);
      EntryBound(w, o, i, todo, X);
      if n.val == Nil {
        RemoveEntry(o, i, todo, iset{o}, X);
        VisitingSpread(w, Now(), o, todo, X);
      } else {
        EphemeronBound(w, o, i, todo, X);
        cleared := IsCleared(n.key, todo, iset{o}, X);
        ghost var w1 := Now();
        SpreadIn(w, w1, n.val);
        EntryMarked(w, w1, o, i);
        VisitingSpread(w, w1, o, todo, X);
        if cleared {
          ww := IsWhite(n.val);
        } else if IsWhite(n.val) {
          marked := true;
          EphemeronBound(w1, o, i, todo, X);
          ReallyMarkObject(n.val.o, todo, iset{o}, X);
          SpreadIn(w1, Now(), n.key);
          SpreadTransitive(w, w1, Now());
          EntryMarked(w, Now(), o, i);
          VisitingSpread(w, Now(), o, todo, X);
        }
      }
    }

    /** Visits the hash part of ephemeron table `o`: does it have unmarked keys, such
        a key with an unmarked value, and was anything marked? */
    method EphemeronEntries(o: Obj, ghost todo: seq<Obj>, ghost X: iset<Obj>)
      returns (hasclears: bool, hasww: bool, marked: bool)
      requires Visiting(Now(), o, todo, X) && TableMode(heap, o) == Ephemeron
      modifies this`heap, this`color, this`gray
      ensures Visiting(Now(), o, todo, X) && Spread(old(Now()), Now())
      ensures SlotsOf(Now(), o) == old(SlotsOf(Now(), o)) && TableMode(heap, o) == Ephemeron
      ensures !hasclears ==> KeysIn(Marked(color), NodesOf(Now(), o))
      ensures !hasww ==> ValsIn(Marked(color), NodesOf(Now(), o))
      ensures marked ==> |Whites(color)| < old(|Whites(color)|)
      ensures !marked ==> Strings(old(Now()), Now())
      ensures !marked ==> AllSettled(heap, Marked(color), NodesOf(Now(), o))
    {
      hasclears, hasww, marked := false, false, false;
      var n := |heap.objs[o].nodes|;
      ghost var w0 := Now();
      NoStrings(w0);
      for i := 0 to n
        invariant Visiting(Now(), o, todo, X) && Spread(w0, Now())
        invariant n == |NodesOf(Now(), o)| && TableMode(heap, o) == Ephemeron
        invariant SlotsOf(Now(), o) == SlotsOf(w0, o)
        invariant !hasclears ==> KeysIn(Marked(color), NodesOf(Now(), o)[..i])
        invariant !hasww ==> ValsIn(Marked(color), NodesOf(Now(), o)[..i])
        invariant marked ==> |Whites(color)| < |Whites(w0.color)|
        invariant !marked ==> Strings(w0, Now())
        invariant !marked ==> AllSettled(heap, Marked(color), NodesOf(Now(), o)[..i])
      {
        ghost var w := Now();
        var cleared, ww, m := EphemeronEntry(o, i, todo, X);
        hasclears, hasww, marked := hasclears || cleared, hasww || ww, marked || m;
        if !hasclears { KeysStep(w, Now(), o, i); }
        if !hasww { ValsStep(w, Now(), o, i); }
        if !marked {
          SettledStep(w, Now(), o, i, todo, X);
          StringsTransitive(w0, w, Now());
        }
        SpreadTransitive(w0, w, Now());
      }
      assert NodesOf(Now(), o)[..n] == NodesOf(Now(), o);
    }

    method LinkEphemeron(o: Obj, hasclears: bool, hasww: bool, ghost todo: seq<Obj>, ghost X: iset<Obj>)
      requires Visiting(Now(), o, todo, X) && color[o] == Gray
      requires TableMode(heap, o) == Ephemeron && HeadIn(Now(), o)
      requires SlotsIn(Marked(color), SlotsOf(Now(), o))
      requires !hasclears ==> KeysIn(Marked(color), NodesOf(Now(), o))
      requires !hasww ==> ValsIn(Marked(color), NodesOf(Now(), o))
      modifies this`grayagain, this`ephemeron, this`allweak
      ensures Marking(Now(), todo, iset{}, X) && Advance(old(Now()), Now())
      ensures ephemeron == old(ephemeron) || ephemeron == [o] + old(ephemeron)
    {
      ghost var w := Now();
      if gcstate == Propagate {
        grayagain := [o] + grayagain;
        assert Now() == w.(grayagain := [o] + w.grayagain);
        LinkedAgain(w, o, todo, X);
      } else if hasww {
        ephemeron := [o] + ephemeron;
        assert Now() == w.(ephemeron := [o] + w.ephemeron);
        LinkedEphemeron(w, o, todo, X);
      } else if hasclears {
        allweak := [o] + allweak;
        assert Now() == w.(allweak := [o] + w.allweak);
        LinkedAllweak(w, o, todo, X);
      } else {
        LinkedNowhere(w, o, todo, X);
      }
    }

    /** Visits both parts of ephemeron table `o`. */
    method EphemeronParts(o: Obj, ghost todo: seq<Obj>, ghost X: iset<Obj>)
      returns (hasclears: bool, hasww: bool, marked: bool)
      requires Visiting(Now(), o, todo, X)
      requires TableMode(heap, o) == Ephemeron && HeadIn(Now(), o)
      modifies this`heap, this`color, this`gray
      ensures Visiting(Now(), o, todo, X) && Spread(old(Now()), Now())
      ensures SlotsIn(Marked(color), SlotsOf(Now(), o))
      ensures !hasclears ==> KeysIn(Marked(color), NodesOf(Now(), o))
      ensures !hasww ==> ValsIn(Marked(color), NodesOf(Now(), o))
      ensures marked ==> |Whites(color)| < old(|Whites(color)|)
      ensures !marked ==> Strings(old(Now()), Now())
      ensures !marked ==> AllSettled(heap, Marked(color), NodesOf(Now(), o))
    {
      ghost var w0 := Now();
      VisitBound(w0, o, todo, X);
      var m0 := MarkSlots(o, todo, X);
      ghost var w1 := Now();
      HeadKept(w0, w1, o);
      var m;
      hasclears, hasww, m := EphemeronEntries(o, todo, X);
      marked := m0 || m;
      SlotsKept(w1, Now(), o);
      SpreadTransitive(w0, w1, Now());
    }

    /** Tells whether a value was marked, strings used as keys apart; otherwise every
        entry of `o` stays as it is until more is marked. */
    method TraverseEphemeron(o: Obj, ghost todo: seq<Obj>, ghost X: iset<Obj>) returns (marked: bool)
      requires Visiting(Now(), o, todo, X) && color[o] == Gray
      requires TableMode(heap, o) == Ephemeron && HeadIn(Now(), o)
      modifies this`heap, this`color, this`gray, this`grayagain, this`ephemeron, this`allweak
      ensures Marking(Now(), todo, iset{}, X) && Advance(old(Now()), Now())
      ensures ephemeron == old(ephemeron) || ephemeron == [o] + old(ephemeron)
      ensures marked ==> |Whites(color)| < old(|Whites(color)|)
      ensures !marked ==> Strings(old(Now()), Unlinked(Now(), old(Now())))
      ensures !marked ==> AllSettled(heap, Marked(color), NodesOf(Now(), o))
    {
      ghost var w := Now();
      var hasclears, hasww;
      hasclears, hasww, marked := EphemeronParts(o, todo, X);
      ghost var w1 := Now();
      HeadKept(w, w1, o);
      SpreadColor(w, w1, o);
      SpreadAdvance(w, w1);
      LinkEphemeron(o, hasclears, hasww, todo, X);
      AdvanceTransitive(w, w1, Now());
      assert Unlinked(Now(), w) == w1;
    }

    /** Visits table `o`, black when it comes here; a weak table ends up gray. */
    method TraverseTable(o: Obj, ghost todo: seq<Obj>, ghost X: iset<Obj>)
      requires Visiting(Now(), o, todo, X) && color[o] == Black && heap.objs[o].kind == Table
      modifies this`heap, this`color, this`gray, this`grayagain, this`weak, this`ephemeron, this`allweak
      ensures Marking(Now(), todo, iset{}, X) && Advance(old(Now()), Now())
    {
      ghost var w := Now();
      var weakTable := TableMode(heap, o) != Strong;
      MarkMetatable(o, todo, X);
      ghost var w1 := Now();
      SpreadAdvance(w, w1);
      if weakTable {
        WeakTable(o, todo, X);
      } else {
        BlackTable(o, todo, X);
      }
      AdvanceTransitive(w, w1, Now());
    }

    method MarkMetatable(o: Obj, ghost todo: seq<Obj>, ghost X: iset<Obj>)
      requires Visiting(Now(), o, todo, X) && heap.objs[o].kind == Table
      modifies this`color, this`gray
      ensures Visiting(Now(), o, todo, X) && Spread(old(Now()), Now())
      ensures color[o] == old(color[o]) && HeadIn(Now(), o)
    {
      ghost var w := Now();
      VisitBound(w, o, todo, X);
      MarkValue(heap.objs[o].meta, todo, iset{o}, X);
      VisitingSpread(w, Now(), o, todo, X);
      SpreadColor(w, Now(), o);
    }

    method BlackTable(o: Obj, ghost todo: seq<Obj>, ghost X: iset<Obj>)
      requires Visiting(Now(), o, todo, X) && color[o] == Black && HeadIn(Now(), o)
      requires TableMode(heap, o) == Strong
      modifies this`heap, this`color, this`gray
      ensures Marking(Now(), todo, iset{}, X) && Advance(old(Now()), Now())
    {
      ghost var w := Now();
      TraverseStrongTable(o, todo, X);
      HeadKept(w, Now(), o);
      SpreadColor(w, Now(), o);
      SpreadAdvance(w, Now());
      Unlisted(Now(), o, todo, X);
      assert iset{} + iset{o} == iset{o};
      Done(Now(), o, todo, iset{}, X);
    }

    method WeakTable(o: Obj, ghost todo: seq<Obj>, ghost X: iset<Obj>)
      requires Visiting(Now(), o, todo, X) && HeadIn(Now(), o)
      requires TableMode(heap, o) != Strong
      modifies this`heap, this`color, this`gray, this`grayagain, this`weak, this`ephemeron, this`allweak
      ensures Marking(Now(), todo, iset{}, X) && Advance(old(Now()), Now())
    {
      ghost var w0 := Now();
      color := color[o := Gray];
      assert Now() == w0.(color := w0.color[o := Gray]);
      Regrayed(w0, o, todo, X);
      ghost var w1 := Now();
      GrayTable(o, todo, X);
      AdvanceTransitive(w0, w1, Now());
    }

    method GrayTable(o: Obj, ghost todo: seq<Obj>, ghost X: iset<Obj>)
      requires Visiting(Now(), o, todo, X) && color[o] == Gray && HeadIn(Now(), o)
      requires TableMode(heap, o) != Strong
      modifies this`heap, this`color, this`gray, this`grayagain, this`weak, this`ephemeron, this`allweak
      ensures Marking(Now(), todo, iset{}, X) && Advance(old(Now()), Now())
    {
      if TableMode(heap, o) == WeakValues {
        TraverseWeakValue(o, todo, X);
      } else if TableMode(heap, o) == Ephemeron {
        var _ := TraverseEphemeron(o, todo, X);
      } else {
        ghost var w := Now();
        allweak := [o] + allweak;
        assert Now() == w.(allweak := [o] + w.allweak);
        LinkedAllweak(w, o, todo, X);
      }
    }

    method TraverseCclosure(o: Obj, ghost todo: seq<Obj>, ghost X: iset<Obj>)
      requires Visiting(Now(), o, todo, X) && color[o] == Black && heap.objs[o].kind == CClosure
      modifies this`color, this`gray
      ensures Marking(Now(), todo, iset{}, X) && Advance(old(Now()), Now())
    {
      ghost var w := Now();
      VisitBound(w, o, todo, X);
      var _ := MarkSlots(o, todo, X);
      SpreadColor(w, Now(), o);
      SpreadAdvance(w, Now());
      SimpleDone(Now(), o, todo, X);
    }

    method MarkUpvalues(o: Obj, ghost todo: seq<Obj>, ghost X: iset<Obj>)
      requires Visiting(Now(), o, todo, X)
      modifies this`color, this`gray
      ensures Visiting(Now(), o, todo, X) && Spread(old(Now()), Now())
      ensures UpsIn(heap, Marked(color), heap.objs[o].ups)
    {
      var us := heap.objs[o].ups;
      ghost var w0 := Now();
      NoSpread(w0);
      for i := 0 to |us|
        invariant Visiting(Now(), o, todo, X) && Spread(w0, Now())
        invariant UpsIn(heap, Marked(color), us[..i])
      {
        ghost var w := Now();
        UpBound(w, o, i, todo, X);
        MarkValue(Up(heap, us[i]), todo, iset{o}, X);
        UpsStep(w, Now(), us, i);
        VisitingSpread(w, Now(), o, todo, X);
        SpreadTransitive(w0, w, Now());
      }
      assert us[..|us|] == us;
    }

    method TraverseLclosure(o: Obj, ghost todo: seq<Obj>, ghost X: iset<Obj>)
      requires Visiting(Now(), o, todo, X) && color[o] == Black && heap.objs[o].kind == LClosure
      modifies this`color, this`gray
      ensures Marking(Now(), todo, iset{}, X) && Advance(old(Now()), Now())
    {
      ghost var w := Now();
      VisitBound(w, o, todo, X);
      var _ := MarkSlots(o, todo, X);
      ghost var w1 := Now();
      MarkUpvalues(o, todo, X);
      SlotsKept(w1, Now(), o);
      SpreadTransitive(w, w1, Now());
      SpreadColor(w, Now(), o);
      SpreadAdvance(w, Now());
      SimpleDone(Now(), o, todo, X);
    }

    /** The closure cache of a prototype does not keep the closure alive. */
    method TraverseProto(o: Obj, ghost todo: seq<Obj>, ghost X: iset<Obj>)
      requires Visiting(Now(), o, todo, X) && color[o] == Black && heap.objs[o].kind == Proto
      modifies this`heap, this`color, this`gray
      ensures Marking(Now(), todo, iset{}, X) && Advance(old(Now()), Now())
    {
      ghost var w := Now();
      NoSpread(w);
      VisitBound(w, o, todo, X);
      if IsWhite(heap.objs[o].cache) {
        heap := SetCache(heap, o, Nil);
        assert Now() == w.(heap := SetCache(w.heap, o, Nil));
        CacheEmptied(w, o, todo, X);
      }
      ghost var w1 := Now();
      VisitBound(w1, o, todo, X);
      var _ := MarkSlots(o, todo, X);
      SpreadIn(w1, Now(), heap.objs[o].cache);
      SpreadTransitive(w, w1, Now());
      SpreadColor(w, Now(), o);
      SpreadAdvance(w, Now());
      SimpleDone(Now(), o, todo, X);
    }

    method LinkThread(o: Obj, ghost todo: seq<Obj>, ghost X: iset<Obj>)
      requires Visiting(Now(), o, todo, X) && heap.objs[o].kind == Thread
      modifies this`color, this`grayagain
      ensures Marking(Now(), todo, iset{o}, X) && Advance(old(Now()), Now())
      ensures o in grayagain && o in color && color[o] == Gray
    {
      ghost var w := Now();
      color := color[o := Gray];
      assert Now() == w.(color := w.color[o := Gray]);
      Regrayed(w, o, todo, X);
      ghost var w1 := Now();
      grayagain := [o] + grayagain;
      assert Now() == w1.(grayagain := [o] + w1.grayagain);
      ThreadLinked(w1, o, todo, X);
      AdvanceTransitive(w, w1, Now());
      assert grayagain[0] == o;
    }

    /** Threads stay gray. */
    method TraverseThread(o: Obj, ghost todo: seq<Obj>, ghost X: iset<Obj>)
      requires Visiting(Now(), o, todo, X) && heap.objs[o].kind == Thread
      modifies this`color, this`gray, this`grayagain
      ensures Marking(Now(), todo, iset{}, X) && Advance(old(Now()), Now())
    {
      ghost var w := Now();
      LinkThread(o, todo, X);
      ghost var w1 := Now();
      InBound(w1, o, todo, iset{o}, X);
      var _ := MarkSlots(o, todo, X);
      SpreadAdvance(w1, Now());
      SpreadColor(w1, Now(), o);
      ThreadDone(Now(), o, todo, X);
      AdvanceTransitive(w, w1, Now());
    }

    // ----- draining the gray list -----

    /** Visits the first gray object. */
    method PropagateMark(ghost todo: seq<Obj>, ghost X: iset<Obj>)
      requires Marking(Now(), todo, iset{}, X) && gray != []
      modifies this`heap, this`color, this`gray, this`grayagain, this`weak, this`ephemeron, this`allweak
      ensures Marking(Now(), todo, iset{}, X) && Advance(old(Now()), Now())
      ensures Work(Now()) < old(Work(Now()))
    {
      ghost var w := Now();
      var o := gray[0];
      gray, color := gray[1..], color[o := Black];
      assert Now() == w.(gray := w.gray[1..], color := w.color[o := Black]);
      Popped(w, o, Now(), todo, X);
      ghost var w1 := Now();
      Visit(o, todo, X);
      AdvanceTransitive(w, w1, Now());
    }

    method Visit(o: Obj, ghost todo: seq<Obj>, ghost X: iset<Obj>)
      requires Visiting(Now(), o, todo, X) && color[o] == Black && !Leaf(heap.objs[o].kind)
      modifies this`heap, this`color, this`gray, this`grayagain, this`weak, this`ephemeron, this`allweak
      ensures Marking(Now(), todo, iset{}, X) && Advance(old(Now()), Now())
    {
      match heap.objs[o].kind
      case Table => TraverseTable(o, todo, X);
      case LClosure => TraverseLclosure(o, todo, X);
      case CClosure => TraverseCclosure(o, todo, X);
      case Thread => TraverseThread(o, todo, X);
      case Proto => TraverseProto(o, todo, X);
    }

    method PropagateAll(ghost todo: seq<Obj>, ghost X: iset<Obj>)
      requires Marking(Now(), todo, iset{}, X)
      modifies this`heap, this`color, this`gray, this`grayagain, this`weak, this`ephemeron, this`allweak
      ensures Marking(Now(), todo, iset{}, X) && Advance(old(Now()), Now())
      ensures gray == []
    {
      ghost var w0 := Now();
      SpreadAdvance(w0, w0) by { NoSpread(w0); }
      while gray != []
        invariant Marking(Now(), todo, iset{}, X) && Advance(w0, Now())
        decreases Work(Now())
      {
        ghost var w := Now();
        PropagateMark(todo, X);
        AdvanceTransitive(w0, w, Now());
      }
    }

    // ----- the atomic step -----

    /** Visits the ephemeron tables until no entry of theirs marks anything more. */
    method ConvergeEphemerons(ghost X: iset<Obj>)
      requires Marking(Now(), [], iset{}, X) && gcstate == InsideAtomic && gray == []
      modifies this`heap, this`color, this`gray, this`grayagain, this`weak, this`ephemeron, this`allweak
      ensures Marking(Now(), [], iset{}, X) && Advance(old(Now()), Now())
      ensures gray == [] && EphemeronsSettled(Now())
      ensures StaleMarked(Now()) ==> ClosedApart(Now(), Marked(color))
      ensures Marked(color) <= X
    {
      ghost var w0 := Now();
      SpreadAdvance(w0, w0) by { NoSpread(w0); }
      var changed := true;
      while changed
        invariant Marking(Now(), [], iset{}, X) && Advance(w0, Now()) && gray == []
        invariant !changed ==> EphemeronsSettled(Now())
        decreases |Whites(color)|, changed
      {
        ghost var w := Now();
        var next := ephemeron;
        ephemeron := [];
        assert Now() == w.(ephemeron := []);
        RoundStarts(w, X);
        changed := ConvergeRound(next, X);
        AdvanceTransitive(w, w.(ephemeron := []), Now());
        AdvanceTransitive(w0, w, Now());
      }
      MarkedClosed(Now(), X);
      MarkedInBound(Now(), [], iset{}, X);
    }

    method ConvergeRound(start: seq<Obj>, ghost X: iset<Obj>) returns (changed: bool)
      requires Marking(Now(), start, iset{}, X) && AllWait(Now(), start)
      requires gray == [] && ephemeron == [] && gcstate == InsideAtomic
      modifies this`heap, this`color, this`gray, this`grayagain, this`weak, this`ephemeron, this`allweak
      ensures Marking(Now(), [], iset{}, X) && Advance(old(Now()), Now())
      ensures gray == [] && |Whites(color)| <= old(|Whites(color)|)
      ensures changed ==> |Whites(color)| < old(|Whites(color)|)
      ensures !changed ==> EphemeronsSettled(Now())
    {
      ghost var w0 := Now();
      SpreadAdvance(w0, w0) by { NoSpread(w0); }
      changed := false;
      var next := start;
      while next != []
        invariant Marking(Now(), next, iset{}, X) && AllWait(Now(), next)
        invariant Advance(w0, Now()) && gray == []
        invariant changed ==> |Whites(color)| < |Whites(w0.color)|
        invariant !changed ==> EphemeronsSettled(Now())
        decreases |next|
      {
        ghost var w := Now();
        var t := next[0];
        assert next == [t] + next[1..];
        assert forall p :: p in next[1..] ==> p in next;
        next := next[1..];
        NextTaken(w, t, next, X);
        assert Waits(w, t);
        var marked := VisitEphemeron(t, next, X);
        changed := changed || marked;
        AllWaitKept(w, Now(), next);
        AdvanceTransitive(w0, w, Now());
        if !changed { RoundSettled(w, t, Now(), [t] + next, iset{}, X); }
      }
    }

    method VisitEphemeron(t: Obj, ghost next: seq<Obj>, ghost X: iset<Obj>) returns (marked: bool)
      requires Visiting(Now(), t, next, X) && color[t] == Gray && Waits(Now(), t) && gray == []
      modifies this`heap, this`color, this`gray, this`grayagain, this`weak, this`ephemeron, this`allweak
      ensures Marking(Now(), next, iset{}, X) && Advance(old(Now()), Now()) && gray == []
      ensures marked ==> |Whites(color)| < old(|Whites(color)|)
      ensures !marked ==> Strings(old(Now()), Unlinked(Now(), old(Now())))
      ensures !marked ==> AllSettled(heap, Marked(color), NodesOf(Now(), t))
      ensures !marked ==> ephemeron == old(ephemeron) || ephemeron == [t] + old(ephemeron)
    {
      ghost var w := Now();
      marked := TraverseEphemeron(t, next, X);
      if marked {
        ghost var w1 := Now();
        PropagateAll(next, X);
        AdvanceTransitive(w, w1, Now());
      }
    }

    // ----- clearing weak tables -----

    /** Empties entry `i` if its key is unmarked. */
    method DropDeadKey(o: Obj, i: nat, ghost X: iset<Obj>)
      requires Marking(Now(), [], iset{}, X) && MarkedTable(Now(), o) && i < |NodesOf(Now(), o)|
      modifies this`heap, this`color
      ensures Marking(Now(), [], iset{}, X) && Clean(old(Now()), Now())
      ensures NodeStep(old(Now()), Now(), o, i)
      ensures NodesOf(Now(), o)[i].val != Nil ==> In(Marked(color), NodesOf(Now(), o)[i].key)
    {
      ghost var w := Now();
      NoStrings(w);
      StringsClean(w, w);
      var n := heap.objs[o].nodes[i];
      if n.val != Nil {
        ClearBound(w, o, [], iset{}, X);
        var drop := IsCleared(n.key, [], iset{}, X);
        ghost var w1 := Now();
        StringsClean(w, w1);
        if drop {
          heap := SetNode(heap, o, i, Node(n.key, Nil));
          assert Now() == w1.(heap := SetNode(w1.heap, o, i, Node(n.key, Nil)));
          NodeCleared(w1, o, i, [], iset{}, X);
          CleanTransitive(w, w1, Now());
        }
      }
    }

    method ClearKeyEntry(o: Obj, i: nat, ghost X: iset<Obj>)
      requires Marking(Now(), [], iset{}, X) && MarkedTable(Now(), o) && i < |NodesOf(Now(), o)|
      modifies this`heap, this`color
      ensures Marking(Now(), [], iset{}, X) && Clean(old(Now()), Now())
      ensures NodeStep(old(Now()), Now(), o, i)
      ensures In(Marked(color), NodesOf(Now(), o)[i].key)
    {
      ghost var w := Now();
      DropDeadKey(o, i, X);
      ghost var w1 := Now();
      CleanOut(w, w1);
      if heap.objs[o].nodes[i].val == Nil {
        RemoveEntry(o, i, [], iset{}, X);
        StringsClean(w1, Now());
        CleanTransitive(w, w1, Now());
        NodeStepTransitive(w, w1, Now(), o, i);
      }
    }

    method ClearKeysOf(o: Obj, ghost X: iset<Obj>)
      requires Marking(Now(), [], iset{}, X) && MarkedTable(Now(), o)
      modifies this`heap, this`color
      ensures Marking(Now(), [], iset{}, X) && Clean(old(Now()), Now())
      ensures KeysIn(Marked(color), NodesOf(Now(), o))
    {
      ghost var w0 := Now();
      StringsClean(w0, w0) by { NoStrings(w0); }
      var n := |heap.objs[o].nodes|;
      for i := 0 to n
        invariant Marking(Now(), [], iset{}, X) && Clean(w0, Now()) && MarkedTable(Now(), o)
        invariant n == |NodesOf(Now(), o)| && KeysIn(Marked(color), NodesOf(Now(), o)[..i])
      {
        ghost var w := Now();
        ClearKeyEntry(o, i, X);
        CleanKeysStep(w, Now(), o, i);
        MarkedTableKept(w, Now(), o);
        CleanTransitive(w0, w, Now());
      }
      assert NodesOf(Now(), o)[..n] == NodesOf(Now(), o);
    }

    method ClearKeys(l: seq<Obj>, ghost X: iset<Obj>)
      requires Marking(Now(), [], iset{}, X) && AllMarkedTables(Now(), l)
      modifies this`heap, this`color
      ensures Marking(Now(), [], iset{}, X) && Clean(old(Now()), Now())
      ensures KeysCleared(Now(), l)
    {
      ghost var w0 := Now();
      StringsClean(w0, w0) by { NoStrings(w0); }
      for i := 0 to |l|
        invariant Marking(Now(), [], iset{}, X) && Clean(w0, Now()) && AllMarkedTables(Now(), l)
        invariant KeysCleared(Now(), l[..i])
      {
        ghost var w := Now();
        assert MarkedTable(w, l[i]);
        ClearKeysOf(l[i], X);
        KeysClearedStep(w, Now(), l, i);
        CleanTransitive(w0, w, Now());
      }
      assert l[..|l|] == l;
    }

    method ClearSlot(o: Obj, i: nat, ghost X: iset<Obj>)
      requires Marking(Now(), [], iset{}, X) && MarkedTable(Now(), o) && i < |SlotsOf(Now(), o)|
      modifies this`heap, this`color
      ensures Marking(Now(), [], iset{}, X) && Drops(old(Now()), Now(), [o])
      ensures SlotsOf(Now(), o) == old(SlotsOf(Now(), o))
        || SlotsOf(Now(), o) == old(SlotsOf(Now(), o))[i := Nil]
      ensures In(Marked(color), SlotsOf(Now(), o)[i]) && NodesOf(Now(), o) == old(NodesOf(Now(), o))
    {
      ghost var w := Now();
      var v := heap.objs[o].slots[i];
      ClearBound(w, o, [], iset{}, X);
      var drop := IsCleared(v, [], iset{}, X);
      ghost var w1 := Now();
      StringsDrop(w, w1, [o]);
      if drop {
        heap := SetSlot(heap, o, i, Nil);
        assert Now() == w1.(heap := SetSlot(w1.heap, o, i, Nil));
        SlotCleared(w1, o, i, [], iset{}, X);
        OneDropped(w1, Now(), o, heap.objs[o]);
        DropsTransitive(w, w1, Now(), [o]);
      }
    }

    method ClearSlotsOf(o: Obj, ghost X: iset<Obj>)
      requires Marking(Now(), [], iset{}, X) && Clearable(Now(), o)
      modifies this`heap, this`color
      ensures Marking(Now(), [], iset{}, X) && Drops(old(Now()), Now(), [o]) && Clearable(Now(), o)
      ensures SlotsIn(Marked(color), SlotsOf(Now(), o))
    {
      ghost var w0 := Now();
      StringsDrop(w0, w0, [o]) by { NoStrings(w0); }
      var n := |heap.objs[o].slots|;
      for i := 0 to n
        invariant Marking(Now(), [], iset{}, X) && Drops(w0, Now(), [o]) && Clearable(Now(), o)
        invariant n == |SlotsOf(Now(), o)| && SlotsIn(Marked(color), SlotsOf(Now(), o)[..i])
      {
        ghost var w := Now();
        ClearSlot(o, i, X);
        CleanSlotsStep(w, Now(), o, i);
        MarkedTableKept(w, Now(), o);
        DropsTransitive(w0, w, Now(), [o]);
      }
      assert SlotsOf(Now(), o)[..n] == SlotsOf(Now(), o);
    }

    /** Empties entry `i`, and lets its key go, if its value is unmarked. */
    method ClearValueEntry(o: Obj, i: nat, ghost X: iset<Obj>)
      requires Marking(Now(), [], iset{}, X) && Clearable(Now(), o) && i < |NodesOf(Now(), o)|
      modifies this`heap, this`color
      ensures Marking(Now(), [], iset{}, X) && Drops(old(Now()), Now(), [o])
      ensures NodeStep(old(Now()), Now(), o, i) && In(Marked(color), NodesOf(Now(), o)[i].val)
    {
      ghost var w := Now();
      NoStrings(w);
      StringsDrop(w, w, [o]);
      var n := heap.objs[o].nodes[i];
      if n.val != Nil {
        ClearBound(w, o, [], iset{}, X);
        var drop := IsCleared(n.val, [], iset{}, X);
        ghost var w1 := Now();
        StringsDrop(w, w1, [o]);
        if drop {
          MarkedTableKept(w, w1, o);
          DropEntry(o, i, X);
          DropsTransitive(w, w1, Now(), [o]);
        }
      }
    }

    method DropEntry(o: Obj, i: nat, ghost X: iset<Obj>)
      requires Marking(Now(), [], iset{}, X) && MarkedTable(Now(), o) && i < |NodesOf(Now(), o)|
      requires Droppable(heap, Marked(color), NodesOf(Now(), o)[i].val)
      modifies this`heap
      ensures Marking(Now(), [], iset{}, X) && Drops(old(Now()), Now(), [o])
      ensures NodeStep(old(Now()), Now(), o, i) && NodesOf(Now(), o)[i].val == Nil
    {
      ghost var w := Now();
      var n := heap.objs[o].nodes[i];
      heap := SetNode(heap, o, i, Node(n.key, Nil));
      assert Now() == w.(heap := SetNode(w.heap, o, i, Node(n.key, Nil)));
      NodeCleared(w, o, i, [], iset{}, X);
      ghost var w1 := Now();
      RemoveEntry(o, i, [], iset{}, X);
      StringsClean(w1, Now());
      CleanTransitive(w, w1, Now());
      NodeStepTransitive(w, w1, Now(), o, i);
      EntryDropped(w, Now(), o, i);
    }

    method ClearValuesOf(o: Obj, ghost X: iset<Obj>)
      requires Marking(Now(), [], iset{}, X) && Clearable(Now(), o)
      modifies this`heap, this`color
      ensures Marking(Now(), [], iset{}, X) && Drops(old(Now()), Now(), [o])
      ensures SlotsIn(Marked(color), SlotsOf(Now(), o)) && ValsIn(Marked(color), NodesOf(Now(), o))
    {
      ghost var w0 := Now();
      ClearSlotsOf(o, X);
      ghost var w1 := Now();
      ClearEntriesOf(o, X);
      DropsTransitive(w0, w1, Now(), [o]);
      CleanShrinks(w1, Now());
      TableKept(w1, Now(), o);
    }

    method ClearEntriesOf(o: Obj, ghost X: iset<Obj>)
      requires Marking(Now(), [], iset{}, X) && Clearable(Now(), o)
      modifies this`heap, this`color
      ensures Marking(Now(), [], iset{}, X) && Drops(old(Now()), Now(), [o])
      ensures ValsIn(Marked(color), NodesOf(Now(), o))
    {
      ghost var w0 := Now();
      StringsDrop(w0, w0, [o]) by { NoStrings(w0); }
      var n := |heap.objs[o].nodes|;
      for i := 0 to n
        invariant Marking(Now(), [], iset{}, X) && Drops(w0, Now(), [o]) && Clearable(Now(), o)
        invariant n == |NodesOf(Now(), o)| && ValsIn(Marked(color), NodesOf(Now(), o)[..i])
      {
        ghost var w := Now();
        ClearValueEntry(o, i, X);
        CleanValsStep(w, Now(), o, i);
        MarkedTableKept(w, Now(), o);
        DropsTransitive(w0, w, Now(), [o]);
      }
      assert NodesOf(Now(), o)[..n] == NodesOf(Now(), o);
    }

    method ClearValues(l: seq<Obj>, ghost X: iset<Obj>)
      requires Marking(Now(), [], iset{}, X) && AllClearable(Now(), l)
      modifies this`heap, this`color
      ensures Marking(Now(), [], iset{}, X) && Drops(old(Now()), Now(), l)
      ensures ValsCleared(Now(), l)
    {
      ghost var w0 := Now();
      StringsDrop(w0, w0, l) by { NoStrings(w0); }
      for i := 0 to |l|
        invariant Marking(Now(), [], iset{}, X) && Drops(w0, Now(), l) && AllClearable(Now(), l)
        invariant ValsCleared(Now(), l[..i])
      {
        ghost var w := Now();
        assert Clearable(w, l[i]);
        ClearValuesOf(l[i], X);
        ValsClearedStep(w, Now(), l, i);
        DropsMore(w, Now(), [l[i]], l);
        DropsTransitive(w0, w, Now(), l);
      }
      assert l[..|l|] == l;
    }

    // ----- the roots -----

    method MarkMt(ghost todo: seq<Obj>, ghost X: iset<Obj>)
      requires Marking(Now(), todo, iset{}, X) && RootsOk(Now(), X)
      modifies this`color, this`gray
      ensures Marking(Now(), todo, iset{}, X) && Spread(old(Now()), Now())
      ensures SlotsIn(Marked(color), mt)
    {
      ghost var w0 := Now();
      NoSpread(w0);
      for i := 0 to |mt|
        invariant Marking(Now(), todo, iset{}, X) && Spread(w0, Now())
        invariant SlotsIn(Marked(color), mt[..i])
      {
        ghost var w := Now();
        SpreadIn(w0, w, mt[i]);
        MarkValue(mt[i], todo, iset{}, X);
        SlotsStep(w, Now(), mt, i);
        SpreadTransitive(w0, w, Now());
      }
      assert mt[..|mt|] == mt;
    }

    method MarkBeingFnz(ghost todo: seq<Obj>, ghost X: iset<Obj>)
      requires Marking(Now(), todo, iset{}, X) && ListIn(Allocated(color), tobefnz) && ListIn(X, tobefnz)
      modifies this`color, this`gray
      ensures Marking(Now(), todo, iset{}, X) && Spread(old(Now()), Now())
      ensures ListIn(Marked(color), tobefnz)
    {
      ghost var w0 := Now();
      NoSpread(w0);
      for i := 0 to |tobefnz|
        invariant Marking(Now(), todo, iset{}, X) && Spread(w0, Now())
        invariant ListIn(Marked(color), tobefnz[..i])
      {
        ghost var w := Now();
        assert tobefnz[i] in tobefnz;
        SpreadIn(w0, w, Ref(tobefnz[i]));
        MarkValue(Ref(tobefnz[i]), todo, iset{}, X);
        ListStep(w, Now(), tobefnz, i);
        SpreadTransitive(w0, w, Now());
      }
      assert tobefnz[..|tobefnz|] == tobefnz;
    }

    /** The roots the mutator may have changed since the collection started. */
    method MarkRoots(ghost todo: seq<Obj>, ghost X: iset<Obj>)
      requires Marking(Now(), todo, iset{}, X) && RootsOk(Now(), X)
      requires mainthread in Marked(color) && ListIn(Marked(color), tobefnz)
      modifies this`color, this`gray
      ensures Marking(Now(), todo, iset{}, X) && Spread(old(Now()), Now())
      ensures Rooted(Now(), Marked(color))
    {
      ghost var w := Now();
      MarkValue(Ref(running), todo, iset{}, X);
      ghost var w1 := Now();
      RootsStay(w, w1, X);
      MarkValue(registry, todo, iset{}, X);
      ghost var w2 := Now();
      RootsStay(w1, w2, X);
      MarkMt(todo, X);
      RootsMarked(w, w1, w2, Now());
    }

    /** The first half of the atomic step: marks all that is reachable. */
    method MarkReachable(ghost X: iset<Obj>)
      requires Marking(Now(), [], iset{}, X) && RootsOk(Now(), X) && gcstate == Atomic && gray == []
      requires mainthread in Marked(color) && ListIn(Marked(color), tobefnz)
      modifies this`heap, this`color, this`gcstate, this`gray, this`grayagain
      modifies this`weak, this`ephemeron, this`allweak
      ensures Marking(Now(), [], iset{}, X) && Progress(old(Now()), Now())
      ensures gcstate == InsideAtomic && gray == [] && EphemeronsSettled(Now())
      ensures Rooted(Now(), Marked(color))
      ensures StaleMarked(old(Now())) ==> Reached(old(Now())) <= Marked(color)
    {
      ghost var w0 := Now();
      var again := grayagain;
      gcstate := InsideAtomic;
      assert Now() == w0.(phase := InsideAtomic);
      Entered(w0, X);
      ghost var w1 := Now();
      MarkFromRoots(again, X);
      ghost var w2 := Now();
      ProgressTransitive(w0, w1, w2);
      gray := again;
      assert Now() == w2.(gray := again);
      Retaken(w2, again, X);
      ghost var w3 := Now();
      ProgressTransitive(w0, w2, w3);
      MarkRest(X);
      ProgressTransitive(w0, w3, Now());
      RootedKept(w2, w3);
      RootedKept(w3, Now());
      ReachedMarked(w0, Now(), X);
    }

    method MarkFromRoots(ghost todo: seq<Obj>, ghost X: iset<Obj>)
      requires Marking(Now(), todo, iset{}, X) && RootsOk(Now(), X)
      requires mainthread in Marked(color) && ListIn(Marked(color), tobefnz)
      modifies this`heap, this`color, this`gray, this`grayagain, this`weak, this`ephemeron, this`allweak
      ensures Marking(Now(), todo, iset{}, X) && Progress(old(Now()), Now())
      ensures gray == [] && Rooted(Now(), Marked(color))
    {
      ghost var w := Now();
      MarkRoots(todo, X);
      ghost var w1 := Now();
      SpreadProgress(w, w1);
      PropagateAll(todo, X);
      AdvanceProgress(w1, Now());
      ProgressTransitive(w, w1, Now());
      RootedKept(w1, Now());
    }

    method MarkRest(ghost X: iset<Obj>)
      requires Marking(Now(), [], iset{}, X) && gcstate == InsideAtomic
      modifies this`heap, this`color, this`gray, this`grayagain, this`weak, this`ephemeron, this`allweak
      ensures Marking(Now(), [], iset{}, X) && Advance(old(Now()), Now())
      ensures Progress(old(Now()), Now())
      ensures gray == [] && EphemeronsSettled(Now())
    {
      ghost var w := Now();
      PropagateAll([], X);
      ghost var w1 := Now();
      ConvergeEphemerons(X);
      AdvanceTransitive(w, w1, Now());
      AdvanceProgress(w, Now());
    }

    /** Drops the entries of weak tables whose value is not reachable. */
    method ClearUnreachable(ghost X: iset<Obj>)
      requires Marking(Now(), [], iset{}, X) && gcstate == InsideAtomic && gray == []
      requires EphemeronsSettled(Now())
      modifies this`heap, this`color
      ensures Marking(Now(), [], iset{}, X) && Drops(old(Now()), Now(), weak + allweak)
      ensures EphemeronsSettled(Now())
      ensures ValsCleared(Now(), weak) && ValsCleared(Now(), allweak)
    {
      ghost var w := Now();
      ListsClearable(w, X);
      ClearValues(weak, X);
      ghost var w1 := Now();
      ClearableKept(w, w1, allweak);
      ClearableKept(w, w1, weak);
      ClearValues(allweak, X);
      ClearableKept(w1, Now(), weak);
      DropsMore(w, w1, weak, weak + allweak);
      DropsMore(w1, Now(), allweak, weak + allweak);
      DropsTransitive(w, w1, Now(), weak + allweak);
      CleanSettled(w, Now(), X);
    }

    /** Moves the objects with a finalizer that are not marked, or `all` of them, to the
        end of the list of objects to be finalized. */
    method SeparateToBeFnz(all: bool)
      modifies this`finobj, this`tobefnz
      ensures finobj == Staying(old(finobj), color, all)
      ensures tobefnz == old(tobefnz) + Leaving(old(finobj), color, all)
    {
      ghost var l := finobj;
      ghost var k := 0;
      var p := 0;
      while p < |finobj|
        invariant 0 <= k <= |l| && p <= |finobj|
        invariant finobj[..p] == Staying(l[..k], color, all) && finobj[p..] == l[k..]
        invariant tobefnz == old(tobefnz) + Leaving(l[..k], color, all)
        decreases |finobj| - p
      {
        var curr := finobj[p];
        ghost var rest := finobj[p..];
        assert rest[0] == curr == l[k] && rest[1..] == l[k + 1..] && l[..k + 1][..k] == l[..k];
        if (curr in color && color[curr].White?) || all {
          finobj := finobj[..p] + finobj[p + 1..];
          tobefnz := tobefnz + [curr];
          assert finobj[p..] == rest[1..];
        } else {
          assert finobj[..p + 1] == finobj[..p] + [curr] && finobj[p + 1..] == rest[1..];
          p := p + 1;
        }
        k := k + 1;
      }
      assert l[..k] == l && finobj[..p] == finobj;
    }

    /** Marks the objects to be finalized and what they reach. */
    method Resurrect(ghost X: iset<Obj>)
      requires Marking(Now(), [], iset{}, X) && gcstate == InsideAtomic && gray == []
      requires ListIn(Allocated(color), tobefnz) && ListIn(X, tobefnz)
      modifies this`heap, this`color, this`gray, this`grayagain, this`weak, this`ephemeron, this`allweak
      ensures Marking(Now(), [], iset{}, X) && Advance(old(Now()), Now())
      ensures gray == [] && EphemeronsSettled(Now()) && ListIn(Marked(color), tobefnz)
    {
      ghost var w := Now();
      MarkBeingFnz([], X);
      ghost var w1 := Now();
      SpreadAdvance(w, w1);
      MarkRest(X);
      ListInKept(w1, Now(), tobefnz);
      AdvanceTransitive(w, w1, Now());
    }

    /** Clears the tables linked in front of `origweak` and `origall` since. */
    method ClearNewValues(origweak: seq<Obj>, origall: seq<Obj>, ghost X: iset<Obj>)
      requires Marking(Now(), [], iset{}, X) && AllClearable(Now(), weak) && AllClearable(Now(), allweak)
      requires Suffix(origweak, weak) && Suffix(origall, allweak)
      requires ValsCleared(Now(), origweak) && ValsCleared(Now(), origall)
      modifies this`heap, this`color
      ensures Marking(Now(), [], iset{}, X) && Clean(old(Now()), Now())
      ensures ValsCleared(Now(), weak) && ValsCleared(Now(), allweak)
    {
      ghost var w := Now();
      PartsClearable(w, weak, origweak);
      ClearValues(weak[..|weak| - |origweak|], X);
      ghost var w1 := Now();
      NewValsCleared(w, w1, weak, origweak);
      ClearableKept(w, w1, weak);
      ClearableKept(w, w1, allweak);
      PartsClearable(w, allweak, origall);
      CleanShrinks(w, w1);
      ListsKept(w, w1, origall);
      PartsClearable(w1, allweak, origall);
      ClearValues(allweak[..|allweak| - |origall|], X);
      NewValsCleared(w1, Now(), allweak, origall);
      ClearableKept(w1, Now(), weak);
      CleanTransitive(w, w1, Now());
    }

    /** Drops the remaining entries of weak tables with unmarked keys or values. */
    method ClearDead(origweak: seq<Obj>, origall: seq<Obj>, ghost X: iset<Obj>)
      requires Marking(Now(), [], iset{}, X) && gcstate == InsideAtomic && gray == []
      requires EphemeronsSettled(Now()) && Suffix(origweak, weak) && Suffix(origall, allweak)
      requires ValsCleared(Now(), origweak) && ValsCleared(Now(), origall)
      modifies this`heap, this`color
      ensures Marking(Now(), [], iset{}, X) && Clean(old(Now()), Now())
      ensures Compact(Now())
    {
      ghost var w := Now();
      ListsClearable(w, X);
      PartsClearable(w, weak, origweak);
      PartsClearable(w, allweak, origall);
      ClearAllKeys(X);
      ghost var w1 := Now();
      ClearableKept(w, w1, weak);
      ClearableKept(w, w1, allweak);
      CleanShrinks(w, w1);
      ListsKept(w, w1, origweak);
      ListsKept(w, w1, origall);
      ClearNewValues(origweak, origall, X);
      KeysClearedKept(w1, Now(), ephemeron);
      ClearableKept(w1, Now(), allweak);
      CleanTransitive(w, w1, Now());
      CleanSettled(w, Now(), X);
      NothingDangles(Now(), X);
    }

    method ClearAllKeys(ghost X: iset<Obj>)
      requires Marking(Now(), [], iset{}, X) && gcstate == InsideAtomic && gray == []
      modifies this`heap, this`color
      ensures Marking(Now(), [], iset{}, X) && Clean(old(Now()), Now())
      ensures AllMarkedTables(Now(), ephemeron)
      ensures KeysCleared(Now(), ephemeron) && KeysCleared(Now(), allweak)
    {
      ghost var w := Now();
      ListsClearable(w, X);
      ClearKeys(ephemeron, X);
      ghost var w1 := Now();
      CleanShrinks(w, w1);
      ListsKept(w, w1, ephemeron);
      ListsKept(w, w1, allweak);
      ClearKeys(allweak, X);
      KeysClearedKept(w1, Now(), ephemeron);
      CleanTransitive(w, w1, Now());
    }

    /** Forgets the cached strings that are about to be freed. */
    method ClearCache()
      modifies this`strcache
      ensures |strcache| == |old(strcache)|
      ensures forall i :: 0 <= i < |strcache| ==>
        strcache[i] == if IsWhite(Ref(old(strcache)[i])) then memerrmsg else old(strcache)[i]
    {
      for i := 0 to |strcache|
        invariant |strcache| == |old(strcache)|
        invariant forall k :: 0 <= k < i ==>
          strcache[k] == if IsWhite(Ref(old(strcache)[k])) then memerrmsg else old(strcache)[k]
        invariant forall k :: i <= k < |strcache| ==> strcache[k] == old(strcache)[k]
      {
        if IsWhite(Ref(strcache[i])) {
          strcache := strcache[i := memerrmsg];
        }
      }
    }

    /** Separates the unreachable objects that have a finalizer, and marks them. */
    method SeparateAndResurrect(ghost X: iset<Obj>)
      requires Marking(Now(), [], iset{}, X) && gcstate == InsideAtomic && gray == []
      requires ListIn(Allocated(color), tobefnz) && ListIn(X, tobefnz)
      requires ListIn(Allocated(color), finobj) && ListIn(X, finobj)
      modifies this`finobj, this`tobefnz, this`gcfinnum
      modifies this`heap, this`color, this`gray, this`grayagain, this`weak, this`ephemeron, this`allweak
      ensures Marking(Now(), [], iset{}, X)
      ensures gray == [] && gcstate == InsideAtomic
      ensures EphemeronsSettled(Now()) && ListIn(Marked(color), tobefnz)
      ensures Resurrected(old(Now()), Now())
    {
      ghost var w := Now();
      Separated(finobj, color, false);
      SeparateToBeFnz(false);
      gcfinnum := 1;
      ghost var w1 := Now();
      assert w1 == w.(finobj := w1.finobj, tobefnz := w1.tobefnz, gcfinnum := 1);
      OwnersChanged(w, w1, [], X);
      Resurrect(X);
      assert Separation(w, w1);
      assert Advance(w1, Now());
    }

    method MarkAndClear(ghost X: iset<Obj>) returns (ghost w1: World)
      requires Marking(Now(), [], iset{}, X) && gcstate == Atomic && gray == [] && RootsOk(Now(), X)
      requires mainthread in Marked(color) && ListIn(Marked(color), tobefnz) && X == Drawn(Now())
      modifies this`heap, this`color, this`gcstate, this`gray, this`grayagain
      modifies this`weak, this`ephemeron, this`allweak
      ensures Marking(Now(), [], iset{}, X) && FirstHalf(old(Now()), w1, Now())
      ensures gcstate == InsideAtomic && gray == []
      ensures ValsCleared(Now(), weak) && ValsCleared(Now(), allweak)
    {
      ghost var w0 := Now();
      MarkReachable(X);
      w1 := Now();
      ClearUnreachable(X);
      PullsBack(w0, w1, Now(), X);
      DrawnMarked(w0, w1, Now());
      FirstPurged(w0, w1, Now());
      assert FirstHalf(w0, w1, Now());
    }

    method SeparateAndClear(ghost X: iset<Obj>) returns (ghost w4: World)
      requires Marking(Now(), [], iset{}, X) && gcstate == InsideAtomic && gray == []
      requires ListIn(Allocated(color), tobefnz) && ListIn(X, tobefnz)
      requires ListIn(Allocated(color), finobj) && ListIn(X, finobj)
      requires ValsCleared(Now(), weak) && ValsCleared(Now(), allweak)
      modifies this`finobj, this`tobefnz, this`gcfinnum
      modifies this`heap, this`color, this`gray, this`grayagain, this`weak, this`ephemeron, this`allweak
      ensures SecondHalf(old(Now()), w4, Now(), X)
    {
      ghost var w2 := Now();
      var origweak, origall := weak, allweak;
      SeparateAndResurrect(X);
      w4 := Now();
      SettledLimits(w4, X);
      StillCleared(w2, w4, X);
      ClearDead(origweak, origall, X);
      MarkedInBound(Now(), [], iset{}, X);
      BlindStays(Now(), [], iset{}, X);
      assert Compact(Now());
      assert SecondHalf(w2, w4, Now(), X);
    }

    /** The part of the collection that cannot be interrupted. */
    method AtomicStep(ghost X: iset<Obj>)
      requires Marking(Now(), [], iset{}, X) && gcstate == Atomic && gray == [] && Ready(Now(), X)
      modifies this`heap, this`color, this`currentwhite, this`gcstate, this`finobj, this`tobefnz
      modifies this`gray, this`grayagain, this`weak, this`ephemeron, this`allweak
      modifies this`strcache, this`gcfinnum
      ensures Flipped(old(Now()), Now(), X)
    {
      ghost var w0 := Now();
      BoundDrawn(w0, [], iset{}, X);
      ghost var w1 := MarkAndClear(Drawn(w0));
      ghost var w2 := Now();
      HalfBounded(w0, w1, w2, X);
      StillReady(w0, w1, w2, X);
      ghost var w4 := SeparateAndClear(X);
      ghost var w5 := Now();
      ClearAndFlip();
      Composed(w0, w1, w2, w4, w5, Now(), X);
    }

    /** Clears the string cache and exchanges the two whites. */
    method ClearAndFlip()
      modifies this`strcache, this`currentwhite
      ensures CacheCleared(old(Now()), Now())
      ensures Now() == old(Now()).(strcache := strcache, white := !old(currentwhite))
    {
      ghost var w := Now();
      ClearCache();
      currentwhite := !currentwhite;
      assert Now() == w.(strcache := strcache, white := !w.white);
    }

    // ----- the sweep -----

    predicate IsDead(o: Obj)
      reads this
    {
      o in color && color[o] == White(!currentwhite)
    }

    function CurrentList(which: List): seq<Obj>
      reads this
    {
      match which
      case AllGc => allgc
      case FinObj => finobj
      case ToBeFnz => tobefnz
    }

    /** Sweeps at most `max` objects of list `which` from `p` on: frees the dead ones,
        and turns the others to the current white. Tells where to go on. */
    method SweepList(which: List, p: Cursor, max: nat) returns (q: Cursor)
      requires Intact(Now()) && SweptTo(Now(), which, p)
      modifies this`heap, this`color, this`allgc
      ensures Intact(Now()) && Sweeps(old(Now()), Now()) && SweptTo(Now(), which, q)
      ensures SameOthers(old(Now()), Now(), which)
      ensures p != NoCursor && max > 0 ==>
        Remaining(CurrentList(which), q) < old(Remaining(CurrentList(which), p)) || q == NoCursor
    {
      ghost var w0 := Now();
      assert Sweeps(w0, w0);
      MovedOthers(w0, w0, which);
      var i: nat := Position(CurrentList(which), p);
      var count := max;
      while i < |CurrentList(which)| && count > 0
        invariant Intact(Now()) && Sweeps(w0, Now())
        invariant i <= |CurrentList(which)| && Current(Now(), CurrentList(which)[..i])
        invariant SameOthers(w0, Now(), which)
        invariant |CurrentList(which)| - i <= |ListOf(w0, which)| - Position(ListOf(w0, which), p)
        invariant count < max ==>
          |CurrentList(which)| - i < |ListOf(w0, which)| - Position(ListOf(w0, which), p)
        decreases |CurrentList(which)| - i
      {
        ghost var w := Now();
        i := SweepOne(which, i);
        SweepsTransitive(w0, w, Now());
        SameOthersTransitive(w0, w, Now(), which);
        count := count - 1;
      }
      q := CursorAt(which, CurrentList(which), i);
      CursorPosition(Now(), which, i);
    }

    method SweepOne(which: List, i: nat) returns (next: nat)
      requires Intact(Now()) && i < |CurrentList(which)| && Current(Now(), CurrentList(which)[..i])
      modifies this`heap, this`color, this`allgc
      ensures Intact(Now()) && Sweeps(old(Now()), Now())
      ensures next <= |CurrentList(which)| && Current(Now(), CurrentList(which)[..next])
      ensures |CurrentList(which)| - next == |old(CurrentList(which))| - i - 1
      ensures SameOthers(old(Now()), Now(), which)
    {
      var curr := CurrentList(which)[i];
      assert ListOf(Now(), which) == CurrentList(which);
      NotFixed(Now(), which, curr);
      if IsDead(curr) {
        Freed(Now(), which, i);
        FreeObj(i);
        next := i;
      } else {
        ghost var w := Now();
        WhitenedOthers(w, curr, which);
        MakeWhite(curr);
        assert Now() == w.(color := w.color[curr := White(w.white)]);
        SweptStep(w, Now(), which, i);
        next := i + 1;
      }
    }

    /** Unlinks a dead object and frees it; only `allgc` can hold one. */
    method FreeObj(i: nat)
      requires Intact(Now()) && i < |allgc| && IsDead(allgc[i]) && Current(Now(), allgc[..i])
      modifies this`heap, this`color, this`allgc
      ensures Intact(Now()) && Sweeps(old(Now()), Now())
      ensures |allgc| == |old(allgc)| - 1 && Current(Now(), allgc[..i])
      ensures SameOthers(old(Now()), Now(), AllGc)
    {
      ghost var w := Now();
      var curr := allgc[i];
      ghost var w2 := Without(w.(allgc := w.allgc[..i] + w.allgc[i + 1..]), curr);
      allgc := allgc[..i] + allgc[i + 1..];
      heap, color := heap.(objs := heap.objs - {curr}), color - {curr};
      assert Now() == w2;
      Freed(w, AllGc, i);
      FreedOthers(w, i);
      FreedStep(w, i, w2);
    }

    method MakeWhite(o: Obj)
      requires Intact(Now()) && o in Alive(Now()) && o !in fixedgc
      modifies this`color
      ensures Intact(Now()) && Sweeps(old(Now()), Now())
      ensures color == old(color)[o := White(currentwhite)]
    {
      ghost var w := Now();
      Whitened(w, o);
      color := color[o := White(currentwhite)];
      assert Now() == w.(color := w.color[o := White(w.white)]);
    }

    /** Sweeps at most `max` objects of list `which`. */
    method MoveSweep(which: List, max: nat)
      requires Intact(Now()) && SweptTo(Now(), which, sweepgc) && sweepgc != NoCursor && max > 0
      modifies this`heap, this`color, this`allgc, this`sweepgc
      ensures Intact(Now()) && Sweeps(old(Now()), Now()) && SweptTo(Now(), which, sweepgc)
      ensures SameOthers(old(Now()), Now(), which)
      ensures Remaining(ListOf(Now(), which), sweepgc) < old(Remaining(ListOf(Now(), which), sweepgc))
        || sweepgc == NoCursor
    {
      ghost var w := Now();
      var p := SweepList(which, sweepgc, max);
      ghost var w1 := Now();
      sweepgc := p;
      assert Now() == w1.(sweepgc := p);
      MovedSweep(w1, Now(), which, p);
      SweepsTransitive(w, w1, Now());
      SameOthersTransitive(w, w1, Now(), which);
    }

    method EnterPhase(nextstate: Phase, nextlist: Cursor)
      requires Intact(Now())
      modifies this`gcstate, this`sweepgc
      ensures Intact(Now()) && Sweeps(old(Now()), Now())
      ensures Now() == old(Now()).(phase := nextstate, sweepgc := nextlist)
    {
      ghost var w := Now();
      gcstate, sweepgc := nextstate, nextlist;
      assert Now() == w.(phase := nextstate, sweepgc := nextlist);
      IntactMoved(w, Now());
      MovedSweeps(w, Now());
    }

    /** Starts the sweep; an object or the end of the list is put behind `sweepgc`, so
        that what is allocated from now on need not be swept. */
    method EnterSweep()
      requires Intact(Now()) && sweepgc == NoCursor
      modifies this`heap, this`color, this`allgc, this`gcstate, this`sweepgc
      ensures Intact(Now()) && gcstate == SwpAllgc && SweepPhase(Now())
      ensures Sweeps(old(Now()), Now())
    {
      ghost var w := Now();
      EnterPhase(SwpAllgc, Header(AllGc));
      ghost var w1 := Now();
      MoveSweep(AllGc, 1);
      SweepsTransitive(w, w1, Now());
    }

    /** Sweeps a part of list `which`, or goes on to the next phase when it is done. */
    method SweepStep(which: List, nextstate: Phase, nextlist: Cursor)
      requires Intact(Now()) && SweptTo(Now(), which, sweepgc) && gcstate != nextstate
      modifies this`heap, this`color, this`allgc, this`gcstate, this`sweepgc
      ensures Intact(Now()) && Sweeps(old(Now()), Now()) && SameOthers(old(Now()), Now(), which)
      ensures gcstate == old(gcstate) || gcstate == nextstate
      ensures gcstate != nextstate ==> SweptTo(Now(), which, sweepgc) && sweepgc != NoCursor
      ensures gcstate != nextstate ==>
        Remaining(ListOf(Now(), which), sweepgc) < old(Remaining(ListOf(Now(), which), sweepgc))
      ensures gcstate == nextstate ==> sweepgc == nextlist && Current(Now(), ListOf(Now(), which))
      ensures old(sweepgc) == NoCursor ==> color == old(color)
    {
      ghost var w := Now();
      assert Sweeps(w, w) by { MovedSweeps(w, w); }
      MovedOthers(w, w, which);
      if sweepgc != NoCursor {
        MoveSweep(which, GCSWEEPMAX);
        if sweepgc != NoCursor {
          return;
        }
      }
      FinishList(which, nextstate, nextlist, w);
    }

    method FinishList(which: List, nextstate: Phase, nextlist: Cursor, ghost w: World)
      requires Intact(Now()) && SweptTo(Now(), which, sweepgc) && sweepgc == NoCursor
      requires Sweeps(w, Now()) && SameOthers(w, Now(), which)
      modifies this`gcstate, this`sweepgc
      ensures Intact(Now()) && Sweeps(w, Now()) && SameOthers(w, Now(), which)
      ensures gcstate == nextstate && sweepgc == nextlist && Current(Now(), ListOf(Now(), which))
    {
      ghost var w1 := Now();
      SweptNoMore(w1, which);
      EnterPhase(nextstate, nextlist);
      SweepsTransitive(w, w1, Now());
      MovedOthers(w1, Now(), which);
      SameOthersTransitive(w, w1, Now(), which);
    }

    // ----- finalizers -----

    /** Takes the first object to be finalized back to the ordinary objects. This keeps
        the invariant unless the sweep stands behind that object, with an object behind it
        that it has not swept. */
    method Udata2Finalize(ghost X: iset<Obj>) returns (o: Obj)
      requires Loose(Now(), X) && tobefnz != []
      modifies this`tobefnz, this`allgc, this`fin, this`color, this`blind
      ensures o == old(tobefnz)[0] && Now() == Taken(old(Now()))
      ensures Loose(Now(), X) && (StaleMarked(old(Now())) ==> StaleMarked(Now()))
      ensures old(Valid(Now(), X)) ==>
        (Valid(Now(), X) <==> !(Stranding(old(Now())) && exists p :: LeftBehind(old(Now()), p)))
    {
      ghost var w := Now();
      TakenLoose(w, X);
      if Valid(w, X) { TakenValid(w, X); }
      o := TakeFirst();
    }

    method TakeFirst() returns (o: Obj)
      requires tobefnz != []
      modifies this`tobefnz, this`allgc, this`fin, this`color, this`blind
      ensures o == old(tobefnz)[0] && Now() == Taken(old(Now()))
    {
      ghost var w := Now();
      o := Requeue();
      ghost var w1 := Now();
      if SweepingPhase(gcstate) {
        color := color[o := White(currentwhite)];
        assert Now() == w1.(color := w1.color[o := White(w1.white)]);
      }
      blind := BlindAfter(w);
    }

    method Requeue() returns (o: Obj)
      requires tobefnz != []
      modifies this`tobefnz, this`allgc, this`fin
      ensures o == old(tobefnz)[0] && Now() == Requeued(old(Now()))
    {
      o := tobefnz[0];
      tobefnz, allgc, fin := tobefnz[1..], [o] + allgc, fin - {o};
    }

    /** Calls up to `gcfinnum` finalizers, which here do nothing. Coming past the place of
        the sweep, it leaves just those unswept that are left in `tobefnz` and did not have
        the current white. */
    method RunFewFinalizers(ghost X: iset<Obj>) returns (n: nat)
      requires Loose(Now(), X)
      modifies this`tobefnz, this`allgc, this`fin, this`color, this`gcfinnum, this`blind
      ensures n == if |old(tobefnz)| < old(gcfinnum) then |old(tobefnz)| else old(gcfinnum)
      ensures Loose(Now(), X) && tobefnz == old(tobefnz)[n..]
      ensures StaleMarked(old(Now())) ==> StaleMarked(Now())
      ensures !SweepingPhase(gcstate) ==> color == old(color) && blind == old(blind)
      ensures gcstate == SwpTobefnz && old(blind) == map[] ==> TookSome(old(Now()), Now(), n)
      ensures gcfinnum == if tobefnz == [] then 0 else old(gcfinnum) * 2
    {
      ghost var w0 := Now();
      n := Finalizers(X);
      FinalizedOut(w0, Now(), n);
      ghost var w := Now();
      SetFinnum(X);
      FinalizedOut(w0, w, n);
      if gcstate == SwpTobefnz && w0.blind == map[] { TookSet(w0, w, Now(), n); }
    }

    method Finalizers(ghost X: iset<Obj>) returns (n: nat)
      requires Loose(Now(), X)
      modifies this`tobefnz, this`allgc, this`fin, this`color, this`blind
      ensures n == if |old(tobefnz)| < old(gcfinnum) then |old(tobefnz)| else old(gcfinnum)
      ensures Loose(Now(), X) && Finalized(old(Now()), Now(), n)
    {
      n := 0;
      ghost var w0 := Now();
      FinalizedNone(w0, X);
      while tobefnz != [] && n < gcfinnum
        invariant Loose(Now(), X) && Finalized(w0, Now(), n)
        invariant n <= |w0.tobefnz| && n <= gcfinnum && |tobefnz| == |w0.tobefnz| - n
        decreases |tobefnz|
      {
        n := OneFinalizer(n, w0, X);
      }
    }

    method OneFinalizer(k: nat, ghost w0: World, ghost X: iset<Obj>) returns (n: nat)
      requires Loose(Now(), X) && tobefnz != [] && Finalized(w0, Now(), k)
      modifies this`tobefnz, this`allgc, this`fin, this`color, this`blind
      ensures n == k + 1 && Loose(Now(), X) && Finalized(w0, Now(), n) && |tobefnz| == |old(tobefnz)| - 1
    {
      FinalizedMore(w0, Now(), k, X);
      var _ := Udata2Finalize(X);
      n := k + 1;
    }

    method SetFinnum(ghost X: iset<Obj>)
      requires Loose(Now(), X)
      modifies this`gcfinnum
      ensures Loose(Now(), X) && (StaleMarked(old(Now())) ==> StaleMarked(Now()))
      ensures gcfinnum == if tobefnz == [] then 0 else old(gcfinnum) * 2
    {
      ghost var w := Now();
      GcfinnumPositive(w, X);
      gcfinnum := if tobefnz == [] then 0 else gcfinnum * 2;
      assert Now() == w.(gcfinnum := gcfinnum);
      FlagsSet(w, Now(), X);
    }

    // ----- single steps -----

    method ResetGrayLists()
      modifies this`gray, this`grayagain, this`weak, this`allweak, this`ephemeron
      ensures Now() == Emptied(old(Now()))
    {
      gray, grayagain := [], [];
      ResetWeakLists();
    }

    method ResetWeakLists()
      modifies this`weak, this`allweak, this`ephemeron
      ensures Now() == old(Now()).(weak := [], allweak := [], ephemeron := [])
    {
      weak, allweak, ephemeron := [], [], [];
    }

    /** Marks the roots that a collection starts from. */
    method RestartCollection(ghost X: iset<Obj>)
      requires gcstate == Pause && Marking(Emptied(Now()), [], iset{}, X) && RootsOk(Emptied(Now()), X)
      modifies this`color, this`gray, this`grayagain, this`weak, this`allweak, this`ephemeron
      ensures Marking(Now(), [], iset{}, X) && Spread(Emptied(old(Now())), Now()) && Started(Now())
    {
      ResetGrayLists();
      ghost var w1 := Now();
      MarkValue(Ref(mainthread), [], iset{}, X);
      ghost var w2 := Now();
      RootsStay(w1, w2, X);
      MarkRegistryAndMt(X);
      ghost var w3 := Now();
      RootsStay(w2, w3, X);
      MarkBeingFnz([], X);
      SpreadTransitive(w2, w3, Now());
      StartedNow(w1, w2, Now());
    }

    method MarkRegistryAndMt(ghost X: iset<Obj>)
      requires Marking(Now(), [], iset{}, X) && RootsOk(Now(), X)
      modifies this`color, this`gray
      ensures Marking(Now(), [], iset{}, X) && Spread(old(Now()), Now())
    {
      ghost var w := Now();
      MarkValue(registry, [], iset{}, X);
      ghost var w1 := Now();
      RootsStay(w, w1, X);
      MarkMt([], X);
      SpreadTransitive(w, w1, Now());
    }

    method StepPause(ghost X: iset<Obj>)
      requires Loose(Now(), X) && gcstate == Pause
      modifies this`color, this`gray, this`grayagain, this`weak, this`allweak, this`ephemeron, this`gcstate
      ensures Loose(Now(), X) && StepOk(old(Now()), Now(), X) && stale == old(stale)
    {
      ghost var w := Now();
      RestartDrawn(w, X);
      RestartCollection(Drawn(w));
      ghost var w1 := Now();
      RestartedDrawn(w, w1, X);
      gcstate := Propagate;
      assert Now() == w1.(phase := Propagate);
      Restarted(w, w1, X);
      PauseStepOk(w, w1, X);
    }

    method StepPropagate(ghost X: iset<Obj>)
      requires Loose(Now(), X) && gcstate == Propagate
      modifies this`heap, this`color, this`gray, this`grayagain, this`weak, this`ephemeron, this`allweak
      modifies this`gcstate
      ensures Loose(Now(), X) && StepOk(old(Now()), Now(), X)
      ensures StaleMarked(old(Now())) ==> StaleMarked(Now())
    {
      ghost var w := Now();
      GrayLeft(w, X);
      MarkingDrawn(w, X);
      PropagateMark([], Drawn(w));
      ghost var w1 := Now();
      AdvancedDrawn(w, w1, X);
      if gray == [] {
        gcstate := Atomic;
      }
      assert Now() == w1.(phase := if w1.gray == [] then Atomic else Propagate);
      Propagated(w, w1, X);
      PropagateStepOk(w, w1, Now(), X);
      StaleStays(w, w1);
    }

    method StepAtomic(ghost X: iset<Obj>)
      requires Loose(Now(), X) && gcstate == Atomic && StaleMarked(Now())
      modifies this`heap, this`color, this`currentwhite, this`gcstate, this`finobj, this`tobefnz
      modifies this`gray, this`grayagain, this`weak, this`ephemeron, this`allweak, this`stale
      modifies this`strcache, this`gcfinnum, this`allgc, this`sweepgc
      ensures Loose(Now(), X) && StepOk(old(Now()), Now(), X) && stale == {}
    {
      ghost var w := Now();
      MarkingDrawn(w, X);
      PropagateAll([], Drawn(w));
      ghost var w1 := Now();
      AdvancedDrawn(w, w1, X);
      AtomicReady(w, w1, X);
      AtomicStep(X);
      ghost var w2 := Now();
      AtomicDone(w, w1, w2, X);
      stale := {};
      ghost var w3 := Now();
      assert w3 == w2.(stale := {});
      EnterSweep();
      AtomicSwept(w, w1, w2, Now(), X);
    }

    method StepSweep(ghost X: iset<Obj>)
      requires Loose(Now(), X) && (gcstate == SwpAllgc || gcstate == SwpFinobj || gcstate == SwpTobefnz)
      requires gcstate == SwpFinobj ==> blind == map[]
      modifies this`heap, this`color, this`allgc, this`gcstate, this`sweepgc
      ensures Loose(Now(), X) && StepOk(old(Now()), Now(), X)
    {
      ghost var w := Now();
      LooseOut(w, X);
      if gcstate == SwpAllgc {
        HoldingPhase(w, AllGc);
        SweepStep(HoldingList(allgc, finobj, sweepgc, AllGc), SwpFinobj, Header(FinObj));
        AllgcStepped(w, Now(), X);
      } else if gcstate == SwpFinobj {
        HoldingPhase(w, FinObj);
        SweepStep(HoldingList(allgc, finobj, sweepgc, FinObj), SwpTobefnz, Header(ToBeFnz));
        FinobjStepped(w, Now(), X);
      } else {
        HoldingTobefnz(w);
        SweepStep(HoldingList(allgc, finobj, sweepgc, ToBeFnz), SwpEnd, NoCursor);
        TobefnzStepped(w, Now(), HoldingList(w.allgc, w.finobj, w.sweepgc, ToBeFnz), X);
      }
    }

    method StepSwpEnd(ghost X: iset<Obj>)
      requires Loose(Now(), X) && gcstate == SwpEnd
      modifies this`color, this`gcstate, this`sweepgc
      ensures Loose(Now(), X) && StepOk(old(Now()), Now(), X)
    {
      ghost var w := Now();
      LooseOut(w, X);
      MainAlive(w);
      MakeWhite(mainthread);
      ghost var w1 := Now();
      EnterPhase(CallFin, sweepgc);
      SweepsTransitive(w, w1, Now());
      EndStepped(w, Now(), X);
    }

    /** Calls finalizers, or ends the collection. */
    method StepCallFin(ghost X: iset<Obj>)
      requires Loose(Now(), X) && gcstate == CallFin
      modifies this`tobefnz, this`allgc, this`fin, this`color, this`gcfinnum, this`gcstate, this`blind
      ensures Loose(Now(), X) && StepOk(old(Now()), Now(), X)
    {
      ghost var w := Now();
      if tobefnz != [] && !emergency {
        StepFinalizers(X);
      } else {
        PausedStepOk(w, X);
        gcstate := Pause;
        assert Now() == w.(phase := Pause);
      }
    }

    method StepFinalizers(ghost X: iset<Obj>)
      requires Loose(Now(), X) && gcstate == CallFin && tobefnz != [] && !emergency
      modifies this`tobefnz, this`allgc, this`fin, this`color, this`gcfinnum, this`blind
      ensures Loose(Now(), X) && StepOk(old(Now()), Now(), X)
    {
      ghost var w := Now();
      GcfinnumPositive(w, X);
      var n := RunFewFinalizers(X);
      FinalizedStepOk(w, Now(), n, X);
    }

    /** One step of the collector: it frees nothing reachable, and empties only entries of
        weak tables that have an unreachable key or value. A step that goes on sweeping
        behind the objects that were missed before is not covered. */
    method SingleStep(ghost X: iset<Obj>)
      requires Loose(Now(), X) && StaleMarked(Now()) && (gcstate == SwpFinobj ==> blind == map[])
      modifies this
      ensures Loose(Now(), X) && StaleMarked(Now()) && StepOk(old(Now()), Now(), X)
      ensures old(gcstate) == CallFin && old(tobefnz) != [] && !old(emergency) ==>
        gcstate == CallFin && tobefnz == old(tobefnz)[old(Due(Now()))..] && |tobefnz| < |old(tobefnz)|
    {
      LooseOut(Now(), X);
      match gcstate
      case Pause => StepPause(X);
      case Propagate => StepPropagate(X);
      case Atomic => StepAtomic(X);
      case SwpAllgc => StepSweep(X);
      case SwpFinobj => StepSweep(X);
      case SwpTobefnz => StepSweep(X);
      case SwpEnd => StepSwpEnd(X);
      case CallFin => StepCallFin(X);
    }

    /** Goes on to a phase of `mask`; `t` is one of them. */
    method RunTilState(mask: set<Phase>, ghost t: Phase, ghost X: iset<Obj>)
      requires Loose(Now(), X) && StaleMarked(Now()) && t in mask && t != InsideAtomic
      requires MayRun(Now(), mask)
      modifies this
      ensures Loose(Now(), X) && StaleMarked(Now()) && gcstate in mask && RunOk(old(Now()), Now(), mask)
      ensures gcstate == Pause && old(gcstate) !in mask ==> Allocated(color) <= X
    {
      ghost var w0 := Now();
      NoRun(w0, mask);
      while gcstate !in mask
        invariant Loose(Now(), X) && StaleMarked(Now()) && RunOk(w0, Now(), mask)
        invariant OnTheWay(w0.phase, gcstate, mask) && MayRun(Now(), mask)
        invariant gcstate == Pause ==> Allocated(color) <= X || gcstate == w0.phase
        decreases Ahead(gcstate, t), Left(Now())
      {
        RunOne(mask, t, w0, X);
      }
    }

    method RunOne(ghost mask: set<Phase>, ghost t: Phase, ghost w0: World, ghost X: iset<Obj>)
      requires Loose(Now(), X) && StaleMarked(Now()) && RunOk(w0, Now(), mask)
      requires OnTheWay(w0.phase, gcstate, mask) && MayRun(Now(), mask)
      requires gcstate !in mask && t in mask && t != InsideAtomic
      modifies this
      ensures Loose(Now(), X) && StaleMarked(Now()) && RunOk(w0, Now(), mask)
      ensures OnTheWay(w0.phase, gcstate, mask) && MayRun(Now(), mask)
      ensures gcstate == Pause ==> Allocated(color) <= X
      ensures 0 <= Ahead(gcstate, t) <= old(Ahead(gcstate, t)) && old(Left(Now())) >= 0
      ensures Ahead(gcstate, t) == old(Ahead(gcstate, t)) ==> Left(Now()) < old(Left(Now()))
    {
      ghost var w := Now();
      NotInside(w, X);
      SingleStep(X);
      RunStep(w0, w, Now(), mask, X);
      StepDecreases(w, Now(), t, X);
    }

    /** Finishes the collection under way, if any, without marking. Coming from a marking
        phase this only turns all objects back to white. */
    method FinishCycle()
      requires Valid(Now(), Everything())
      modifies this
      ensures Valid(Now(), Everything()) && gcstate == Pause && emergency == old(emergency)
      ensures Thins(old(Now()), Now()) && tobefnz == Waiting(old(Now()), emergency).tobefnz
      ensures MarkingPhase(old(gcstate)) ==> heap == old(heap)
    {
      ghost var w := Now();
      assert Thins(w, w);
      if MarkingPhase(gcstate) {
        StopMarking();
      }
      ghost var w1 := Now();
      if gcstate != Pause {
        LooseOut(w1, Everything());
        RunTilState({Pause}, Pause, Everything());
        RunOut(w1, Now(), {Pause});
        ThinsTransitive(w, w1, Now());
      }
      if MarkingPhase(w.phase) {
        NothingDead(w, Everything());
        ThinsNothing(w, Now());
      }
    }

    method StopMarking()
      requires Valid(Now(), Everything()) && MarkingPhase(gcstate)
      modifies this
      ensures Valid(Now(), Everything()) && gcstate == SwpAllgc && emergency == old(emergency)
      ensures Thins(old(Now()), Now()) && tobefnz == old(tobefnz)
    {
      ghost var w := Now();
      LooseOut(w, Everything());
      NothingDead(w, Everything());
      stale := {};
      ghost var w1 := Now();
      assert w1 == w.(stale := {});
      IntactUnstale(w, w1);
      EnterSweep();
      SweptBlind(w1, Now());
      SweptValid(w1, Now(), Everything());
      SweepsThins(w1, Now());
      StoppedThins(w, w1, Now());
    }

    method SetEmergency(on: bool, ghost X: iset<Obj>)
      requires Loose(Now(), X) && StaleMarked(Now())
      modifies this`emergency
      ensures Loose(Now(), X) && StaleMarked(Now()) && Now() == old(Now()).(emergency := on)
    {
      ghost var w := Now();
      GcfinnumPositive(w, X);
      emergency := on;
      assert Now() == w.(emergency := on);
      FlagsSet(w, Now(), X);
    }

    /** A new collection from beginning to end. Strings apart, it keeps exactly what
        marking comes to. */
    method WholeCycle(ghost X: iset<Obj>)
      requires Valid(Now(), X) && gcstate == Pause
      modifies this
      ensures Valid(Now(), X) && gcstate == Pause && emergency == old(emergency)
      ensures Reached(old(Now())) <= Allocated(color) <= X
      ensures forall o :: o in old(Marks(Now())) && !IsStr(old(heap), Ref(o)) ==> o in color
      ensures Ended(old(Now()), Now())
    {
      ghost var w1 := Now();
      var started := {Propagate, Atomic, SwpAllgc, SwpFinobj, SwpTobefnz, SwpEnd, CallFin};
      RunTilState(started, Propagate, X);
      ghost var w2 := Now();
      RunTilState({CallFin}, CallFin, X);
      ghost var w3 := Now();
      RunTilState({Pause}, Pause, X);
      CycleKeeps(w1, w2, w3, Now(), started);
      PauseAlive(Now(), X);
    }

    /** The same, between two pauses: an object that is not a string is there afterwards
        exactly when marking comes to it, and an object with a finalizer still has it exactly
        when the program can get at the object. */
    method ExactCycle()
      requires Valid(Now(), Everything()) && gcstate == Pause
      modifies this
      ensures Valid(Now(), Everything()) && gcstate == Pause
      ensures forall o :: o in old(heap.objs) && !IsStr(old(heap), Ref(o)) ==>
        (o in heap.objs <==> o in old(Marks(Now())))
      ensures Ended(old(Now()), Now())
    {
      ghost var w := Now();
      MarksLimit(w);
      PauseLimits(w, Marks(w));
      PauseValid(w, Everything(), Marks(w));
      WholeCycle(Marks(w));
      assert color.Keys == heap.objs.Keys;
      PauseForAll(Now(), Marks(w));
    }

    /** Frees everything outside `X`, for every closed `X` that holds the roots and the
        objects with finalizers, and nothing reachable; finalizers do nothing. But for an
        emergency it calls the finalizers of all objects that were to be finalized already
        or that the program can no longer get at, and of no others. */
    method FullGc(isemergency: bool, ghost X: iset<Obj>)
      requires Valid(Now(), Everything()) && !emergency && Kept(Now(), X)
      modifies this
      ensures Valid(Now(), Everything()) && gcstate == Pause && !emergency
      ensures Reached(old(Now()).(tobefnz := [], stale := {})) <= Allocated(color) <= X
      ensures forall o :: o in color && o !in fixedgc ==> color[o] == White(currentwhite)
      ensures FinalizersCalled(old(Now()), Now(), isemergency)
    {
      ghost var w := Now();
      SetEmergency(isemergency, Everything());
      ghost var w0 := Now();
      FinishCycle();
      ghost var w1 := Now();
      FinishedDrawn(w, w0, w1, isemergency);
      PauseFor(w0, w1, X);
      WholeCycle(X);
      LooseOut(w0, Everything());
      NoneStale(w1, X);
      ReachedThinned(w0, w1);
      SameReached(w.(tobefnz := [], stale := {}), w0.(tobefnz := [], stale := {}));
      SetEmergency(false, X);
      PauseAlive(Now(), X);
      PauseForAll(Now(), X);
      CalledNow(w, w1, Now(), isemergency);
    }

    // ----- barriers -----

    /** After a reference to `v` was stored in `o`: marks `v` if the collector has already
        visited `o`, or, during the sweep, sweeps `o`. */
    method Barrier(o: Obj, v: Value)
      requires ValidBut(Now(), iset{o}) && o in Alive(Now()) && o !in fixedgc && In(Alive(Now()), v)
      requires MarkingPhase(gcstate) ==> AlmostDone(Now(), o, Of(v))
      modifies this`color, this`gray
      ensures Valid(Now(), Everything()) && Alive(Now()) == old(Alive(Now()))
    {
      ghost var w := Now();
      if color[o] == Black && IsWhite(v) {
        if MarkingPhase(gcstate) {
          ListedBut(w, iset{o});
          ReallyMarkObject(v.o, [], iset{o}, Everything());
          BarrierDone(w, Now(), o, v);
        } else {
          WhitenedBut(w, o, iset{o});
          color := color[o := White(currentwhite)];
          assert Now() == w.(color := w.color[o := White(w.white)]);
        }
      } else {
        if color[o] == Black { NotWhiteMarked(w, iset{o}, v); }
        NoBarrier(w, o, Of(v));
      }
    }

    /** After a reference to `v` was stored in table `t`: the table will be visited again
        if the collector has already visited it. */
    method BarrierBack(t: Obj, v: Value)
      requires ValidBut(Now(), iset{t}) && t in heap.objs && t in color && heap.objs[t].kind == Table
      modifies this`color, this`grayagain
      ensures ValidBut(Now(), iset{t}) && t in color
      ensures Now() == if old(color[t]) == Black && White0(old(Now()), v) then Regray(old(Now()), t) else old(Now())
    {
      ghost var w := Now();
      if color[t] == Black && IsWhite(v) {
        BackBut(w, t);
        color, grayagain := color[t := Gray], [t] + grayagain;
        assert Now() == Regray(w, t);
      }
    }

    // ----- the program -----

    /** Stores a reference to `v` in `o`, with the barrier that follows. */
    method Store(o: Obj, r: Object, v: Value)
      requires Valid(Now(), Everything()) && MayStore(Now(), o, r, Of(v))
      modifies this`heap, this`color, this`gray
      ensures Valid(Now(), Everything()) && Alive(Now()) == old(Alive(Now()))
      ensures heap == old(heap).(objs := old(heap).objs[o := r])
    {
      ghost var w := Now();
      StoreBegins(w, o, r, Of(v));
      heap := heap.(objs := heap.objs[o := r]);
      assert Now() == Stored(w, o, r);
      Barrier(o, v);
    }

    /** Stores a key and a value in table `t`, with the barriers for both. */
    method StoreEntry(t: Obj, r: Object, key: Value, val: Value)
      requires Valid(Now(), Everything()) && MayStore(Now(), t, r, Of(key) + Of(val))
      requires heap.objs[t].kind == Table
      modifies this`heap, this`color, this`grayagain
      ensures Valid(Now(), Everything()) && Alive(Now()) == old(Alive(Now()))
      ensures heap == old(heap).(objs := old(heap).objs[t := r])
    {
      ghost var w := Now();
      StoreBegins(w, t, r, Of(key) + Of(val));
      heap := heap.(objs := heap.objs[t := r]);
      ghost var w1 := Now();
      assert w1 == Stored(w, t, r);
      BarrierBack(t, key);
      ghost var w2 := Now();
      BarrierBack(t, val);
      EntryDone(w1, w2, Now(), t, key, val);
    }

    /** Sets the user value of a userdata, an upvalue of a C closure, the prototype of a
        closure or a constant of a prototype. */
    method SetSlotOf(o: Obj, i: nat, v: Value)
      requires Valid(Now(), Everything()) && o in heap.objs && o in Alive(Now()) && In(Alive(Now()), v)
      requires heap.objs[o].kind in {Udata, LClosure, CClosure, Proto} && i < |heap.objs[o].slots|
      modifies this`heap, this`color, this`gray
      ensures Valid(Now(), Everything()) && heap == SetSlot(old(heap), o, i, v)
    {
      var r := heap.objs[o];
      AddsSlot(heap, r, i, v);
      ShapedNow(Now(), o);
      NoneAllweak(Now(), o);
      Store(o, r.(slots := r.slots[i := v]), v);
    }

    /** Stores in the array part of a table. */
    method SetArray(t: Obj, i: nat, v: Value)
      requires Valid(Now(), Everything()) && t in heap.objs && t in Alive(Now()) && In(Alive(Now()), v)
      requires heap.objs[t].kind == Table && i < |heap.objs[t].slots|
      modifies this`heap, this`color, this`grayagain
      ensures Valid(Now(), Everything()) && heap == SetSlot(old(heap), t, i, v)
    {
      var r := heap.objs[t];
      AddsSlot(heap, r, i, v);
      ShapedNow(Now(), t);
      SameMeta(Now(), t);
      assert Of(Nil) + Of(v) == Of(v);
      StoreEntry(t, r.(slots := r.slots[i := v]), Nil, v);
    }

    /** Stores in the hash part of a table; a nil key is an error. */
    method SetField(t: Obj, key: Value, val: Value) returns (ok: bool)
      requires Valid(Now(), Everything()) && t in heap.objs && t in Alive(Now())
      requires heap.objs[t].kind == Table && key != DeadKey
      requires In(Alive(Now()), key) && In(Alive(Now()), val)
      modifies this`heap, this`color, this`grayagain
      ensures Valid(Now(), Everything()) && ok == (key != Nil)
      ensures heap == if !ok then old(heap) else
        var r := old(heap).objs[t];
        old(heap).(objs := old(heap).objs[t := r.(nodes := PutNode(r.nodes, key, val))])
    {
      ok := key != Nil;
      if ok {
        var r := heap.objs[t];
        var known := FindNode(r.nodes, key) < |r.nodes|;
        var added := if known then Nil else key;
        AddsNode(heap, r, key, val, known);
        ShapedNow(Now(), t);
        SameMeta(Now(), t);
        StoreEntry(t, r.(nodes := PutNode(r.nodes, key, val)), added, val);
      }
    }

    /** Replaces the stack of a thread. */
    method SetStack(th: Obj, s: seq<Value>)
      requires Valid(Now(), Everything()) && th in heap.objs && th in Alive(Now())
      requires heap.objs[th].kind == Thread && Objects(s) <= Alive(Now())
      modifies this`heap
      ensures Valid(Now(), Everything())
      ensures heap == old(heap).(objs := old(heap).objs[th := old(heap).objs[th].(slots := s)])
    {
      ghost var w := Now();
      var r := heap.objs[th].(slots := s);
      AddsStack(heap, heap.objs[th], s);
      ShapedNow(w, th);
      NoneAllweak(w, th);
      heap := heap.(objs := heap.objs[th := r]);
      assert Now() == Stored(w, th, r);
      ThreadStored(w, th, r, Objects(s));
    }

    // ----- objects with finalizers -----

    /** Sweeps on to the next object that lives. */
    method SweepToLive()
      requires Intact(Now()) && SweptTo(Now(), AllGc, sweepgc) && sweepgc != NoCursor
      modifies this`heap, this`color, this`allgc, this`sweepgc
      ensures Intact(Now()) && Sweeps(old(Now()), Now()) && SweptTo(Now(), AllGc, sweepgc)
      ensures SameOthers(old(Now()), Now(), AllGc) && sweepgc != old(sweepgc)
    {
      ghost var w := Now();
      var p := SweepList(AllGc, sweepgc, 1);
      while p == sweepgc
        invariant Intact(Now()) && Sweeps(w, Now()) && SweptTo(Now(), AllGc, p)
        invariant SameOthers(w, Now(), AllGc) && sweepgc == w.sweepgc
        decreases if p == sweepgc then 1 + Remaining(allgc, p) else 0
      {
        ghost var w1 := Now();
        p := SweepList(AllGc, sweepgc, 1);
        SweepsTransitive(w, w1, Now());
        SameOthersTransitive(w, w1, Now(), AllGc);
      }
      ghost var w2 := Now();
      sweepgc := p;
      assert Now() == w2.(sweepgc := p);
      MovedSweep(w2, Now(), AllGc, p);
      SweepsTransitive(w, w2, Now());
      SameOthersTransitive(w, w2, Now(), AllGc);
    }

    method WhitenSwept(o: Obj)
      requires Valid(Now(), Everything()) && SweepingPhase(gcstate) && o in allgc && o in Alive(Now())
      modifies this`color
      ensures Valid(Now(), Everything()) && Sweeps(old(Now()), Now())
      ensures o in Alive(Now()) && Current(Now(), [o])
      ensures sweepgc != NextOf(o) ==> Movable(Now(), o)
      ensures sweepgc == NextOf(o) ==>
        && SweptTo(Now(), AllGc, sweepgc)
        && (gcstate == SwpAllgc || (gcstate == SwpTobefnz && Astray(Now())))
    {
      ghost var w := Now();
      LooseOut(w, Everything());
      InAllgc(w, o);
      MakeWhite(o);
      WhitenedValid(w, o, Now());
      LooseOut(Now(), Everything());
      if sweepgc == NextOf(o) { BehindOrdinary(Now(), o); }
    }

    /** Sees to it that the sweep does not stand behind `o`, which is about to be moved. */
    method SweepBeforeMove(o: Obj)
      requires Valid(Now(), Everything()) && SweepingPhase(gcstate) && o in allgc && o in Alive(Now())
      modifies this`heap, this`color, this`allgc, this`sweepgc
      ensures Valid(Now(), Everything()) && Sweeps(old(Now()), Now()) && o in allgc && Movable(Now(), o)
    {
      ghost var w := Now();
      WhitenSwept(o);
      if sweepgc == NextOf(o) {
        ghost var w1 := Now();
        SweepToLive();
        StillOrdinary(w1, Now(), o);
        SweepsTransitive(w, w1, Now());
        SweptOn(w1, Now());
      }
    }

    /** Searches `allgc` for `o`. */
    method FindInAllgc(o: Obj) returns (i: nat)
      requires o in allgc
      ensures i < |allgc| && allgc[i] == o
    {
      i := 0;
      while allgc[i] != o
        invariant i < |allgc| && o in allgc[i..]
        decreases |allgc| - i
      {
        i := i + 1;
      }
    }

    method MoveToFinobj(o: Obj)
      requires Valid(Now(), Everything()) && o in allgc && Movable(Now(), o)
      requires o in heap.objs && heap.objs[o].kind != Str
      modifies this`allgc, this`finobj, this`fin
      ensures Valid(Now(), Everything()) && Alive(Now()) == old(Alive(Now()))
      ensures finobj == [o] + old(finobj) && fin == old(fin) + {o}
    {
      ghost var w := Now();
      var i := FindInAllgc(o);
      Relink(i);
      MovedOutValid(w, i, Everything());
    }

    method Relink(i: nat)
      requires i < |allgc|
      modifies this`allgc, this`finobj, this`fin
      ensures Now() == MovedOut(old(Now()), i)
    {
      allgc, finobj, fin := Cut(allgc, i), [allgc[i]] + finobj, fin + {allgc[i]};
    }

    /** Moves `o` to the objects with finalizers, if its metatable `mt` has one. */
    method CheckFinalizer(o: Obj, mt: Obj)
      requires Valid(Now(), Everything()) && (o in fin || o in allgc) && o in Alive(Now()) && mt in heap.objs
      requires o in heap.objs && heap.objs[o].kind != Str
      modifies this`heap, this`color, this`allgc, this`sweepgc, this`finobj, this`fin
      ensures Valid(Now(), Everything()) && Alive(Now()) == old(Alive(Now())) && LiveSame(old(Now()), Now())
      ensures fin == old(fin) + if old(heap).objs[mt].hasGc then {o} else {}
      ensures finobj == if old(heap).objs[mt].hasGc && o !in old(fin) then [o] + old(finobj) else old(finobj)
    {
      ghost var w := Now();
      if o !in fin && heap.objs[mt].hasGc {
        MakeMovable(o);
        ghost var w1 := Now();
        LiveThere(w, w1, o);
        MoveToFinobj(o);
        LiveOn(w, w1, Now());
      } else {
        SameHeapLive(w, w);
      }
    }

    method MakeMovable(o: Obj)
      requires Valid(Now(), Everything()) && o in allgc && o in Alive(Now())
      modifies this`heap, this`color, this`allgc, this`sweepgc
      ensures Valid(Now(), Everything()) && Alive(Now()) == old(Alive(Now())) && LiveSame(old(Now()), Now())
      ensures o in allgc && Movable(Now(), o)
    {
      ghost var w := Now();
      if SweepingPhase(gcstate) {
        SweepBeforeMove(o);
        SweepsOut(w, Now());
        SweepsLive(w, Now());
      } else {
        NoCursorElsewhere(w, o);
        SameHeapLive(w, w);
      }
    }

    ghost method NoteStale(S: set<Obj>)
      requires Valid(Now(), Everything()) && MarkingPhase(gcstate) && forall o :: o in S ==> o in allweak
      modifies this`stale
      ensures Valid(Now(), Everything()) && Now() == old(Now()).(stale := old(stale) + S)
    {
      ghost var w := Now();
      MadeStale(w, S);
      stale := stale + S;
      assert Now() == w.(stale := w.stale + S);
    }

    /** The tables of `S` that wait in `allweak` count as stale from now on. */
    ghost method NoteWaiting(S: set<Obj>)
      requires Valid(Now(), Everything())
      modifies this`stale
      ensures Valid(Now(), Everything()) && Now() == old(Now()).(stale := stale)
      ensures MarkingPhase(gcstate) ==> forall o :: o in S && o in allweak ==> o in stale
    {
      if MarkingPhase(gcstate) {
        NoteStale(set o | o in S && o in allweak);
      }
    }

    method StoreMeta(o: Obj, mt: Value)
      requires Valid(Now(), Everything()) && o in heap.objs && o in Alive(Now())
      requires heap.objs[o].kind == Table || heap.objs[o].kind == Udata
      requires (mt == Nil || mt.Ref?) && In(Alive(Now()), mt) && MetaOk(Now(), o, mt)
      requires MarkingPhase(gcstate) && o in allweak ==> o in stale
      modifies this`heap, this`color, this`gray
      ensures Valid(Now(), Everything()) && Alive(Now()) == old(Alive(Now()))
      ensures heap == old(heap).(objs := old(heap).objs[o := old(heap).objs[o].(meta := mt)])
    {
      MetaStore(Now(), o, mt);
      Store(o, heap.objs[o].(meta := mt), mt);
    }

    /** Sets the metatable of a table or userdata. */
    method SetMetatable(o: Obj, mt: Value)
      requires Valid(Now(), Everything()) && o in heap.objs && o in Alive(Now()) && (o in fin || o in allgc)
      requires heap.objs[o].kind == Table || heap.objs[o].kind == Udata
      requires mt == Nil || (mt.Ref? && mt.o in heap.objs && mt.o in Alive(Now()))
      requires MetaOk(Now(), o, mt)
      modifies this`heap, this`color, this`gray, this`allgc, this`sweepgc, this`finobj, this`fin, this`stale
      ensures Valid(Now(), Everything()) && Alive(Now()) == old(Alive(Now()))
      ensures fin == old(fin) + if mt.Ref? && old(heap).objs[mt.o].hasGc then {o} else {}
      ensures finobj == if fin == old(fin) then old(finobj) else [o] + old(finobj)
      ensures LiveBut(old(Now()), Now(), o, old(heap).objs[o].(meta := mt))
    {
      ghost var w := Now();
      PutMeta(o, mt);
      ghost var w1 := Now();
      assert mt.Ref? ==> heap.objs[mt.o].hasGc == w.heap.objs[mt.o].hasGc;
      FinalizerOf(o, mt);
      ChangedLive(w, w1, Now(), o, w.heap.objs[o].(meta := mt));
    }

    method PutMeta(o: Obj, mt: Value)
      requires Valid(Now(), Everything()) && o in heap.objs && o in Alive(Now()) && MetaOk(Now(), o, mt)
      requires heap.objs[o].kind == Table || heap.objs[o].kind == Udata
      requires mt == Nil || (mt.Ref? && mt.o in heap.objs && mt.o in Alive(Now()))
      modifies this`heap, this`color, this`gray, this`stale
      ensures Valid(Now(), Everything()) && Alive(Now()) == old(Alive(Now()))
      ensures heap == old(heap).(objs := old(heap).objs[o := old(heap).objs[o].(meta := mt)])
    {
      ghost var w := Now();
      NoteWaiting({o});
      assert Alive(Now()) == Alive(w);
      StoreMeta(o, mt);
    }

    method FinalizerOf(o: Obj, mt: Value)
      requires Valid(Now(), Everything()) && (o in fin || o in allgc) && o in Alive(Now())
      requires o in heap.objs && heap.objs[o].kind != Str
      requires mt.Ref? ==> mt.o in heap.objs
      modifies this`heap, this`color, this`allgc, this`sweepgc, this`finobj, this`fin
      ensures Valid(Now(), Everything()) && Alive(Now()) == old(Alive(Now())) && LiveSame(old(Now()), Now())
      ensures fin == old(fin) + if mt.Ref? && old(heap).objs[mt.o].hasGc then {o} else {}
      ensures finobj == if fin == old(fin) then old(finobj) else [o] + old(finobj)
    {
      if mt.Ref? {
        CheckFinalizer(o, mt.o);
      } else {
        SameHeapLive(Now(), Now());
      }
    }

    /** Sets the field `__mode` of a table. While the collector marks, the tables in
        `allweak` that have it as their metatable will not be visited again. */
    method SetMode(t: Obj, m: Mode)
      requires Valid(Now(), Everything()) && t in heap.objs
      modifies this`heap, this`stale
      ensures Valid(Now(), Everything())
      ensures heap == old(heap).(objs := old(heap).objs[t := old(heap).objs[t].(mode := m)])
    {
      NoteWaiting(set o | o in heap.objs && heap.objs[o].meta == Ref(t));
      StoreMode(t, m);
    }

    method StoreMode(t: Obj, m: Mode)
      requires Valid(Now(), Everything()) && t in heap.objs && ModeOk(Now(), t, m)
      modifies this`heap
      ensures Valid(Now(), Everything()) && Now() == ModeStored(old(Now()), t, m)
    {
      ghost var w := Now();
      ModeValid(w, t, m);
      heap := heap.(objs := heap.objs[t := heap.objs[t].(mode := m)]);
      assert Now() == ModeStored(w, t, m);
    }

    /** Marks the value of an upvalue that was just set, whatever closures share it. */
    method UpvalBarrier(v: Value, ghost busy: iset<Obj>)
      requires ValidBut(Now(), busy) && In(Alive(Now()), v)
      modifies this`color, this`gray
      ensures MarkingPhase(gcstate) ==> Marking(Now(), [], busy, Everything()) && In(Marked(color), v)
      ensures MarkingPhase(gcstate) ==> Spread(old(Now()), Now())
      ensures !MarkingPhase(gcstate) ==> Now() == old(Now())
    {
      if MarkingPhase(gcstate) {
        ListedBut(Now(), busy);
        MarkValue(v, [], busy, Everything());
      }
    }

    /** Assigns to an upvalue. */
    method SetUpvalue(u: UpVal, v: Value)
      requires Valid(Now(), Everything()) && In(Alive(Now()), v)
      modifies this`heap, this`color, this`gray
      ensures Valid(Now(), Everything()) && heap == old(heap).(ups := old(heap).ups[u := v])
    {
      ghost var w := Now();
      UpStoredBut(w, u, v);
      heap := heap.(ups := heap.ups[u := v]);
      assert Now() == UpStored(w, u, v);
      UpvalBarrier(v, Holders(w, u));
      if MarkingPhase(gcstate) {
        UpDone(w, u, v, Now());
      } else {
        ValidSweep(Now());
      }
    }

    /** Makes upvalue `i` of closure `cl` the one that closure `from` has as its `k`-th. */
    method UpvalueJoin(cl: Obj, i: nat, from: Obj, k: nat)
      requires Valid(Now(), Everything())
      requires cl in heap.objs && cl in Alive(Now()) && heap.objs[cl].kind == LClosure && i < |heap.objs[cl].ups|
      requires from in heap.objs && from in Alive(Now()) && k < |heap.objs[from].ups|
      modifies this`heap, this`color, this`gray
      ensures Valid(Now(), Everything())
      ensures var r := old(heap).objs[cl];
        heap == old(heap).(objs := old(heap).objs[cl := r.(ups := r.ups[i := old(heap).objs[from].ups[k]])])
    {
      ghost var w := Now();
      var u := heap.objs[from].ups[k];
      var r := heap.objs[cl].(ups := heap.objs[cl].ups[i := u]);
      var v := Up(heap, u);
      JoinedUps(heap, heap.objs[cl], i, u);
      AliveUp(w, u, from);
      ShapedNow(w, cl);
      NoneAllweak(w, cl);
      StoreBegins(w, cl, r, Of(v));
      heap := heap.(objs := heap.objs[cl := r]);
      ghost var w1 := Now();
      assert w1 == Stored(w, cl, r);
      UpvalBarrier(v, iset{cl});
      if MarkingPhase(gcstate) {
        JoinDone(w1, Now(), cl, Of(v));
      } else {
        NoBarrier(Now(), cl, Of(v));
      }
    }

    /** Remembers the last closure of a prototype, unless the collector has visited it. */
    method CacheClosure(p: Obj, cl: Obj)
      requires Valid(Now(), Everything()) && p in heap.objs && p in Alive(Now()) && cl in Alive(Now())
      requires heap.objs[p].kind == Proto
      modifies this`heap
      ensures Valid(Now(), Everything())
      ensures heap == if color[p] == Black then old(heap) else SetCache(old(heap), p, Ref(cl))
    {
      if color[p] != Black {
        ghost var w := Now();
        var r := heap.objs[p].(cache := Ref(cl));
        AddsCache(heap, heap.objs[p], Ref(cl));
        ShapedNow(w, p);
        NoneAllweak(w, p);
        StoreBegins(w, p, r, Of(Ref(cl)));
        heap := heap.(objs := heap.objs[p := r]);
        assert Now() == Stored(w, p, r);
        NoBarrier(Now(), p, Of(Ref(cl)));
      }
    }

    /** Changes a root: the registry, a basic metatable or the running thread. */
    method SetRoots(thread: Obj, reg: Value, basic: seq<Value>)
      requires Valid(Now(), Everything()) && thread in Alive(Now())
      requires In(Alive(Now()), reg) && SlotsIn(Alive(Now()), basic)
      modifies this`running, this`registry, this`mt
      ensures Valid(Now(), Everything())
      ensures Now() == old(Now()).(running := thread, registry := reg, mt := basic)
    {
      ghost var w := Now();
      RootsReady(w, thread, reg, basic);
      running, registry, mt := thread, reg, basic;
      assert Now() == w.(running := thread, registry := reg, mt := basic);
      RootsValid(w, Now());
    }

    /** Remembers a string for the address it was made from. */
    method CacheString(i: nat, s: Obj)
      requires Valid(Now(), Everything()) && i < |strcache| && s in Alive(Now())
      modifies this`strcache
      ensures Valid(Now(), Everything()) && strcache == old(strcache)[i := s]
    {
      ghost var w := Now();
      CacheReady(w, i, s);
      strcache := strcache[i := s];
      assert Now() == w.(strcache := w.strcache[i := s]);
      RootsValid(w, Now());
    }

    /** Makes a new object at the free address `o`. */
    method NewObj(o: Obj, r: Object)
      requires Valid(Now(), Everything()) && o !in heap.objs && Shaped(r)
      requires RecordIn(heap, Alive(Now()), r)
      modifies this`heap, this`color, this`allgc
      ensures Valid(Now(), Everything()) && Now() == Created(old(Now()), o, r) && o in Alive(Now())
    {
      ghost var w := Now();
      CreatedValid(w, o, r);
      heap := heap.(objs := heap.objs[o := r]);
      color, allgc := color[o := White(currentwhite)], [o] + allgc;
      assert Now() == Created(w, o, r);
    }

    /** Gives out an interned string again, even one that is dead but not yet swept. */
    method ReuseString(s: Obj)
      requires Valid(Now(), Everything()) && s in heap.objs && heap.objs[s].kind == Str && s in color
      modifies this`color
      ensures Valid(Now(), Everything()) && s in Alive(Now())
      ensures color == if old(IsDead(s)) then old(color)[s := White(currentwhite)] else old(color)
    {
      if IsDead(s) {
        ghost var w := Now();
        RevivedValid(w, s);
        color := color[s := White(currentwhite)];
        assert Now() == Revived(w, s);
      }
    }

    // ----- where the collector goes wrong -----

    /** Sets `m` as the metatable of `t`, which waits in `allweak`, and goes on to the end of
        the atomic step. No barrier looks at a gray table, and it will not be visited again,
        so `m` is marked exactly when marking comes to it without `t`; otherwise the live
        table `t` ends up with a dead metatable. */
    method LateMetatable(t: Obj, m: Obj)
      requires Valid(Now(), Everything()) && MarkingPhase(gcstate) && t in allweak && t in heap.objs
      requires m in Alive(Now()) && m in heap.objs && heap.objs[m].kind == Table
      modifies this
      ensures t in heap.objs && heap.objs[t].meta == Ref(m) && t in Alive(Now())
      ensures m in Alive(Now()) <==> m in Marks(Late(old(Now()), t, Ref(m)))
      ensures Sealed(Now()) <==> m in Marks(Late(old(Now()), t, Ref(m)))
    {
      ghost var w := Now();
      LateStored(w, t, Ref(m), Everything());
      PutMetatable(t, m);
      ghost var w0 := Now();
      MarksLimit(w0);
      Relimited(w0, Everything(), Marks(w0));
      MarkOn(Marks(w0));
      ghost var w1 := Now();
      AtomicStep(Marks(w0));
      LateOutcome(w0, w1, Now(), t, m);
    }

    method PutMetatable(t: Obj, m: Obj)
      requires t in heap.objs
      modifies this`heap, this`stale
      ensures Now() == Late(old(Now()), t, Ref(m))
    {
      ghost var w := Now();
      heap := heap.(objs := heap.objs[t := heap.objs[t].(meta := Ref(m))]);
      stale := stale + {t};
      assert Now() == Late(w, t, Ref(m));
    }

    /** The steps up to the atomic one, with nothing in between. */
    method MarkOn(ghost X: iset<Obj>)
      requires Loose(Now(), X) && MarkingPhase(gcstate)
      modifies this`heap, this`color, this`gray, this`grayagain, this`weak, this`ephemeron, this`allweak
      modifies this`gcstate
      ensures Progress(old(Now()), Now()) && Intact(Now()) && Alive(Now()) == Allocated(color)
      ensures Marking(Now(), [], iset{}, X) && gcstate == Atomic && gray == [] && Ready(Now(), X)
    {
      ghost var w := Now();
      LooseOut(w, X);
      if gcstate == Propagate {
        PropagateAll([], X);
        ghost var w1 := Now();
        gcstate := Atomic;
        assert Now() == w1.(phase := Atomic);
        Propagated(w, w1, X);
        LooseOut(Now(), X);
        ReadyAgain(Now(), Now(), X) by { SpreadAdvance(Now(), Now()) by { NoSpread(Now()); } }
        AdvanceProgress(w, w1);
        PhaseProgress(w1, Now());
        ProgressTransitive(w, w1, Now());
      } else {
        PropagateAll([], X);
        ReadyAgain(w, Now(), X);
        AdvanceProgress(w, Now());
      }
    }

    /** The next collection, in an emergency, after a sweep has missed the objects of
        `blind`, up to the end of the sweep of `allgc`. They keep their old mark, so that the
        collector does not visit them, and what they refer to is freed, strings apart, exactly
        when marking comes to it in no other way. They still hold what they held, and are
        still to be finalized if they were. */
    method MissedCollection()
      requires Loose(Now(), Everything()) && gcstate == Pause && emergency
      modifies this
      ensures gcstate == SwpFinobj && blind == old(blind)
      ensures forall o :: o in blind ==> o in heap.objs && heap.objs[o] == blind[o]
      ensures forall o :: o in old(tobefnz) ==> o in tobefnz
      ensures forall c :: c in heap.objs ==> c in old(Marks(Now()))
      ensures forall c :: c in old(Marks(Now())) && !IsStr(old(heap), Ref(c)) ==> c in heap.objs
    {
      ghost var w := Now();
      MarksLimit(w);
      PauseLimits(w, Marks(w));
      PauseValid(w, Everything(), Marks(w));
      NoneStale(w, Marks(w));
      SingleStep(Marks(w));
      ghost var w1 := Now();
      RunTilState({SwpFinobj}, SwpFinobj, Marks(w));
      RunOut(w1, Now(), {SwpFinobj});
      HoldsOn(w, w1, Now());
      AllgcSwept(Now(), Marks(w));
    }

    /** An emergency collection that comes when a sweep has gone astray: it ends the sweep,
        calls no finalizer, and starts anew. */
    method EmergencyAstray()
      requires Loose(Now(), Everything()) && gcstate == SwpTobefnz
      modifies this
      ensures gcstate == SwpFinobj && blind == old(blind)
      ensures forall o :: o in blind ==> o in heap.objs && heap.objs[o] == blind[o]
      ensures forall o :: o in old(tobefnz) ==> o in tobefnz
      ensures forall c :: c in heap.objs ==> c in Keeps(old(Now()))
      ensures forall c :: c in Keeps(old(Now())) && !IsStr(old(heap), Ref(c)) ==> c in heap.objs
    {
      ghost var w := Now();
      NoneStale(w, Everything());
      SetEmergency(true, Everything());
      ghost var w0 := Now();
      RunTilState({Pause}, Pause, Everything());
      ghost var w1 := Now();
      RunOut(w0, w1, {Pause});
      SameKeeps(w, w0);
      AstrayEnded(w0, w1);
      PauseKeeps(w1);
      MissedCollection();
    }

    /** Finalizing the object the sweep stands behind sends the sweep through `allgc`: the
        other objects to be finalized are not swept, and those that did not have the current
        white are not visited by the collection that comes next, here in an emergency. What
        they refer to is freed, strings apart, exactly when nothing else keeps it; and they
        are still to be finalized. */
    method Strand()
      requires Valid(Now(), Everything()) && Stranding(Now())
      modifies this
      ensures forall p :: LeftBehind(old(Now()), p) ==>
        p in tobefnz && p in old(heap.objs) && p in heap.objs && heap.objs[p] == old(heap.objs)[p]
      ensures forall c :: c in old(heap.objs) && !IsStr(old(heap), Ref(c)) ==>
        (c in heap.objs <==> c in Keeps(Taken(old(Now()))))
      ensures (exists p, c :: Orphans(old(Now()), p, c) && c !in heap.objs)
        <==> (exists p, c :: Orphans(old(Now()), p, c) && c !in Keeps(Taken(old(Now()))))
    {
      ghost var w := Now();
      var _ := Udata2Finalize(Everything());
      LeftMissed(w);
      EmergencyAstray();
      OrphansExact(w, Now(), Keeps(Taken(w)));
    }
  }
}
