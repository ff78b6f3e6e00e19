/** Runs: any sequence of steps of the collector and operations of the program. */
module GcRun {
  import opened Prelude
  import opened GcHeap
  import opened GcWorld
  import opened GcLimits
  import opened GcAtomic
  import opened GcState
  import opened GcSteps
  import opened GcMutator
  import opened GcObjects
  import opened Collector

  datatype Action =
    // the collector
    | Step | Collect(emergency: bool) | Finalize
    // stores
    | Slot(o: Obj, i: nat, v: Value) | Array(o: Obj, i: nat, v: Value)
    | Field(o: Obj, key: Value, v: Value) | Stack(o: Obj, s: seq<Value>)
    | Metatable(o: Obj, v: Value) | ModeField(o: Obj, m: Mode)
    | Upvalue(u: UpVal, v: Value) | Join(o: Obj, i: nat, from: Obj, k: nat) | Cache(o: Obj, cl: Obj)
    // roots and objects
    | Roots(thread: Obj, reg: Value, basic: seq<Value>) | StringCache(i: nat, str: Obj)
    | New(o: Obj, r: Object) | Reuse(str: Obj)

  predicate Lives(g: GlobalState, v: Value)
    reads g
  {
    v.Ref? ==> v.o in g.color && v.o in g.heap.objs && g.color[v.o] != White(!g.currentwhite)
  }

  predicate AllLive(g: GlobalState, s: seq<Value>)
    reads g
  {
    forall i :: 0 <= i < |s| ==> Lives(g, s[i])
  }

  predicate Is(g: GlobalState, o: Obj, kinds: set<Kind>)
    reads g
  {
    Lives(g, Ref(o)) && g.heap.objs[o].kind in kinds
  }

  /** A new object refers to live objects only. */
  predicate LiveRecord(g: GlobalState, r: Object)
    reads g
  {
    && Lives(g, r.meta) && Lives(g, r.cache) && AllLive(g, r.slots)
    && (forall i :: 0 <= i < |r.nodes| ==> Lives(g, r.nodes[i].key) && Lives(g, r.nodes[i].val))
    && (forall i :: 0 <= i < |r.ups| ==> Lives(g, Up(g.heap, r.ups[i])))
  }

  /** While the collector marks, a table in `allweak` gets no unmarked metatable. */
  predicate MetatableAllowed(g: GlobalState, o: Obj, v: Value)
    reads g
  {
    MarkingPhase(g.gcstate) && o in g.allweak ==> !(v.Ref? && v.o in g.color && g.color[v.o].White?)
  }

  /** The finalizer of the object the sweep stands behind is not called while the sweep has
      something left to do behind it. */
  predicate FinalizerAllowed(g: GlobalState)
    reads g
  {
    g.tobefnz != [] && !(g.gcstate == SwpTobefnz && g.sweepgc == NextOf(g.tobefnz[0])
      && exists i | 1 <= i < |g.tobefnz| ::
           g.tobefnz[i] in g.color && g.color[g.tobefnz[i]] != White(g.currentwhite))
  }

  ghost predicate Ok(g: GlobalState)
    reads g
  {
    Valid(g.Now(), Everything()) && !g.emergency
  }

  method CollectorAction(g: GlobalState, a: Action)
    requires Ok(g)
    modifies g
    ensures Ok(g)
  {
    EverythingKept(g.Now());
    if a.Step? {
      g.SingleStep(Everything());
    } else if a.Collect? {
      g.FullGc(a.emergency, Everything());
    }
  }

  method FinalizerAction(g: GlobalState, a: Action)
    requires Ok(g)
    modifies g
    ensures Ok(g)
  {
    EverythingKept(g.Now());
    if a.Finalize? && FinalizerAllowed(g) {
      NoneLeft(g);
      var _ := g.Udata2Finalize(Everything());
    }
  }

  lemma NoneLeft(g: GlobalState)
    requires FinalizerAllowed(g)
    ensures !(Stranding(g.Now()) && exists p :: LeftBehind(g.Now(), p))
  {
    var w := g.Now();
    if Stranding(w) {
      forall p | p in w.tobefnz[1..] ensures !LeftBehind(w, p) {
        var i :| 0 <= i < |w.tobefnz| - 1 && w.tobefnz[1..][i] == p;
        assert g.tobefnz[i + 1] == p;
      }
    }
  }

  method StoreAction(g: GlobalState, a: Action)
    requires Ok(g)
    modifies g
    ensures Ok(g)
  {
    match a {
      case Slot(o, i, v) =>
        if Is(g, o, {Udata, LClosure, CClosure, Proto}) && i < |g.heap.objs[o].slots| && Lives(g, v) {
          g.SetSlotOf(o, i, v);
        }
      case Stack(o, s) =>
        if Is(g, o, {Thread}) && AllLive(g, s) {
          LiveObjects(g, s);
          g.SetStack(o, s);
        }
      case _ =>
    }
  }

  method TableAction(g: GlobalState, a: Action)
    requires Ok(g)
    modifies g
    ensures Ok(g)
  {
    match a {
      case Array(o, i, v) =>
        if Is(g, o, {Table}) && i < |g.heap.objs[o].slots| && Lives(g, v) {
          g.SetArray(o, i, v);
        }
      case Field(o, key, v) =>
        if Is(g, o, {Table}) && Lives(g, key) && key != DeadKey && Lives(g, v) {
          var _ := g.SetField(o, key, v);
        }
      case _ =>
    }
  }

  lemma LiveObjects(g: GlobalState, s: seq<Value>)
    requires AllLive(g, s)
    ensures Objects(s) <= Alive(g.Now())
  {
    forall o | o in Objects(s) ensures o in Alive(g.Now()) {
      var i :| 0 <= i < |s| && s[i] == Ref(o);
      assert Lives(g, s[i]);
    }
  }

  method MetaAction(g: GlobalState, a: Action)
    requires Ok(g)
    modifies g
    ensures Fine(g)
  {
    OkFine(g);
    var fits := a.Metatable?;
    if fits {
      fits := MetatableFits(g, a.o, a.v);
    }
    if fits {
      GiveMetatable(g, a.o, a.v);
    }
  }

  /** `Ok`, unfolded only where asked for. */
  ghost predicate Fine(g: GlobalState)
    reads g
  {
    forall k :: Key(k) ==> Ok(g)
  }

  lemma OkFine(g: GlobalState)
    requires Ok(g)
    ensures Fine(g)
  {
  }

  lemma FineOk(g: GlobalState)
    requires Fine(g)
    ensures Ok(g)
  {
    assert Key(0);
  }

  method GiveMetatable(g: GlobalState, o: Obj, v: Value)
    requires Ok(g) && o in g.heap.objs && o in Alive(g.Now()) && (o in g.fin || o in g.allgc)
    requires g.heap.objs[o].kind == Table || g.heap.objs[o].kind == Udata
    requires v == Nil || (v.Ref? && v.o in g.heap.objs && v.o in Alive(g.Now()))
    requires MetaOk(g.Now(), o, v)
    modifies g
    ensures Fine(g)
  {
    g.SetMetatable(o, v);
    OkFine(g);
  }

  method MetatableFits(g: GlobalState, o: Obj, v: Value) returns (fits: bool)
    ensures fits ==> o in g.heap.objs && o in Alive(g.Now()) && (o in g.fin || o in g.allgc)
    ensures fits ==> g.heap.objs[o].kind == Table || g.heap.objs[o].kind == Udata
    ensures fits ==> v == Nil || (v.Ref? && v.o in g.heap.objs && v.o in Alive(g.Now()))
    ensures fits ==> MetaOk(g.Now(), o, v)
  {
    fits := Is(g, o, {Table, Udata}) && (v == Nil || v.Ref?) && Lives(g, v)
      && MetatableAllowed(g, o, v) && (o in g.fin || o in g.allgc);
  }

  method ModeAction(g: GlobalState, a: Action)
    requires Ok(g)
    modifies g
    ensures Ok(g)
  {
    if a.ModeField? && Is(g, a.o, {Table}) {
      g.SetMode(a.o, a.m);
    }
  }

  method ClosureAction(g: GlobalState, a: Action)
    requires Ok(g)
    modifies g
    ensures Ok(g)
  {
    match a {
      case Upvalue(u, v) =>
        if Lives(g, v) {
          g.SetUpvalue(u, v);
        }
      case Join(o, i, from, k) =>
        if Is(g, o, {LClosure}) && i < |g.heap.objs[o].ups| && Is(g, from, {LClosure})
          && k < |g.heap.objs[from].ups| {
          g.UpvalueJoin(o, i, from, k);
        }
      case Cache(o, cl) =>
        if Is(g, o, {Proto}) && Lives(g, Ref(cl)) {
          g.CacheClosure(o, cl);
        }
      case _ =>
    }
  }

  method ObjectAction(g: GlobalState, a: Action)
    requires Ok(g)
    modifies g
    ensures Ok(g)
  {
    match a {
      case Roots(thread, reg, basic) =>
        if Lives(g, Ref(thread)) && Lives(g, reg) && AllLive(g, basic) {
          g.SetRoots(thread, reg, basic);
        }
      case StringCache(i, s) =>
        if i < |g.strcache| && Lives(g, Ref(s)) {
          g.CacheString(i, s);
        }
      case New(o, r) =>
        if o !in g.heap.objs && Shaped(r) && LiveRecord(g, r) {
          g.NewObj(o, r);
        }
      case Reuse(s) =>
        if s in g.heap.objs && s in g.color && g.heap.objs[s].kind == Str {
          g.ReuseString(s);
        }
      case _ =>
    }
  }

  /** While the collector marks, a black object refers to marked objects only, and a gray
      one that is not fixed is in exactly one gray list. */
  lemma MainInvariant(w: World, o: Obj)
    requires Valid(w, Everything()) && o in w.heap.objs && o in w.color && MarkingPhase(w.phase)
    ensures w.color[o] == Black ==> RefsIn(w.heap, Marked(w.color), o)
    ensures w.color[o] == Gray && o !in w.fixedgc ==> Listings(w, [])[o] == 1
  {
    LooseOut(w, Everything());
    MarkPhaseOut(w, Everything());
    Unfold(w, [], iset{}, Everything());
    if w.color[o] == Black { BlackRefs(w, o); }
    if w.color[o] == Gray && o !in w.fixedgc {
      assert Pending(w, [], o) || Cleared(w, o);
      assert Listings(w, [])[o] <= 1;
    }
  }

  /** Every object but the main thread is in exactly one of the four owning lists, and has
      the finalized bit exactly when it is in `finobj` or `tobefnz`. */
  lemma OneOwner(w: World, o: Obj)
    requires Valid(w, Everything()) && o in w.heap.objs
    ensures o != w.mainthread ==>
      (multiset(w.allgc) + multiset(w.finobj) + multiset(w.tobefnz) + multiset(w.fixedgc))[o] == 1
    ensures o in w.fin <==> o in w.finobj || o in w.tobefnz
  {
    LooseOut(w, Everything());
    IntactOut(w);
    assert Owners(w)[o] == if o != w.mainthread then 1 else 0;
  }

  /** The invariant holds after every action of every run, so that at any time all the
      program can get at is allocated and not about to be freed. */
  method Run(g: GlobalState, actions: seq<Action>)
    requires Ok(g)
    modifies g
    ensures Ok(g) && Safe(g)
  {
    for i := 0 to |actions|
      invariant Ok(g)
    {
      var a := actions[i];
      CollectorAction(g, a);
      FinalizerAction(g, a);
      StoreAction(g, a);
      TableAction(g, a);
      MetaAction(g, a);
      FineOk(g);
      ModeAction(g, a);
      ClosureAction(g, a);
      ObjectAction(g, a);
    }
    OkSafe(g);
  }

  /** Whatever a chain of references leads to from a root is allocated and alive. */
  ghost predicate Safe(g: GlobalState)
    reads g
  {
    forall path: seq<Obj> ::
      path != [] && Root(g.Now(), path[0]) && Chain(g.heap, path) ==>
        path[|path| - 1] in g.heap.objs && path[|path| - 1] in Alive(g.Now())
  }

  lemma OkSafe(g: GlobalState)
    requires Ok(g)
    ensures Safe(g)
  {
    LooseOut(g.Now(), Everything());
    IntactOut(g.Now());
    forall path: seq<Obj> | path != [] && Root(g.Now(), path[0]) && Chain(g.heap, path)
      ensures path[|path| - 1] in g.heap.objs && path[|path| - 1] in Alive(g.Now())
    {
      AccessibleAlive(g.Now(), path);
    }
  }

  /** Every run of a new state with `fixed` strings that are never collected is safe. */
  method RunNew(fixed: nat, actions: seq<Action>) returns (g: GlobalState)
    requires fixed > 0
    ensures fresh(g) && Ok(g) && Safe(g)
  {
    NewValid(fixed);
    g := new GlobalState(NewWorld(fixed));
    Run(g, actions);
  }

  // ----- a new state -----

  const LUA_NUMTAGS: nat := 9
  const STRCACHE: nat := 53 * 2

  /** Object 0 is the main thread, 1 the registry, 2 the table of globals; the others are
      fixed strings, the first of them the message for memory errors. */
  function NewObject(o: Obj): Object {
    if o == 0 then Object(Thread, Nil, [], [], [], Nil, Strong, false)
    else if o == 1 then Object(Table, Nil, [Ref(0), Ref(2)], [], [], Nil, Strong, false)
    else if o == 2 then Object(Table, Nil, [], [], [], Nil, Strong, false)
    else Object(Str, Nil, [], [], [], Nil, Strong, false)
  }

  function NewColor(o: Obj): Color {
    if o < 3 then White(false) else Gray
  }

  /** What `lua_newstate` leaves. */
  function NewWorld(fixed: nat): World
    requires fixed > 0
  {
    World(Heap(map o | 0 <= o < 3 + fixed :: NewObject(o), map[]),
          map o | 0 <= o < 3 + fixed :: NewColor(o),
          {}, false, Pause, [2, 1], [], [], seq(fixed, i => 3 + i),
          [], [], [], [], [], {}, map[], NoCursor,
          0, 0, Ref(1), seq(LUA_NUMTAGS, _ => Nil), 3, seq(STRCACHE, _ => 3), 0, false)
  }

  lemma {:induction false} CountUp(n: nat, first: nat, o: Obj)
    ensures multiset(seq(n, i => first + i))[o] == if first <= o < first + n then 1 else 0
  {
    var s := seq(n, i => first + i);
    if n > 0 {
      var t := seq(n - 1, i => first + i);
      assert s == t + [first + n - 1];
      CountUp(n - 1, first, o);
    } else {
      assert s == [];
    }
  }

  lemma NewOwned(fixed: nat)
    requires fixed > 0
    ensures Owned(NewWorld(fixed))
  {
    var w := NewWorld(fixed);
    forall o ensures Owners(w)[o] == if o in w.heap.objs && o != w.mainthread then 1 else 0 {
      CountUp(fixed, 3, o);
    }
  }

  lemma NewFormed(fixed: nat)
    requires fixed > 0
    ensures WellFormed(NewWorld(fixed))
  {
    assert NewWorld(fixed).fixedgc[0] == 3;
  }

  lemma NewSealed(fixed: nat)
    requires fixed > 0
    ensures Sealed(NewWorld(fixed))
  {
    var w := NewWorld(fixed);
    forall o | o in w.color ensures o in Alive(w) {
    }
    forall o | o in w.heap.objs ensures RefsIn(w.heap, Alive(w), o) {
      assert 0 in Alive(w) && 2 in Alive(w);
    }
    assert 0 in Alive(w) && 1 in Alive(w) && 3 in Alive(w);
  }

  lemma NewValid(fixed: nat)
    requires fixed > 0
    ensures Valid(NewWorld(fixed), Everything())
  {
    NewOwned(fixed);
    NewFormed(fixed);
    NewSealed(fixed);
    ValidSweep(NewWorld(fixed));
  }
}
