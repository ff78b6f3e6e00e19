/** Two inputs on which the collector goes wrong, with the constants of the code. */
module GcExamples {
  import opened GcHeap
  import opened GcWorld
  import opened GcLimits
  import opened GcVisit
  import opened GcAtomic
  import opened GcState
  import opened GcSteps
  import opened GcLate
  import opened GcMissed
  import opened Collector
  import opened GcRun

  function Plainly(k: Kind, slots: seq<Value>): Object {
    Object(k, Nil, slots, [], [], Nil, Strong, false)
  }

  // Object 0 is the main thread, 1 a table with metatable 2, all-weak; 3 is a table that
  // nothing refers to yet; 4 is the fixed string.
  function LateObject(o: Obj): Object {
    if o == 0 then Plainly(Thread, [Ref(1)])
    else if o == 1 then Plainly(Table, []).(meta := Ref(2))
    else if o == 2 then Plainly(Table, []).(mode := AllWeak)
    else if o == 3 then Plainly(Table, [])
    else Plainly(Str, [])
  }

  function LateColor(o: Obj, white: bool): Color {
    if o == 2 then Black else if o == 3 then White(white) else Gray
  }

  function LateHeap(): Heap {
    Heap(map o | 0 <= o <= 4 :: LateObject(o), map[])
  }

  /** Propagation is over; table 1 has been put into `allweak`. */
  function LateWorld(white: bool): World {
    World(LateHeap(), map o | 0 <= o <= 4 :: LateColor(o, white), {}, white,
          Atomic, [3, 2, 1], [], [], [4], [], [0], [], [], [1], {}, map[], NoCursor, 0, 0, Nil, [], 4, [], 0,
          false)
  }

  ghost function LateBound(): iset<Obj> { iset o | LateKept(o) }

  predicate LateKept(o: Obj) { o == 0 || o == 1 || o == 2 || o == 4 }

  lemma LateWorldOwned(white: bool)
    ensures Owned(LateWorld(white))
  {
    assert Owners(LateWorld(white)) == multiset{1, 2, 3, 4};
  }

  lemma LateWorldFormed(white: bool)
    ensures WellFormed(LateWorld(white))
  {
  }

  lemma LateRefs(S: iset<Obj>, o: Obj)
    requires o in LateHeap().objs && 1 in S && 2 in S
    ensures RefsIn(LateHeap(), S, o)
  {
  }

  lemma LateWorldAlive(o: Obj, white: bool)
    requires o <= 4
    ensures o in LateWorld(white).color && o in Alive(LateWorld(white))
  {
  }

  lemma LateWorldSealed(white: bool)
    ensures Sealed(LateWorld(white))
  {
    var w := LateWorld(white);
    LateWorldAlive(0, white);
    LateWorldAlive(1, white);
    LateWorldAlive(2, white);
    LateWorldAlive(4, white);
    forall o | o in w.heap.objs ensures RefsIn(w.heap, Alive(w), o) {
      LateRefs(Alive(w), o);
    }
  }

  lemma LateWorldSound(white: bool)
    ensures Sound(LateWorld(white))
  {
    var w := LateWorld(white);
    LateWorldAlive(1, white);
    LateWorldAlive(2, white);
    forall o | o in w.heap.objs ensures RefsIn(w.heap, Allocated(w.color), o) {
      LateRefs(Allocated(w.color), o);
    }
  }

  lemma LateWorldClosed(white: bool)
    ensures Bounded(LateWorld(white), LateBound()) && Bounds(LateWorld(white), LateBound())
  {
    var w := LateWorld(white);
    forall o | o in w.heap.objs ensures StrongIn(w.heap, LateBound(), o, true) {
      LateRefs(LateBound(), o);
    }
  }

  lemma LateListed(o: Obj, white: bool)
    requires o <= 1
    ensures ListedOk(LateWorld(white), o)
  {
  }

  lemma LateWorldLists(white: bool)
    ensures Listed(LateWorld(white), [])
  {
    var w := LateWorld(white);
    assert Listings(w, []) == multiset{0, 1};
    forall o ensures Listings(w, [])[o] == 1 ==> ListedOk(w, o) {
      if o <= 1 { LateListed(o, white); }
    }
  }

  lemma LateWorldTricolor(white: bool)
    ensures Tricolor(LateWorld(white), [], iset{})
  {
    var w := LateWorld(white);
    forall o | o in w.heap.objs && o in w.color && !w.color[o].White? && !Pending(w, [], o)
      ensures Visited(w, o)
    {
      LateRefs(Marked(w.color), o);
    }
  }

  lemma LateWorldColors(white: bool)
    ensures ThreadsGray(LateWorld(white), iset{}) && GrayInLists(LateWorld(white)) && Started(LateWorld(white))
    ensures Alive(LateWorld(white)) == Allocated(LateWorld(white).color) && AllWeakTables(LateWorld(white))
  {
  }

  lemma LateWorldMarking(white: bool)
    ensures MarkPhase(LateWorld(white), LateBound())
  {
    LateWorldSound(white);
    LateWorldClosed(white);
    LateWorldLists(white);
    LateWorldTricolor(white);
    LateWorldColors(white);
    assert MarkingKeyed(LateWorld(white), [], iset{}, LateBound());
    assert MarkPhaseKeyed(LateWorld(white), LateBound());
  }

  lemma LateWorldValid(white: bool)
    ensures Valid(LateWorld(white), Everything()) && Valid(LateWorld(white), LateBound())
  {
    LateWorldOwned(white);
    LateWorldFormed(white);
    LateWorldSealed(white);
    LateWorldMarking(white);
    LooseMark(LateWorld(white), LateBound());
    EverythingLimits(LateWorld(white));
    Relimited(LateWorld(white), LateBound(), Everything());
  }

  lemma EverythingLimits(w: World)
    ensures Limits(w, Everything())
  {
    EverythingClosed(w);
  }

  /** Marking does not come to table 3 when it is the metatable of table 1. */
  lemma LateNotMarked(white: bool)
    ensures 3 !in Marks(Late(LateWorld(white), 1, Ref(3)))
  {
    var w := LateWorld(white);
    LateWorldValid(white);
    LateStored(w, 1, Ref(3), LateBound());
    var w2 := Late(w, 1, Ref(3));
    LooseOut(w2, LateBound());
    MarkPhaseOut(w2, LateBound());
    Unfold(w2, [], iset{}, LateBound());
    assert Limits(w2, LateBound()) && 3 !in LateBound();
  }

  /** Table 3 becomes the metatable of table 1, and dies while table 1 lives. */
  method LateMetatableExample(white: bool) returns (g: GlobalState)
    ensures 1 in g.heap.objs && g.heap.objs[1].meta == Ref(3)
    ensures 1 in Alive(g.Now()) && 3 !in Alive(g.Now())
  {
    LateWorldValid(white);
    LateNotMarked(white);
    g := new GlobalState(LateWorld(white));
    g.LateMetatable(1, 3);
  }

  // Objects 1 to 129 wait to be finalized. The first step of the sweep of that list has
  // done 85 of them, and 128 finalizers are due, since their number has doubled seven
  // times. Table 129 holds the only reference to table 130.
  const WAITING: nat := 129
  const CHILD: Obj := 130
  const MESSAGE: Obj := 131

  function StrandObject(o: Obj): Object {
    if o == 0 then Plainly(Thread, [])
    else if o == WAITING then Plainly(Table, [Ref(CHILD)])
    else if o == MESSAGE then Plainly(Str, [])
    else Plainly(Table, [])
  }

  function StrandColor(o: Obj, white: bool): Color {
    if o == 0 || o == MESSAGE then Gray
    else if GCSWEEPMAX < o <= WAITING then Black
    else White(white)
  }

  predicate Waits(o: Obj) { 1 <= o <= WAITING }

  function StrandWorld(white: bool): World {
    World(Heap(map o | 0 <= o <= MESSAGE :: StrandObject(o), map[]),
          map o | 0 <= o <= MESSAGE :: StrandColor(o, white), (set o | 0 <= o <= MESSAGE && Waits(o)), white,
          SwpTobefnz, [CHILD], [], seq(WAITING, i => 1 + i), [MESSAGE], [], [], [], [], [], {}, map[],
          NextOf(GCSWEEPMAX), 0, 0, Nil, [], MESSAGE, [], 128, false)
  }

  lemma StrandOwners(o: Obj, white: bool)
    ensures Owners(StrandWorld(white))[o] == if 0 < o <= MESSAGE then 1 else 0
  {
    CountUp(WAITING, 1, o);
  }

  lemma StrandWaits(o: Obj, white: bool)
    ensures o in StrandWorld(white).fin <==> o in StrandWorld(white).tobefnz
  {
    if 1 <= o <= WAITING { assert StrandWorld(white).tobefnz[o - 1] == o; }
  }

  lemma StrandOwned(white: bool)
    ensures Owned(StrandWorld(white))
  {
    var w := StrandWorld(white);
    forall o ensures Owners(w)[o] == if o in w.heap.objs && o != w.mainthread then 1 else 0 {
      StrandOwners(o, white);
    }
    forall o ensures o in w.fin <==> o in w.tobefnz { StrandWaits(o, white); }
  }

  lemma StrandFormed(white: bool)
    ensures WellFormed(StrandWorld(white))
  {
    var w := StrandWorld(white);
    forall o ensures o in w.fin <==> o in w.tobefnz { StrandWaits(o, white); }
  }

  /** The sweep of `tobefnz` that stands behind entry `i`. */
  lemma Stands(w: World, i: nat)
    requires w.phase == SwpTobefnz && i < |w.tobefnz| && w.sweepgc == NextOf(w.tobefnz[i])
    requires multiset(w.tobefnz)[w.tobefnz[i]] == 1
    requires Current(w, w.tobefnz[..i + 1])
    ensures Sweeping(w, ToBeFnz)
  {
    IndexOfAt(w.tobefnz, i);
  }

  /** It stands behind the object with number 85. */
  lemma StrandStands(white: bool)
    ensures Sweeping(StrandWorld(white), ToBeFnz) && !Reaches(StrandWorld(white), 128)
  {
    StrandCurrent(white);
    StrandOnce(white);
    Stands(StrandWorld(white), GCSWEEPMAX - 1);
  }

  lemma StrandOnce(white: bool)
    ensures StrandWorld(white).tobefnz[GCSWEEPMAX - 1] == GCSWEEPMAX && multiset(StrandWorld(white).tobefnz)[GCSWEEPMAX] == 1
  {
    CountUp(WAITING, 1, GCSWEEPMAX);
  }

  lemma StrandCurrent(white: bool)
    ensures Current(StrandWorld(white), StrandWorld(white).tobefnz[..GCSWEEPMAX])
  {
  }

  lemma StrandColored(o: Obj, white: bool)
    requires o <= MESSAGE
    ensures o in StrandWorld(white).heap.objs && StrandWorld(white).heap.objs[o] == StrandObject(o)
    ensures o in StrandWorld(white).color && StrandWorld(white).color[o] == StrandColor(o, white)
  {
  }

  lemma StrandSwept(white: bool)
    ensures SweepPhase(StrandWorld(white))
  {
    StrandStands(white);
    StrandColored(CHILD, white);
    assert Current(StrandWorld(white), StrandWorld(white).allgc);
  }

  lemma StrandSealed(white: bool)
    ensures Sealed(StrandWorld(white))
  {
    var w := StrandWorld(white);
    forall o | o in w.color ensures o in Alive(w) {
    }
    assert CHILD in Alive(w);
    forall o | o in w.heap.objs ensures RefsIn(w.heap, Alive(w), o) {
    }
  }

  lemma StrandValid(white: bool)
    ensures Valid(StrandWorld(white), Everything())
  {
    StrandOwned(white);
    StrandFormed(white);
    StrandSwept(white);
    StrandSealed(white);
    ValidSweep(StrandWorld(white));
  }

  ghost function AllButChild(): iset<Obj> { AllBut(CHILD) }

  /** When table 129 has been missed, nothing keeps its child. */
  lemma ChildNotKept(w: World, white: bool)
    requires w.heap == StrandWorld(white).heap && w.mainthread == w.running == 0 && w.registry == Nil && w.mt == []
    requires w.tobefnz == [WAITING] && w.finobj == [] && w.fixedgc == [MESSAGE]
    requires WAITING in w.blind && forall p :: p in w.blind ==> p in w.tobefnz
    ensures CHILD !in Keeps(w)
  {
    var X := AllButChild();
    assert forall p :: p in X <==> Differs(p, CHILD);
    forall o | o in w.heap.objs && o in X && o !in w.blind ensures StrongIn(w.heap, X, o, true) {
      assert w.heap.objs[o].slots == [] && w.heap.objs[o].nodes == [];
    }
    assert Kept(w, X) && CHILD !in X;
  }

  /** By then the object the sweep stood behind has gone. */
  lemma StrandMissed(white: bool)
    ensures MissedBy(StrandWorld(white), WAITING, 128)
  {
    StrandStands(white);
    StrandColored(WAITING, white);
  }

  lemma StrandTook(w: World, white: bool)
    requires TookSome(StrandWorld(white), w, 128)
    ensures w.tobefnz == [WAITING] && WAITING in w.blind && forall p :: p in w.blind ==> p in w.tobefnz
  {
    var w0 := StrandWorld(white);
    StrandMissed(white);
    assert w0.tobefnz[128..] == [WAITING];
    TookMissed(w0, w, 128, WAITING);
  }

  /** After 128 finalizers the sweep has gone astray, and an emergency collection frees
      table 130, which the finalizer of table 129 will still see. */
  method StrandExample(white: bool) returns (g: GlobalState)
    ensures WAITING in g.tobefnz && WAITING in g.heap.objs && g.heap.objs[WAITING].slots == [Ref(CHILD)]
    ensures CHILD !in g.heap.objs
  {
    g := StrandStep(white);
    g.EmergencyAstray();
  }

  method StrandStep(white: bool) returns (g: GlobalState)
    ensures fresh(g) && Loose(g.Now(), Everything()) && g.gcstate == SwpTobefnz
    ensures WAITING in g.tobefnz && WAITING in g.blind && g.blind[WAITING] == StrandObject(WAITING)
    ensures CHILD !in Keeps(g.Now())
  {
    StrandValid(white);
    g := new GlobalState(StrandWorld(white));
    ghost var w := g.Now();
    FinalizersDue(g, 128);
    StrandLeft(w, g.Now(), white);
  }

  /** `n` finalizers are called while the sweep is in `tobefnz`. */
  method FinalizersDue(g: GlobalState, n: nat)
    requires Valid(g.Now(), Everything()) && g.gcstate == SwpTobefnz && g.gcfinnum == n <= |g.tobefnz|
    modifies g
    ensures Loose(g.Now(), Everything()) && TookSome(old(g.Now()), g.Now(), n)
    ensures g.Now() == old(g.Now()).(tobefnz := g.tobefnz, allgc := g.allgc, fin := g.fin, color := g.color,
                                     gcfinnum := g.gcfinnum, blind := g.blind)
  {
    var m := g.RunFewFinalizers(Everything());
    assert m == n;
  }

  lemma StrandLeft(w0: World, w: World, white: bool)
    requires Loose(w, Everything()) && w0 == StrandWorld(white) && TookSome(w0, w, 128)
    requires w == w0.(tobefnz := w.tobefnz, allgc := w.allgc, fin := w.fin, color := w.color,
                      gcfinnum := w.gcfinnum, blind := w.blind)
    ensures WAITING in w.tobefnz && WAITING in w.blind && w.blind[WAITING] == StrandObject(WAITING)
    ensures CHILD !in Keeps(w)
  {
    StrandTook(w, white);
    ChildNotKept(w, white);
    BlindRecord(w, WAITING);
    StrandColored(WAITING, white);
  }

  lemma BlindRecord(w: World, o: Obj)
    requires Loose(w, Everything()) && o in w.blind
    ensures o in w.heap.objs && w.blind[o] == w.heap.objs[o]
  {
    LooseOut(w, Everything());
  }
}
