/** Intrusive reference counting: objects with a strong and a weak count, shared and weak
    pointers to them, and threads that copy, lock and release pointers one atomic step at
    a time, interleaved in any way. */
module RefCounts {
  import opened Prelude

  type Obj = nat        // the address of an object
  type Handle = nat     // a shared or weak pointer variable
  type Thread = nat     // a thread, or a call made inside another thread's Dispose

  datatype Ctrl = Null | To(o: Obj)

  datatype Pointer = Strong(ctrl: Ctrl) | Weak(ctrl: Ctrl)

  datatype Counts = Counts(strong: nat, weak: nat, disposed: bool)

  /** What a thread is about to do to an object. */
  datatype Pc =
    | AddRef(src: Handle, dst: Handle, o: Obj)       // strong_count.fetch_add
    | AddWeakRef(src: Handle, dst: Handle, o: Obj)   // weak_count.fetch_add
    | LoadStrong(src: Handle, dst: Handle, o: Obj)   // LockWeak: strong_count.load
    | CompareExchange(src: Handle, dst: Handle, o: Obj, count: nat)
    | RemoveRef(o: Obj)                              // strong_count.fetch_sub
    | CallDispose(o: Obj)
    | InDispose(o: Obj)                              // until Dispose returns
    | RemoveWeakRef(o: Obj)                          // weak_count.fetch_sub
    | Delete(o: Obj)

  /** An object that was deleted is no longer in `objs`. */
  datatype State = State(objs: map<Obj, Counts>, handles: map<Handle, Pointer>, pcs: map<Thread, Pc>)

  // ----- the references that count -----

  /** How many pointers and threads there are that count as references to an object. */
  datatype Tally = Tally(
    strong: nat, weak: nat,        // pointers
    removing: nat,                 // threads at RemoveRef
    calling: nat, inside: nat,     // threads at CallDispose and InDispose
    dropping: nat, deleting: nat)  // threads at RemoveWeakRef and Delete

  function Handles(s: State, p: Pointer): set<Handle> {
    set h | h in s.handles && s.handles[h] == p
  }

  function At(s: State, pc: Pc): set<Thread> {
    set t | t in s.pcs && s.pcs[t] == pc
  }

  function TallyOf(s: State, o: Obj): Tally {
    Tally(|Handles(s, Strong(To(o)))|, |Handles(s, Weak(To(o)))|, |At(s, RemoveRef(o))|,
          |At(s, CallDispose(o))|, |At(s, InDispose(o))|, |At(s, RemoveWeakRef(o))|, |At(s, Delete(o))|)
  }

  // ----- the invariant -----

  /** The counts are the pointers and the releases under way; the implicit weak reference
      is there until the last releaser has disposed of the object. */
  predicate Exact(c: Counts, n: Tally) {
    && c.strong == n.strong + n.removing
    && c.weak == n.weak + n.dropping + (if c.strong > 0 then 1 else n.calling + n.inside)
    && (c.strong > 0 ==> n.calling + n.inside == 0 && !c.disposed)
    && n.calling + n.inside <= 1
    && (c.strong == 0 ==> n.calling == if c.disposed then 0 else 1)
    && n.deleting == (if c.weak == 0 then 1 else 0)
  }

  ghost predicate CountsOk(s: State, o: Obj)
    requires o in s.objs
  {
    Exact(s.objs[o], TallyOf(s, o))
  }

  ghost predicate Source(s: State, src: Handle, p: Pointer) {
    src in s.handles && s.handles[src] == p
  }

  /** The pointer a thread reads from stays as it is; the one it writes is not there yet. */
  ghost predicate PcOk(s: State, pc: Pc) {
    match pc
    case AddRef(src, dst, o) => Source(s, src, Strong(To(o))) && dst !in s.handles
    case AddWeakRef(src, dst, o) =>
      (Source(s, src, Strong(To(o))) || Source(s, src, Weak(To(o)))) && dst !in s.handles
    case LoadStrong(src, dst, o) => Source(s, src, Weak(To(o))) && dst !in s.handles
    case CompareExchange(src, dst, o, count) =>
      Source(s, src, Weak(To(o))) && dst !in s.handles && count > 0
    case _ => true
  }

  function Subject(pc: Pc): Obj { pc.o }

  function Target(pc: Pc): Ctrl {
    if pc.AddRef? || pc.AddWeakRef? || pc.LoadStrong? || pc.CompareExchange? then To(pc.dst) else Null
  }

  ghost predicate HandleOk(s: State, p: Pointer) { p.ctrl.To? ==> p.ctrl.o in s.objs }

  ghost predicate Inv(s: State) {
    && (forall t :: t in s.pcs ==> Subject(s.pcs[t]) in s.objs)
    && forall k :: Key(k) ==> InvKeyed(s)
  }

  ghost predicate InvKeyed(s: State) {
    && (forall o :: o in s.objs ==> CountsOk(s, o))
    && (forall h :: h in s.handles ==> HandleOk(s, s.handles[h]))
    && (forall t :: t in s.pcs ==> PcOk(s, s.pcs[t]))
    && (forall t, u :: t in s.pcs && u in s.pcs && t != u ==> Apart(s.pcs[t], s.pcs[u]))
  }

  /** No two threads are about to make the same pointer. */
  predicate Apart(pc: Pc, pc2: Pc) { Target(pc).To? ==> Target(pc) != Target(pc2) }

  lemma CountsAt(s: State, o: Obj)
    requires Inv(s) && o in s.objs
    ensures Exact(s.objs[o], TallyOf(s, o))
  {
    assert Key(0);
  }

  lemma PcAt(s: State, t: Thread)
    requires Inv(s) && t in s.pcs
    ensures PcOk(s, s.pcs[t])
  {
    assert Key(0);
  }

  lemma ApartAt(s: State, t: Thread, u: Thread)
    requires Inv(s) && t in s.pcs && u in s.pcs && t != u
    ensures Apart(s.pcs[t], s.pcs[u])
  {
    assert Key(0);
  }

  lemma HandleAt(s: State, h: Handle)
    requires Inv(s) && h in s.handles
    ensures HandleOk(s, s.handles[h])
  {
    assert Key(0);
  }

  // ----- the steps -----

  datatype Step =
    | New(dst: Handle, o: Obj)                       // a new object and its first pointer
    | Empty(dst: Handle, strong: bool)               // a pointer to nothing
    | Copy(t: Thread, src: Handle, dst: Handle)      // a shared pointer from a shared one
    | Weaken(t: Thread, src: Handle, dst: Handle)    // a weak pointer from either
    | Lock(t: Thread, src: Handle, dst: Handle)      // a shared pointer from a weak one
    | Move(src: Handle, dst: Handle)
    | Swap(a: Handle, b: Handle)
    | Destroy(t: Thread, h: Handle)
    | Go(t: Thread, spurious: bool)                  // the next atomic step of a thread

  /** `h` names no pointer and no thread is about to make it. */
  predicate Free(s: State, h: Handle) {
    h !in s.handles && forall t :: t in s.pcs ==> Target(s.pcs[t]) != To(h)
  }

  predicate Reads(pc: Pc, h: Handle) { Target(pc).To? && pc.src == h }

  /** No thread is reading from pointer `h`. */
  predicate Unused(s: State, h: Handle) {
    forall t :: t in s.pcs ==> !Reads(s.pcs[t], h)
  }

  predicate Idle(s: State, t: Thread) { t !in s.pcs }

  /** What the language asks of the program: pointers are made where there are none, and
      not moved from, swapped or destroyed while another thread reads them. */
  predicate Enabled(s: State, step: Step) {
    match step
    case New(dst, o) => Free(s, dst) && o !in s.objs
    case Empty(dst, _) => Free(s, dst)
    case Copy(t, src, dst) => Idle(s, t) && Free(s, dst) && src in s.handles && s.handles[src].Strong?
    case Weaken(t, src, dst) => Idle(s, t) && Free(s, dst) && src in s.handles
    case Lock(t, src, dst) => Idle(s, t) && Free(s, dst) && src in s.handles && s.handles[src].Weak?
    case Move(src, dst) => Free(s, dst) && src in s.handles && Unused(s, src)
    case Swap(a, b) =>
      && a in s.handles && b in s.handles && Unused(s, a) && Unused(s, b)
      && s.handles[a].Strong? == s.handles[b].Strong?
    case Destroy(t, h) => Idle(s, t) && h in s.handles && Unused(s, h)
    case Go(t, _) => t in s.pcs
  }

  function Empties(p: Pointer): Pointer {
    if p.Strong? then Strong(Null) else Weak(Null)
  }

  function WithPc(s: State, t: Thread, pc: Pc): State { s.(pcs := s.pcs[t := pc]) }

  function Done(s: State, t: Thread): State { s.(pcs := s.pcs - {t}) }

  function WithHandle(s: State, h: Handle, p: Pointer): State { s.(handles := s.handles[h := p]) }

  function WithCounts(s: State, o: Obj, c: Counts): State { s.(objs := s.objs[o := c]) }

  /** `LockWeak` gives up when the count it last saw is zero. */
  function Looked(s: State, t: Thread, pc: Pc, count: nat): State
    requires Target(pc).To?
  {
    if count == 0 then Done(WithHandle(s, pc.dst, Strong(Null)), t)
    else WithPc(s, t, CompareExchange(pc.src, pc.dst, pc.o, count))
  }

  /** One atomic step of thread `t`. */
  function Atomic(s: State, t: Thread, spurious: bool): State
    requires t in s.pcs && Subject(s.pcs[t]) in s.objs
  {
    var pc := s.pcs[t];
    var c := s.objs[pc.o];
    match pc
    case AddRef(_, dst, o) =>
      Done(WithHandle(WithCounts(s, o, c.(strong := c.strong + 1)), dst, Strong(To(o))), t)
    case AddWeakRef(_, dst, o) =>
      Done(WithHandle(WithCounts(s, o, c.(weak := c.weak + 1)), dst, Weak(To(o))), t)
    case LoadStrong(_, _, o) => Looked(s, t, pc, c.strong)
    case CompareExchange(_, dst, o, count) =>
      if c.strong == count && !spurious then
        Done(WithHandle(WithCounts(s, o, c.(strong := count + 1)), dst, Strong(To(o))), t)
      else Looked(s, t, pc, c.strong)
    case RemoveRef(o) =>
      var s1 := WithCounts(s, o, c.(strong := if c.strong > 0 then c.strong - 1 else 0));
      if c.strong == 1 then WithPc(s1, t, CallDispose(o)) else Done(s1, t)
    case CallDispose(o) => WithPc(WithCounts(s, o, c.(disposed := true)), t, InDispose(o))
    case InDispose(o) => WithPc(s, t, RemoveWeakRef(o))
    case RemoveWeakRef(o) =>
      var s1 := WithCounts(s, o, c.(weak := if c.weak > 0 then c.weak - 1 else 0));
      if c.weak == 1 then WithPc(s1, t, Delete(o)) else Done(s1, t)
    case Delete(o) => Done(s.(objs := s.objs - {o}), t)
  }

  function Apply(s: State, step: Step): State
    requires Enabled(s, step) && (step.Go? ==> Subject(s.pcs[step.t]) in s.objs)
  {
    match step
    case New(dst, o) => WithHandle(WithCounts(s, o, Counts(1, 1, false)), dst, Strong(To(o)))
    case Empty(dst, strong) => WithHandle(s, dst, if strong then Strong(Null) else Weak(Null))
    case Copy(t, src, dst) =>
      (match s.handles[src].ctrl
       case Null => WithHandle(s, dst, Strong(Null))
       case To(o) => WithPc(s, t, AddRef(src, dst, o)))
    case Weaken(t, src, dst) =>
      (match s.handles[src].ctrl
       case Null => WithHandle(s, dst, Weak(Null))
       case To(o) => WithPc(s, t, AddWeakRef(src, dst, o)))
    case Lock(t, src, dst) =>
      (match s.handles[src].ctrl
       case Null => WithHandle(s, dst, Strong(Null))
       case To(o) => WithPc(s, t, LoadStrong(src, dst, o)))
    case Move(src, dst) =>
      WithHandle(WithHandle(s, dst, s.handles[src]), src, Empties(s.handles[src]))
    case Swap(a, b) => WithHandle(WithHandle(s, a, s.handles[b]), b, s.handles[a])
    case Destroy(t, h) =>
      var s1 := s.(handles := s.handles - {h});
      (match s.handles[h]
       case Strong(To(o)) => WithPc(s1, t, RemoveRef(o))
       case Weak(To(o)) => WithPc(s1, t, RemoveWeakRef(o))
       case _ => s1)
    case Go(t, spurious) => Atomic(s, t, spurious)
  }

  // ----- how the tally changes -----

  function PlusHandle(n: Tally, o: Obj, p: Pointer): Tally {
    n.(strong := n.strong + if p == Strong(To(o)) then 1 else 0,
       weak := n.weak + if p == Weak(To(o)) then 1 else 0)
  }

  function PlusPc(n: Tally, o: Obj, pc: Pc): Tally {
    match pc
    case RemoveRef(q) => if q == o then n.(removing := n.removing + 1) else n
    case CallDispose(q) => if q == o then n.(calling := n.calling + 1) else n
    case InDispose(q) => if q == o then n.(inside := n.inside + 1) else n
    case RemoveWeakRef(q) => if q == o then n.(dropping := n.dropping + 1) else n
    case Delete(q) => if q == o then n.(deleting := n.deleting + 1) else n
    case _ => n
  }

  lemma HandlesPlus(s: State, h: Handle, p: Pointer, s2: State, q: Pointer)
    requires h !in s.handles && s2.handles == s.handles[h := p]
    ensures |Handles(s2, q)| == |Handles(s, q)| + if p == q then 1 else 0
  {
    if p == q {
      assert Handles(s2, q) == Handles(s, q) + {h};
    } else {
      assert Handles(s2, q) == Handles(s, q);
    }
  }

  lemma AtPlus(s: State, t: Thread, pc: Pc, s2: State, q: Pc)
    requires t !in s.pcs && s2.pcs == s.pcs[t := pc]
    ensures |At(s2, q)| == |At(s, q)| + if pc == q then 1 else 0
  {
    if pc == q {
      assert At(s2, q) == At(s, q) + {t};
    } else {
      assert At(s2, q) == At(s, q);
    }
  }

  lemma SameHandles(s: State, s2: State, o: Obj)
    requires s2.handles == s.handles
    ensures Handles(s2, Strong(To(o))) == Handles(s, Strong(To(o)))
    ensures Handles(s2, Weak(To(o))) == Handles(s, Weak(To(o)))
  {
  }

  lemma SameAt(s: State, s2: State, q: Pc)
    requires s2.pcs == s.pcs
    ensures At(s2, q) == At(s, q)
  {
  }

  lemma SamePcs(s: State, s2: State, o: Obj)
    requires s2.pcs == s.pcs
    ensures TallyOf(s2, o) == TallyOf(s, o).(strong := TallyOf(s2, o).strong, weak := TallyOf(s2, o).weak)
  {
    SameAt(s, s2, RemoveRef(o));
    SameAt(s, s2, CallDispose(o));
    SameAt(s, s2, InDispose(o));
    SameAt(s, s2, RemoveWeakRef(o));
    SameAt(s, s2, Delete(o));
  }

  /** `s2` has one more pointer than `s`. */
  lemma HandleTally(s: State, h: Handle, p: Pointer, s2: State, o: Obj)
    requires h !in s.handles && s2.handles == s.handles[h := p] && s2.pcs == s.pcs
    ensures TallyOf(s2, o) == PlusHandle(TallyOf(s, o), o, p)
  {
    HandlesPlus(s, h, p, s2, Strong(To(o)));
    HandlesPlus(s, h, p, s2, Weak(To(o)));
    SamePcs(s, s2, o);
  }

  /** `s2` has one more thread under way than `s`. */
  lemma PcTally(s: State, t: Thread, pc: Pc, s2: State, o: Obj)
    requires t !in s.pcs && s2.pcs == s.pcs[t := pc] && s2.handles == s.handles
    ensures TallyOf(s2, o) == PlusPc(TallyOf(s, o), o, pc)
  {
    SameHandles(s, s2, o);
    AtPlus(s, t, pc, s2, RemoveRef(o));
    AtPlus(s, t, pc, s2, CallDispose(o));
    AtPlus(s, t, pc, s2, InDispose(o));
    AtPlus(s, t, pc, s2, RemoveWeakRef(o));
    AtPlus(s, t, pc, s2, Delete(o));
  }

  lemma SameTally(s: State, s2: State, o: Obj)
    requires s2.handles == s.handles && s2.pcs == s.pcs
    ensures TallyOf(s2, o) == TallyOf(s, o)
  {
    SameHandles(s, s2, o);
    SamePcs(s, s2, o);
  }

  /** Thread `t` leaves off what it was at and does `pc` next. */
  lemma NextTally(s: State, t: Thread, pc: Pc, s2: State, o: Obj)
    requires t in s.pcs && s2.handles == s.handles && s2.pcs == s.pcs[t := pc]
    ensures TallyOf(s, o) == PlusPc(TallyOf(Done(s, t), o), o, s.pcs[t])
    ensures TallyOf(s2, o) == PlusPc(TallyOf(Done(s, t), o), o, pc)
  {
    var b := Done(s, t);
    assert s.pcs == b.pcs[t := s.pcs[t]] && s2.pcs == b.pcs[t := pc];
    PcTally(b, t, s.pcs[t], s, o);
    PcTally(b, t, pc, s2, o);
  }

  /** Thread `t` is done. */
  lemma DoneTally(s: State, t: Thread, s2: State, o: Obj)
    requires t in s.pcs && s2.handles == s.handles && s2.pcs == s.pcs - {t}
    ensures TallyOf(s, o) == PlusPc(TallyOf(s2, o), o, s.pcs[t])
  {
    assert s.pcs == s2.pcs[t := s.pcs[t]];
    PcTally(s2, t, s.pcs[t], s, o);
  }

  /** Thread `t` is done, having made pointer `h`. */
  lemma MadeTally(s: State, t: Thread, h: Handle, p: Pointer, s2: State, o: Obj)
    requires t in s.pcs && h !in s.handles && s2.handles == s.handles[h := p] && s2.pcs == s.pcs - {t}
    ensures TallyOf(s, o) == PlusPc(TallyOf(Done(s, t), o), o, s.pcs[t])
    ensures TallyOf(s2, o) == PlusHandle(TallyOf(Done(s, t), o), o, p)
  {
    DoneTally(s, t, Done(s, t), o);
    HandleTally(Done(s, t), h, p, s2, o);
  }

  /** A thread at `pc` is there to be counted. */
  lemma Counted(s: State, t: Thread, o: Obj)
    requires t in s.pcs
    ensures s.pcs[t] == RemoveRef(o) ==> TallyOf(s, o).removing > 0
    ensures s.pcs[t] == CallDispose(o) ==> TallyOf(s, o).calling > 0
    ensures s.pcs[t] == InDispose(o) ==> TallyOf(s, o).inside > 0
    ensures s.pcs[t] == RemoveWeakRef(o) ==> TallyOf(s, o).dropping > 0
    ensures s.pcs[t] == Delete(o) ==> TallyOf(s, o).deleting > 0
  {
    DoneTally(s, t, Done(s, t), o);
  }

  lemma PointerCounted(s: State, h: Handle, o: Obj)
    requires h in s.handles
    ensures s.handles[h] == Strong(To(o)) ==> TallyOf(s, o).strong > 0
    ensures s.handles[h] == Weak(To(o)) ==> TallyOf(s, o).weak > 0
  {
    assert h in Handles(s, s.handles[h]);
  }

  // ----- the counts stay exact -----

  lemma ExactCopied(c: Counts, n: Tally)
    requires Exact(c, n)
    ensures c.strong > 0 ==> Exact(c.(strong := c.strong + 1), n.(strong := n.strong + 1))
    ensures c.weak > 0 ==> Exact(c.(weak := c.weak + 1), n.(weak := n.weak + 1))
  {
  }

  /** A thread releases a strong reference; the last one goes on to dispose of the object. */
  lemma ExactRemoved(c: Counts, base: Tally)
    requires Exact(c, base.(removing := base.removing + 1))
    ensures c.strong > 0
    ensures Exact(c.(strong := c.strong - 1),
                  if c.strong == 1 then base.(calling := base.calling + 1) else base)
  {
  }

  /** A thread releases a weak reference; the last one goes on to delete the object. */
  lemma ExactDropped(c: Counts, base: Tally)
    requires Exact(c, base.(dropping := base.dropping + 1))
    ensures c.weak > 0
    ensures Exact(c.(weak := c.weak - 1), if c.weak == 1 then base.(deleting := base.deleting + 1) else base)
  {
  }

  lemma ExactDestroyed(c: Counts, base: Tally)
    ensures Exact(c, base.(strong := base.strong + 1)) ==> Exact(c, base.(removing := base.removing + 1))
    ensures Exact(c, base.(weak := base.weak + 1)) ==> Exact(c, base.(dropping := base.dropping + 1))
  {
  }

  /** What the assertions of `AddRef` and `AddWeakRef` ask for: a reference already there. */
  lemma SourceCounts(s: State, t: Thread)
    requires Inv(s) && t in s.pcs && Target(s.pcs[t]).To?
    ensures s.objs[s.pcs[t].o].weak > 0
    ensures s.pcs[t].AddRef? ==> s.objs[s.pcs[t].o].strong > 0
  {
    var pc := s.pcs[t];
    CountsAt(s, pc.o);
    PcAt(s, t);
    PointerCounted(s, pc.src, pc.o);
  }

  lemma CopyCounts(s: State, t: Thread, p: Obj)
    requires Inv(s) && t in s.pcs && (s.pcs[t].AddRef? || s.pcs[t].AddWeakRef?) && p in s.objs
    ensures CountsOk(Atomic(s, t, false), p)
  {
    var pc := s.pcs[t];
    var s2 := Atomic(s, t, false);
    PcAt(s, t);
    CountsAt(s, p);
    SourceCounts(s, t);
    MadeTally(s, t, pc.dst, if pc.AddRef? then Strong(To(pc.o)) else Weak(To(pc.o)), s2, p);
    if p == pc.o { ExactCopied(s.objs[p], TallyOf(s, p)); }
    assert Exact(s2.objs[p], TallyOf(s2, p));
  }

  lemma LookedCounts(s: State, t: Thread, count: nat, p: Obj)
    requires Inv(s) && t in s.pcs && Target(s.pcs[t]).To? && p in s.objs
    ensures CountsOk(Looked(s, t, s.pcs[t], count), p)
  {
    var pc := s.pcs[t];
    var s2 := Looked(s, t, pc, count);
    PcAt(s, t);
    CountsAt(s, p);
    if count == 0 {
      MadeTally(s, t, pc.dst, Strong(Null), s2, p);
    } else {
      NextTally(s, t, CompareExchange(pc.src, pc.dst, pc.o, count), s2, p);
    }
  }

  lemma LockedCounts(s: State, t: Thread, p: Obj)
    requires Inv(s) && t in s.pcs && s.pcs[t].CompareExchange? && p in s.objs
    requires s.objs[s.pcs[t].o].strong == s.pcs[t].count
    ensures CountsOk(Atomic(s, t, false), p)
  {
    var pc := s.pcs[t];
    PcAt(s, t);
    CountsAt(s, p);
    MadeTally(s, t, pc.dst, Strong(To(pc.o)), Atomic(s, t, false), p);
  }

  lemma RemoveRefCounts(s: State, t: Thread, p: Obj)
    requires Inv(s) && t in s.pcs && s.pcs[t].RemoveRef? && p in s.objs
    ensures CountsOk(Atomic(s, t, false), p) && s.objs[s.pcs[t].o].strong > 0
  {
    var o := s.pcs[t].o;
    var c := s.objs[o];
    CountsAt(s, o);
    DoneTally(s, t, Done(s, t), o);
    ExactRemoved(c, TallyOf(Done(s, t), o));
    var s1 := WithCounts(s, o, c.(strong := c.strong - 1));
    assert Atomic(s, t, false) == if c.strong == 1 then WithPc(s1, t, CallDispose(o)) else Done(s1, t);
    if c.strong == 1 {
      RemoveRefLast(s, t, s1, p);
    } else {
      RemoveRefMore(s, t, s1, p);
    }
  }

  lemma RemoveRefLast(s: State, t: Thread, s1: State, p: Obj)
    requires Inv(s) && t in s.pcs && s.pcs[t].RemoveRef? && p in s.objs && s.objs[s.pcs[t].o].strong == 1
    requires s1 == WithCounts(s, s.pcs[t].o, s.objs[s.pcs[t].o].(strong := 0))
    ensures CountsOk(WithPc(s1, t, CallDispose(s.pcs[t].o)), p)
  {
    var o := s.pcs[t].o;
    var s2 := WithPc(s1, t, CallDispose(o));
    NextTally(s, t, CallDispose(o), s2, p);
    CountsAt(s, p);
    if p == o {
      ExactRemoved(s.objs[o], TallyOf(Done(s, t), o));
      assert Exact(s2.objs[o], TallyOf(s2, o));
    } else {
      assert s2.objs[p] == s.objs[p] && TallyOf(s2, p) == TallyOf(s, p);
    }
  }

  lemma RemoveRefMore(s: State, t: Thread, s1: State, p: Obj)
    requires Inv(s) && t in s.pcs && s.pcs[t].RemoveRef? && p in s.objs && s.objs[s.pcs[t].o].strong > 1
    requires s1 == WithCounts(s, s.pcs[t].o, s.objs[s.pcs[t].o].(strong := s.objs[s.pcs[t].o].strong - 1))
    ensures CountsOk(Done(s1, t), p)
  {
    var o := s.pcs[t].o;
    var s2 := Done(s1, t);
    DoneTally(s, t, s2, p);
    CountsAt(s, p);
    if p == o {
      ExactRemoved(s.objs[o], TallyOf(s2, o));
      assert Exact(s2.objs[o], TallyOf(s2, o));
    } else {
      assert s2.objs[p] == s.objs[p] && TallyOf(s2, p) == TallyOf(s, p);
    }
  }

  /** What the assertions around the call of `Dispose` say, and that it is called once. */
  lemma DisposeOnce(s: State, t: Thread)
    requires Inv(s) && t in s.pcs && (s.pcs[t].CallDispose? || s.pcs[t].InDispose?)
    ensures s.objs[s.pcs[t].o].strong == 0 && s.objs[s.pcs[t].o].weak > 0
    ensures s.objs[s.pcs[t].o].disposed == s.pcs[t].InDispose?
  {
    CountsAt(s, s.pcs[t].o);
    Counted(s, t, s.pcs[t].o);
  }

  lemma CallDisposeCounts(s: State, t: Thread, p: Obj)
    requires Inv(s) && t in s.pcs && s.pcs[t].CallDispose? && p in s.objs
    ensures var o := s.pcs[t].o;
      CountsOk(WithPc(WithCounts(s, o, s.objs[o].(disposed := true)), t, InDispose(o)), p)
  {
    var o := s.pcs[t].o;
    var s2 := WithPc(WithCounts(s, o, s.objs[o].(disposed := true)), t, InDispose(o));
    CountsAt(s, p);
    NextTally(s, t, InDispose(o), s2, p);
    if p == o {
      DisposeOnce(s, t);
      assert s2.objs[o] == Counts(0, s.objs[o].weak, true);
      assert Exact(s2.objs[o], TallyOf(s2, o));
    } else {
      assert s2.objs[p] == s.objs[p] && TallyOf(s2, p) == TallyOf(s, p);
    }
  }

  lemma InDisposeCounts(s: State, t: Thread, p: Obj)
    requires Inv(s) && t in s.pcs && s.pcs[t].InDispose? && p in s.objs
    ensures CountsOk(Atomic(s, t, false), p)
  {
    var o := s.pcs[t].o;
    var s2 := WithPc(s, t, RemoveWeakRef(o));
    CountsAt(s, p);
    DisposeOnce(s, t);
    NextTally(s, t, RemoveWeakRef(o), s2, p);
    assert Exact(s2.objs[p], TallyOf(s2, p));
  }

  lemma RemoveWeakRefCounts(s: State, t: Thread, p: Obj)
    requires Inv(s) && t in s.pcs && s.pcs[t].RemoveWeakRef? && p in s.objs
    ensures CountsOk(Atomic(s, t, false), p) && s.objs[s.pcs[t].o].weak > 0
  {
    var o := s.pcs[t].o;
    var c := s.objs[o];
    CountsAt(s, o);
    DoneTally(s, t, Done(s, t), o);
    ExactDropped(c, TallyOf(Done(s, t), o));
    var s1 := WithCounts(s, o, c.(weak := c.weak - 1));
    assert Atomic(s, t, false) == if c.weak == 1 then WithPc(s1, t, Delete(o)) else Done(s1, t);
    if c.weak == 1 {
      RemoveWeakRefLast(s, t, s1, p);
    } else {
      RemoveWeakRefMore(s, t, s1, p);
    }
  }

  lemma RemoveWeakRefLast(s: State, t: Thread, s1: State, p: Obj)
    requires Inv(s) && t in s.pcs && s.pcs[t].RemoveWeakRef? && p in s.objs && s.objs[s.pcs[t].o].weak == 1
    requires s1 == WithCounts(s, s.pcs[t].o, s.objs[s.pcs[t].o].(weak := 0))
    ensures CountsOk(WithPc(s1, t, Delete(s.pcs[t].o)), p)
  {
    var o := s.pcs[t].o;
    var s2 := WithPc(s1, t, Delete(o));
    NextTally(s, t, Delete(o), s2, p);
    CountsAt(s, p);
    if p == o {
      ExactDropped(s.objs[o], TallyOf(Done(s, t), o));
      assert Exact(s2.objs[o], TallyOf(s2, o));
    } else {
      assert s2.objs[p] == s.objs[p] && TallyOf(s2, p) == TallyOf(s, p);
    }
  }

  lemma RemoveWeakRefMore(s: State, t: Thread, s1: State, p: Obj)
    requires Inv(s) && t in s.pcs && s.pcs[t].RemoveWeakRef? && p in s.objs && s.objs[s.pcs[t].o].weak > 1
    requires s1 == WithCounts(s, s.pcs[t].o, s.objs[s.pcs[t].o].(weak := s.objs[s.pcs[t].o].weak - 1))
    ensures CountsOk(Done(s1, t), p)
  {
    var o := s.pcs[t].o;
    var s2 := Done(s1, t);
    DoneTally(s, t, s2, p);
    CountsAt(s, p);
    if p == o {
      ExactDropped(s.objs[o], TallyOf(s2, o));
      assert Exact(s2.objs[o], TallyOf(s2, o));
    } else {
      assert s2.objs[p] == s.objs[p] && TallyOf(s2, p) == TallyOf(s, p);
    }
  }

  lemma DeleteCounts(s: State, t: Thread, p: Obj)
    requires Inv(s) && t in s.pcs && s.pcs[t].Delete? && p in s.objs && p != s.pcs[t].o
    ensures CountsOk(Done(s.(objs := s.objs - {s.pcs[t].o}), t), p)
  {
    var s2 := Done(s.(objs := s.objs - {s.pcs[t].o}), t);
    CountsAt(s, p);
    DoneTally(s, t, s2, p);
    assert Exact(s2.objs[p], TallyOf(s2, p));
  }

  /** When an object is deleted it has been disposed of, and no pointer and no thread
      knows it any more. */
  lemma NothingRefers(s: State, t: Thread)
    requires Inv(s) && t in s.pcs && s.pcs[t].Delete?
    ensures s.objs[s.pcs[t].o] == Counts(0, 0, true)
    ensures forall h :: h in s.handles ==> s.handles[h].ctrl != To(s.pcs[t].o)
    ensures forall u :: u in s.pcs && u != t ==> Subject(s.pcs[u]) != s.pcs[t].o
  {
    var o := s.pcs[t].o;
    DeleteCount(s, t);
    forall h | h in s.handles ensures s.handles[h].ctrl != To(o) { PointerCounted(s, h, o); }
    forall u | u in s.pcs && u != t ensures Subject(s.pcs[u]) != o { NoOther(s, t, u); }
  }

  lemma DeleteCount(s: State, t: Thread)
    requires Inv(s) && t in s.pcs && s.pcs[t].Delete?
    ensures s.objs[s.pcs[t].o] == Counts(0, 0, true)
    ensures TallyOf(s, s.pcs[t].o) == Tally(0, 0, 0, 0, 0, 0, 1)
  {
    CountsAt(s, s.pcs[t].o);
    Counted(s, t, s.pcs[t].o);
  }

  lemma NoOther(s: State, t: Thread, u: Thread)
    requires Inv(s) && t in s.pcs && s.pcs[t].Delete? && u in s.pcs && u != t
    ensures Subject(s.pcs[u]) != s.pcs[t].o
  {
    var o := s.pcs[t].o;
    DeleteCount(s, t);
    if Target(s.pcs[u]).To? { SourceCounts(s, u); }
    DoneTally(s, t, Done(s, t), o);
    Counted(Done(s, t), u, o);
  }

  // ----- the invariant is kept -----

  lemma AtomicCounts(s: State, t: Thread, spurious: bool, p: Obj)
    requires Inv(s) && t in s.pcs && p in Atomic(s, t, spurious).objs
    ensures CountsOk(Atomic(s, t, spurious), p)
  {
    var pc := s.pcs[t];
    match pc
    case AddRef(_, _, _) => CopyCounts(s, t, p);
    case AddWeakRef(_, _, _) => CopyCounts(s, t, p);
    case LoadStrong(_, _, o) => LookedCounts(s, t, s.objs[o].strong, p);
    case CompareExchange(_, _, o, count) =>
      if s.objs[o].strong == count && !spurious { LockedCounts(s, t, p); }
      else { LookedCounts(s, t, s.objs[o].strong, p); }
    case RemoveRef(_) => RemoveRefCounts(s, t, p);
    case CallDispose(_) => CallDisposeCounts(s, t, p);
    case InDispose(_) => InDisposeCounts(s, t, p);
    case RemoveWeakRef(_) => RemoveWeakRefCounts(s, t, p);
    case Delete(_) => DeleteCounts(s, t, p);
  }

  lemma AtomicKeeps(s: State, t: Thread, spurious: bool)
    requires Inv(s) && t in s.pcs
    ensures Inv(Atomic(s, t, spurious))
  {
    if s.pcs[t].Delete? { NothingRefers(s, t); }
    AtomicRest(s, t, spurious);
    var s2 := Atomic(s, t, spurious);
    forall p | p in s2.objs ensures CountsOk(s2, p) { AtomicCounts(s, t, spurious, p); }
    assert InvKeyed(s2);
  }

  /** What a thread does next after `pc`. */
  predicate Follows(pc: Pc, pc2: Pc) {
    && Subject(pc2) == Subject(pc) && !pc.Delete?
    && (Target(pc2).To? ==> (pc.LoadStrong? || pc.CompareExchange?) && pc2.CompareExchange?)
    && (Target(pc2).To? ==> pc2.src == pc.src && pc2.dst == pc.dst && pc2.count > 0)
  }

  /** What an atomic step of a thread can do besides counting. */
  ghost predicate Effect(s: State, t: Thread, s2: State)
    requires t in s.pcs
  {
    var pc := s.pcs[t];
    && s2.objs.Keys == (if pc.Delete? then s.objs.Keys - {pc.o} else s.objs.Keys)
    && (s2.pcs == s.pcs - {t} || (t in s2.pcs && s2.pcs == s.pcs[t := s2.pcs[t]] && s2.handles == s.handles
          && Follows(pc, s2.pcs[t])))
    && (s2.handles == s.handles || (Target(pc).To? && pc.dst in s2.handles
          && s2.handles == s.handles[pc.dst := s2.handles[pc.dst]]
          && (s2.handles[pc.dst].ctrl == Null || s2.handles[pc.dst].ctrl == To(pc.o))))
  }

  lemma AtomicEffect(s: State, t: Thread, spurious: bool)
    requires t in s.pcs && Subject(s.pcs[t]) in s.objs
    ensures Effect(s, t, Atomic(s, t, spurious))
  {
    var s2 := Atomic(s, t, spurious);
    assert s2.objs.Keys == if s.pcs[t].Delete? then s.objs.Keys - {s.pcs[t].o} else s.objs.Keys;
  }

  lemma OtherPcs(s: State, t: Thread, s2: State, u: Thread)
    requires Inv(s) && t in s.pcs && Effect(s, t, s2) && u in s.pcs && u != t
    requires s.pcs[t].Delete? ==> Subject(s.pcs[u]) != s.pcs[t].o
    ensures u in s2.pcs && s2.pcs[u] == s.pcs[u] && Subject(s2.pcs[u]) in s2.objs && PcOk(s2, s2.pcs[u])
  {
    PcAt(s, u);
    PcAt(s, t);
    ApartAt(s, u, t);
  }

  lemma OwnPc(s: State, t: Thread, s2: State)
    requires Inv(s) && t in s.pcs && Effect(s, t, s2) && t in s2.pcs
    ensures Subject(s2.pcs[t]) in s2.objs && PcOk(s2, s2.pcs[t])
  {
    PcAt(s, t);
  }

  lemma AtomicRest(s: State, t: Thread, spurious: bool)
    requires Inv(s) && t in s.pcs
    requires s.pcs[t].Delete? ==> forall u :: u in s.pcs && u != t ==> Subject(s.pcs[u]) != s.pcs[t].o
    requires s.pcs[t].Delete? ==> forall h :: h in s.handles ==> s.handles[h].ctrl != To(s.pcs[t].o)
    ensures var s2 := Atomic(s, t, spurious);
      && (forall u :: u in s2.pcs ==> Subject(s2.pcs[u]) in s2.objs && PcOk(s2, s2.pcs[u]))
      && (forall h :: h in s2.handles ==> HandleOk(s2, s2.handles[h]))
      && (forall u, v :: u in s2.pcs && v in s2.pcs && u != v ==> Apart(s2.pcs[u], s2.pcs[v]))
  {
    var s2 := Atomic(s, t, spurious);
    AtomicEffect(s, t, spurious);
    forall u | u in s2.pcs ensures Subject(s2.pcs[u]) in s2.objs && PcOk(s2, s2.pcs[u]) {
      if u == t { OwnPc(s, t, s2); } else { OtherPcs(s, t, s2, u); }
    }
    forall h | h in s2.handles ensures HandleOk(s2, s2.handles[h]) {
      if h in s.handles { HandleAt(s, h); }
    }
    forall u, v | u in s2.pcs && v in s2.pcs && u != v ensures Apart(s2.pcs[u], s2.pcs[v]) {
      ApartAt(s, u, v);
    }
  }

  // ----- the other steps -----

  /** The counts of `p` are exact in `s2`, which may differ from `s` elsewhere. */
  lemma SameCounts(s: State, s2: State, p: Obj)
    requires Inv(s) && p in s.objs && p in s2.objs && s2.objs[p] == s.objs[p]
    requires TallyOf(s2, p) == TallyOf(s, p)
    ensures CountsOk(s2, p)
  {
    CountsAt(s, p);
  }

  /** No thread is affected: what it reads is as before, and nobody made what it makes. */
  ghost predicate Undisturbed(s: State, s2: State) {
    && s2.objs.Keys >= s.objs.Keys
    && (forall h, u :: h in s.handles && u in s.pcs && Reads(s.pcs[u], h) ==>
          h in s2.handles && s2.handles[h] == s.handles[h])
    && (forall h :: h in s2.handles && h !in s.handles ==> Free(s, h))
  }

  lemma PcStays(s: State, s2: State, u: Thread)
    requires Inv(s) && u in s.pcs && Undisturbed(s, s2)
    ensures PcOk(s2, s.pcs[u]) && Subject(s.pcs[u]) in s2.objs
  {
    PcAt(s, u);
    assert Target(s.pcs[u]).To? && s.pcs[u].dst in s2.handles ==> Free(s, s.pcs[u].dst);
  }

  ghost predicate PcsOk(s: State) {
    && (forall u :: u in s.pcs ==> Subject(s.pcs[u]) in s.objs && PcOk(s, s.pcs[u]))
    && (forall u, v :: u in s.pcs && v in s.pcs && u != v ==> Apart(s.pcs[u], s.pcs[v]))
  }

  lemma OldPcs(s: State, s2: State)
    requires Inv(s) && s2.pcs == s.pcs && Undisturbed(s, s2)
    ensures PcsOk(s2)
  {
    forall u | u in s2.pcs ensures Subject(s2.pcs[u]) in s2.objs && PcOk(s2, s2.pcs[u]) { PcStays(s, s2, u); }
    forall u, v | u in s2.pcs && v in s2.pcs && u != v ensures Apart(s2.pcs[u], s2.pcs[v]) { ApartAt(s, u, v); }
  }

  /** The threads after thread `t` has started something. */
  lemma StartedPcs(s: State, t: Thread, pc: Pc, s2: State)
    requires Inv(s) && Idle(s, t) && s2.pcs == s.pcs[t := pc] && Undisturbed(s, s2)
    requires Subject(pc) in s2.objs && PcOk(s2, pc)
    requires Target(pc).To? ==> Free(s, pc.dst)
    ensures PcsOk(s2)
  {
    forall u | u in s2.pcs ensures Subject(s2.pcs[u]) in s2.objs && PcOk(s2, s2.pcs[u]) {
      if u != t { PcStays(s, s2, u); }
    }
    forall u, v | u in s2.pcs && v in s2.pcs && u != v ensures Apart(s2.pcs[u], s2.pcs[v]) {
      if u != t && v != t { ApartAt(s, u, v); }
    }
  }

  ghost predicate HandlesOk(s: State) {
    forall k :: Key(k) ==> forall h :: h in s.handles ==> HandleOk(s, s.handles[h])
  }

  /** Every pointer of `s2` refers to nothing, to what some pointer referred to before, or
      to an object that is there. */
  lemma OldHandles(s: State, s2: State)
    requires Inv(s) && s2.objs.Keys >= s.objs.Keys
    requires forall h :: h in s2.handles ==>
      HandleOk(s2, s2.handles[h]) || exists g :: g in s.handles && s.handles[g].ctrl == s2.handles[h].ctrl
    ensures HandlesOk(s2)
  {
    forall h | h in s2.handles ensures HandleOk(s2, s2.handles[h]) {
      if !HandleOk(s2, s2.handles[h]) {
        var g :| g in s.handles && s.handles[g].ctrl == s2.handles[h].ctrl;
        HandleAt(s, g);
      }
    }
  }

  ghost predicate AllCounts(s: State) {
    forall k :: Key(k) ==> forall o :: o in s.objs ==> CountsOk(s, o)
  }

  lemma Together(s: State)
    requires AllCounts(s) && HandlesOk(s) && PcsOk(s)
    ensures Inv(s)
  {
    assert Key(0);
    assert InvKeyed(s);
  }

  /** A new pointer, made without counting. */
  lemma MadeKeeps(s: State, h: Handle, p: Pointer)
    requires Inv(s) && Free(s, h) && p.ctrl == Null
    ensures Inv(WithHandle(s, h, p))
  {
    var s2 := WithHandle(s, h, p);
    MadeCounts(s, h, p);
    OldPcs(s, s2);
    OldHandles(s, s2);
    Together(s2);
  }

  lemma MadeCounts(s: State, h: Handle, p: Pointer)
    requires Inv(s) && h !in s.handles && p.ctrl == Null
    ensures AllCounts(WithHandle(s, h, p))
  {
    var s2 := WithHandle(s, h, p);
    forall o | o in s2.objs ensures CountsOk(s2, o) {
      HandleTally(s, h, p, s2, o);
      SameCounts(s, s2, o);
    }
  }

  lemma NewKeeps(s: State, dst: Handle, o: Obj)
    requires Inv(s) && Free(s, dst) && o !in s.objs
    ensures Inv(Apply(s, New(dst, o)))
  {
    var s2 := Apply(s, New(dst, o));
    NewCounts(s, dst, o);
    OldPcs(s, s2);
    OldHandles(s, s2);
    Together(s2);
  }

  lemma NewCounts(s: State, dst: Handle, o: Obj)
    requires Inv(s) && Free(s, dst) && o !in s.objs
    ensures AllCounts(Apply(s, New(dst, o)))
  {
    var s2 := Apply(s, New(dst, o));
    forall p | p in s2.objs ensures CountsOk(s2, p) {
      HandleTally(s.(objs := s2.objs), dst, Strong(To(o)), s2, p);
      SameTally(s, s.(objs := s2.objs), p);
      if p == o { NoneYet(s, o); } else { SameCounts(s, s2, p); }
    }
  }

  /** Nothing refers to an address that is free. */
  lemma NoneYet(s: State, o: Obj)
    requires Inv(s) && o !in s.objs
    ensures TallyOf(s, o) == Tally(0, 0, 0, 0, 0, 0, 0)
  {
    NoPointer(s, Strong(To(o)));
    NoPointer(s, Weak(To(o)));
    NoThread(s, RemoveRef(o));
    NoThread(s, CallDispose(o));
    NoThread(s, InDispose(o));
    NoThread(s, RemoveWeakRef(o));
    NoThread(s, Delete(o));
  }

  lemma NoPointer(s: State, p: Pointer)
    requires Inv(s) && p.ctrl.To? && p.ctrl.o !in s.objs
    ensures Handles(s, p) == {}
  {
    forall h | h in s.handles ensures HandleOk(s, s.handles[h]) { HandleAt(s, h); }
  }

  lemma NoThread(s: State, pc: Pc)
    requires Inv(s) && Subject(pc) !in s.objs
    ensures At(s, pc) == {}
  {
  }

  /** A thread starts to copy, weaken or lock a pointer. */
  lemma BegunKeeps(s: State, t: Thread, pc: Pc)
    requires Inv(s) && Idle(s, t) && Target(pc).To? && Free(s, pc.dst) && Subject(pc) in s.objs
    requires PcOk(s, pc) && !pc.CompareExchange?
    ensures Inv(WithPc(s, t, pc))
  {
    var s2 := WithPc(s, t, pc);
    BegunCounts(s, t, pc);
    StartedPcs(s, t, pc, s2);
    OldHandles(s, s2);
    Together(s2);
  }

  lemma BegunCounts(s: State, t: Thread, pc: Pc)
    requires Inv(s) && Idle(s, t) && Target(pc).To?
    ensures AllCounts(WithPc(s, t, pc))
  {
    var s2 := WithPc(s, t, pc);
    forall p | p in s2.objs ensures CountsOk(s2, p) {
      PcTally(s, t, pc, s2, p);
      SameCounts(s, s2, p);
    }
  }

  lemma MoveKeeps(s: State, src: Handle, dst: Handle)
    requires Inv(s) && Free(s, dst) && src in s.handles && Unused(s, src)
    ensures Inv(Apply(s, Move(src, dst)))
  {
    var s2 := Apply(s, Move(src, dst));
    assert AllCounts(s2) by {
      forall o | o in s2.objs ensures CountsOk(s2, o) {
        MoveTally(s, src, dst, s2, o);
        SameCounts(s, s2, o);
      }
    }
    OldPcs(s, s2);
    OldHandles(s, s2);
    Together(s2);
  }

  lemma MoveTally(s: State, src: Handle, dst: Handle, s2: State, o: Obj)
    requires src in s.handles && dst !in s.handles && s2.pcs == s.pcs
    requires s2.handles == s.handles[dst := s.handles[src]][src := Empties(s.handles[src])]
    ensures TallyOf(s2, o) == TallyOf(s, o)
  {
    var p := s.handles[src];
    var b := s.(handles := s.handles - {src});
    assert s.handles == b.handles[src := p];
    HandleTally(b, src, p, s, o);
    var b1 := b.(handles := b.handles[src := Empties(p)]);
    HandleTally(b, src, Empties(p), b1, o);
    assert s2.handles == b1.handles[dst := p];
    HandleTally(b1, dst, p, b1.(handles := s2.handles), o);
    SameTally(b1.(handles := s2.handles), s2, o);
  }

  lemma SwapKeeps(s: State, a: Handle, b: Handle)
    requires Inv(s) && Enabled(s, Swap(a, b))
    ensures Inv(Apply(s, Swap(a, b)))
  {
    var s2 := Apply(s, Swap(a, b));
    assert AllCounts(s2) by {
      forall o | o in s2.objs ensures CountsOk(s2, o) {
        SwapTally(s, a, b, s2, o);
        SameCounts(s, s2, o);
      }
    }
    OldPcs(s, s2);
    OldHandles(s, s2);
    Together(s2);
  }

  lemma SwapTally(s: State, a: Handle, b: Handle, s2: State, o: Obj)
    requires a in s.handles && b in s.handles && s2.pcs == s.pcs
    requires s2.handles == s.handles[a := s.handles[b]][b := s.handles[a]]
    ensures TallyOf(s2, o) == TallyOf(s, o)
  {
    if a == b {
      assert s2.handles == s.handles;
      SameTally(s, s2, o);
    } else {
      var c := s.(handles := s.handles - {a, b});
      assert s.handles == c.handles[a := s.handles[a]][b := s.handles[b]];
      assert s2.handles == c.handles[a := s.handles[b]][b := s.handles[a]];
      TwoTally(c, a, s.handles[a], b, s.handles[b], s, o);
      TwoTally(c, a, s.handles[b], b, s.handles[a], s2, o);
    }
  }

  lemma TwoTally(c: State, a: Handle, p: Pointer, b: Handle, q: Pointer, s: State, o: Obj)
    requires a !in c.handles && b !in c.handles && a != b && s.pcs == c.pcs
    requires s.handles == c.handles[a := p][b := q]
    ensures TallyOf(s, o) == PlusHandle(PlusHandle(TallyOf(c, o), o, p), o, q)
  {
    var c1 := c.(handles := c.handles[a := p]);
    HandleTally(c, a, p, c1, o);
    HandleTally(c1, b, q, s, o);
  }

  /** A pointer goes away; if it referred to something a thread has to release that. */
  lemma DestroyKeeps(s: State, t: Thread, h: Handle)
    requires Inv(s) && Enabled(s, Destroy(t, h))
    ensures Inv(Apply(s, Destroy(t, h)))
  {
    var s2 := Apply(s, Destroy(t, h));
    assert AllCounts(s2) by {
      forall o | o in s2.objs ensures CountsOk(s2, o) { DestroyCounts(s, t, h, o); }
    }
    HandleAt(s, h);
    if s.handles[h].ctrl == Null { OldPcs(s, s2); } else { StartedPcs(s, t, s2.pcs[t], s2); }
    OldHandles(s, s2);
    Together(s2);
  }

  lemma DestroyCounts(s: State, t: Thread, h: Handle, o: Obj)
    requires Inv(s) && Enabled(s, Destroy(t, h)) && o in s.objs
    ensures CountsOk(Apply(s, Destroy(t, h)), o)
  {
    var b := s.(handles := s.handles - {h});
    var p := s.handles[h];
    CountsAt(s, o);
    assert s.handles == b.handles[h := p];
    HandleTally(b, h, p, s, o);
    if p.ctrl.To? {
      ReleaseCounts(s, t, b, p, o);
    } else {
      assert Exact(b.objs[o], TallyOf(b, o));
    }
  }

  lemma ReleaseCounts(s: State, t: Thread, b: State, p: Pointer, o: Obj)
    requires t !in b.pcs && p.ctrl.To? && o in b.objs && b.objs == s.objs
    requires Exact(b.objs[o], PlusHandle(TallyOf(b, o), o, p))
    ensures CountsOk(WithPc(b, t, if p.Strong? then RemoveRef(p.ctrl.o) else RemoveWeakRef(p.ctrl.o)), o)
  {
    var pc := if p.Strong? then RemoveRef(p.ctrl.o) else RemoveWeakRef(p.ctrl.o);
    PcTally(b, t, pc, WithPc(b, t, pc), o);
    ExactDestroyed(b.objs[o], TallyOf(b, o));
    assert Exact(b.objs[o], PlusPc(TallyOf(b, o), o, pc));
  }

  /** The counts stay exact in every step the program or a thread can make. */
  lemma Keeps(s: State, step: Step)
    requires Inv(s) && Enabled(s, step)
    ensures Inv(Apply(s, step))
  {
    match step
    case New(dst, o) => NewKeeps(s, dst, o);
    case Empty(dst, strong) => MadeKeeps(s, dst, if strong then Strong(Null) else Weak(Null));
    case Copy(t, src, dst) =>
      if s.handles[src].ctrl == Null { MadeKeeps(s, dst, Strong(Null)); }
      else { HandleAt(s, src); BegunKeeps(s, t, AddRef(src, dst, s.handles[src].ctrl.o)); }
    case Weaken(t, src, dst) =>
      if s.handles[src].ctrl == Null { MadeKeeps(s, dst, Weak(Null)); }
      else { HandleAt(s, src); BegunKeeps(s, t, AddWeakRef(src, dst, s.handles[src].ctrl.o)); }
    case Lock(t, src, dst) =>
      if s.handles[src].ctrl == Null { MadeKeeps(s, dst, Strong(Null)); }
      else { HandleAt(s, src); BegunKeeps(s, t, LoadStrong(src, dst, s.handles[src].ctrl.o)); }
    case Move(src, dst) => MoveKeeps(s, src, dst);
    case Swap(a, b) => SwapKeeps(s, a, b);
    case Destroy(t, h) => DestroyKeeps(s, t, h);
    case Go(t, spurious) => AtomicKeeps(s, t, spurious);
  }

  // ----- what the counts are for -----

  /** When no thread is under way, the strong count is the number of shared pointers, and
      the weak count that of weak pointers and one more while there is a shared one. */
  lemma QuietCounts(s: State, o: Obj)
    requires Inv(s) && o in s.objs && s.pcs == map[]
    ensures s.objs[o].strong == |Handles(s, Strong(To(o)))|
    ensures s.objs[o].weak == |Handles(s, Weak(To(o)))| + if s.objs[o].strong > 0 then 1 else 0
    ensures s.objs[o].disposed <==> s.objs[o].strong == 0
  {
    CountsAt(s, o);
    assert forall pc :: At(s, pc) == {};
  }

  /** Once the strong count is zero it stays zero, and what is disposed of stays so. */
  lemma ZeroForGood(s: State, step: Step, o: Obj)
    requires Inv(s) && Enabled(s, step) && o in s.objs && s.objs[o].strong == 0
    ensures o in Apply(s, step).objs ==> Apply(s, step).objs[o].strong == 0
    ensures o in Apply(s, step).objs && s.objs[o].disposed ==> Apply(s, step).objs[o].disposed
  {
    if step.Go? {
      var pc := s.pcs[step.t];
      PcAt(s, step.t);
      if pc.AddRef? { SourceCounts(s, step.t); }
    }
  }

  /** Locking succeeds only while the strong count is positive and the object is whole. */
  lemma LockFromLiving(s: State, t: Thread, spurious: bool)
    requires Inv(s) && t in s.pcs && (s.pcs[t].LoadStrong? || s.pcs[t].CompareExchange?)
    requires var s2 := Atomic(s, t, spurious);
      s.pcs[t].dst in s2.handles && s2.handles[s.pcs[t].dst] == Strong(To(s.pcs[t].o))
    ensures s.objs[s.pcs[t].o].strong > 0 && !s.objs[s.pcs[t].o].disposed
    ensures Atomic(s, t, spurious).objs[s.pcs[t].o].strong == s.objs[s.pcs[t].o].strong + 1
  {
    PcAt(s, t);
    CountsAt(s, s.pcs[t].o);
  }

  /** Thread `t` is making pointer `dst` from weak pointer `src` to `o`. */
  ghost predicate Locking(s: State, t: Thread, src: Handle, dst: Handle, o: Obj) {
    && t in s.pcs && (s.pcs[t].LoadStrong? || s.pcs[t].CompareExchange?)
    && s.pcs[t].src == src && s.pcs[t].dst == dst && s.pcs[t].o == o
  }

  /** Locking fails exactly when the object has no owner left. It succeeds exactly when
      there is one and the count is the one seen before; otherwise it goes on with the
      count it saw. */
  lemma LockOutcome(s: State, t: Thread, spurious: bool, src: Handle, dst: Handle, o: Obj)
    requires Inv(s) && Locking(s, t, src, dst, o)
    ensures var s2, n := Atomic(s, t, spurious), s.objs[o].strong;
      var seen := s.pcs[t].CompareExchange? && s.pcs[t].count == n && !spurious;
      && (n == 0 <==> s2 == State(s.objs, s.handles[dst := Strong(Null)], s.pcs - {t}))
      && (n > 0 && seen <==>
          s2 == State(s.objs[o := s.objs[o].(strong := n + 1)], s.handles[dst := Strong(To(o))], s.pcs - {t}))
      && (n > 0 && !seen <==> s2 == s.(pcs := s.pcs[t := CompareExchange(src, dst, o, n)]))
  {
    PcAt(s, t);
    var s2, n := Atomic(s, t, spurious), s.objs[o].strong;
    assert Strong(Null) != Strong(To(o)) && dst in s.handles[dst := Strong(Null)];
    if n > 0 {
      assert t !in s.pcs - {t} && s2.handles != s.handles[dst := Strong(Null)];
    }
  }

  /** The pointer has been made, and refers to the object. */
  ghost predicate Locked(s: State, t: Thread, dst: Handle, o: Obj) {
    t !in s.pcs && dst in s.handles && s.handles[dst] == Strong(To(o))
  }

  lemma LockGoesOn(s: State, step: Step, t: Thread, src: Handle, dst: Handle, o: Obj)
    requires Inv(s) && Enabled(s, step) && Locking(s, t, src, dst, o)
    ensures s.objs[o].strong > 0 ==>
      Locking(Apply(s, step), t, src, dst, o) || Locked(Apply(s, step), t, dst, o)
  {
    if step.Go? && step.t == t { LockOutcome(s, t, step.spurious, src, dst, o); }
  }

  /** A copied pointer is the one it was copied from, a weakened or a locked one refers to
      the same object; no other pointer is touched. */
  lemma PointerMade(s: State, t: Thread)
    requires Inv(s) && t in s.pcs
    ensures var pc, s2 := s.pcs[t], Atomic(s, t, false);
      && (Target(pc).To? ==> pc.src in s.handles)
      && (pc.AddRef? ==> s2.handles == s.handles[pc.dst := s.handles[pc.src]])
      && (pc.AddWeakRef? ==> s2.handles == s.handles[pc.dst := Weak(s.handles[pc.src].ctrl)])
      && (pc.CompareExchange? && s.objs[pc.o].strong == pc.count ==>
          s2.handles == s.handles[pc.dst := Strong(s.handles[pc.src].ctrl)])
      && (Target(pc) == Null ==> s2.handles == s.handles)
  {
    PcAt(s, t);
  }

  /** The pointers a step may change. */
  predicate Touches(s: State, step: Step, h: Handle) {
    match step
    case Move(src, dst) => h == src || h == dst
    case Swap(a, b) => h == a || h == b
    case Destroy(_, d) => h == d
    case _ => false
  }

  /** A pointer refers to the same object until the program moves, swaps or destroys it. */
  lemma PointerStays(s: State, step: Step, h: Handle)
    requires Inv(s) && Enabled(s, step) && h in s.handles && !Touches(s, step, h)
    ensures h in Apply(s, step).handles && Apply(s, step).handles[h] == s.handles[h]
  {
    if step.Go? { PcAt(s, step.t); }
  }

  /** Moving, swapping and starting to copy, weaken, lock or destroy. */
  lemma OperationGives(s: State, step: Step)
    requires Inv(s) && Enabled(s, step) && !step.Go?
    ensures var s2 := Apply(s, step);
      match step
      case Move(src, dst) => s2.handles[dst] == s.handles[src] && s2.handles[src].ctrl == Null
        && (s2.handles[src].Strong? <==> s.handles[src].Strong?)
      case Swap(a, b) => s2.handles[a] == s.handles[b] && s2.handles[b] == s.handles[a]
      case Destroy(t, h) => h !in s2.handles && (t in s2.pcs <==> s.handles[h].ctrl.To?)
      case New(dst, o) => s2.handles[dst] == Strong(To(o)) && o in s2.objs
      case Empty(dst, strong) => s2.handles[dst].ctrl == Null && (s2.handles[dst].Strong? <==> strong)
      case Copy(t, src, dst) => if t in s2.pcs then s2.pcs[t].AddRef? && s2.pcs[t].dst == dst
        else s2.handles == s.handles[dst := s.handles[src]]
      case Weaken(t, src, dst) => if t in s2.pcs then s2.pcs[t].AddWeakRef? && s2.pcs[t].dst == dst
        else s2.handles == s.handles[dst := Weak(s.handles[src].ctrl)]
      case Lock(t, src, dst) => if t in s2.pcs then Locking(s2, t, src, dst, s.handles[src].ctrl.o)
        else s2.handles == s.handles[dst := Strong(s.handles[src].ctrl)]
  {
  }

  /** Without pointers and threads there are no objects left. */
  lemma NoLeak(s: State)
    requires Inv(s) && s.pcs == map[] && forall h :: h in s.handles ==> s.handles[h].ctrl == Null
    ensures s.objs == map[]
  {
    forall o ensures o !in s.objs {
      assert Handles(s, Strong(To(o))) == {} && Handles(s, Weak(To(o))) == {};
      assert forall pc :: At(s, pc) == {};
      if o in s.objs {
        CountsAt(s, o);
        assert false;
      }
    }
  }

  // ----- runs -----

  function Initial(): State { State(map[], map[], map[]) }

  lemma InitialOk()
    ensures Inv(Initial())
  {
    assert InvKeyed(Initial());
  }

  /** `states` are the states a run goes through that takes the steps `steps`. */
  ghost predicate Run(states: seq<State>, steps: seq<Step>) {
    && |states| == |steps| + 1
    && forall k :: Key(k) ==> RunKeyed(states, steps)
  }

  ghost predicate RunKeyed(states: seq<State>, steps: seq<Step>)
    requires |states| == |steps| + 1
  {
    states[0] == Initial() && forall i :: 0 <= i < |steps| ==> StepsTo(states[i], steps[i], states[i + 1])
  }

  ghost predicate StepsTo(s: State, step: Step, s2: State) {
    Enabled(s, step) && (step.Go? ==> Subject(s.pcs[step.t]) in s.objs) && s2 == Apply(s, step)
  }

  lemma StepAt(states: seq<State>, steps: seq<Step>, i: nat)
    requires Run(states, steps) && i < |steps|
    ensures StepsTo(states[i], steps[i], states[i + 1])
  {
    assert Key(0);
  }

  lemma {:induction false} RunKeeps(states: seq<State>, steps: seq<Step>, i: nat)
    requires Run(states, steps) && i < |states|
    ensures Inv(states[i])
  {
    if i == 0 {
      assert states[0] == Initial() by { assert Key(0); }
      InitialOk();
    } else {
      RunKeeps(states, steps, i - 1);
      StepAt(states, steps, i - 1);
      Keeps(states[i - 1], steps[i - 1]);
    }
  }

  ghost predicate Disposes(s: State, step: Step, o: Obj) {
    step.Go? && step.t in s.pcs && s.pcs[step.t] == CallDispose(o)
  }

  lemma RunStep(states: seq<State>, steps: seq<Step>, i: nat)
    requires Run(states, steps) && i < |steps|
    ensures Inv(states[i]) && Enabled(states[i], steps[i]) && states[i + 1] == Apply(states[i], steps[i])
  {
    RunKeeps(states, steps, i);
    StepAt(states, steps, i);
  }

  ghost predicate Gone(s: State, o: Obj) { o in s.objs && s.objs[o].disposed && s.objs[o].strong == 0 }

  lemma DisposedNow(s: State, step: Step, o: Obj)
    requires Inv(s) && Enabled(s, step) && Disposes(s, step, o)
    ensures Gone(Apply(s, step), o)
  {
    DisposeOnce(s, step.t);
  }

  lemma StaysGone(s: State, step: Step, o: Obj)
    requires Inv(s) && Enabled(s, step) && Gone(s, o) && o in Apply(s, step).objs
    ensures Gone(Apply(s, step), o)
  {
    ZeroForGood(s, step, o);
  }

  /** From the call of `Dispose` to the deletion the object is marked as disposed of. */
  lemma {:induction false} DisposedStays(states: seq<State>, steps: seq<Step>, i: nat, j: nat, o: Obj)
    requires Run(states, steps) && i < j < |states| && Disposes(states[i], steps[i], o)
    requires forall k :: i <= k <= j ==> o in states[k].objs
    ensures Gone(states[j], o)
    decreases j
  {
    RunStep(states, steps, j - 1);
    if j == i + 1 {
      DisposedNow(states[i], steps[i], o);
    } else {
      DisposedStays(states, steps, i, j - 1, o);
      StaysGone(states[j - 1], steps[j - 1], o);
    }
  }

  lemma NotGoneYet(s: State, step: Step, o: Obj)
    requires Inv(s) && Disposes(s, step, o)
    ensures !Gone(s, o)
  {
    DisposeOnce(s, step.t);
  }

  /** In no run is an object disposed of twice before it is deleted. */
  lemma DisposedOnce(states: seq<State>, steps: seq<Step>, i: nat, j: nat, o: Obj)
    requires Run(states, steps) && i < j < |steps|
    requires Disposes(states[i], steps[i], o) && Disposes(states[j], steps[j], o)
    ensures exists k :: i <= k <= j && o !in states[k].objs
  {
    if forall k :: i <= k <= j ==> o in states[k].objs {
      DisposedStays(states, steps, i, j, o);
      RunKeeps(states, steps, j);
      NotGoneYet(states[j], steps[j], o);
      assert false;
    }
  }

  /** A lock during which the object always has an owner makes the pointer, whatever the
      other threads do. */
  lemma {:induction false} LockWhileOwned(states: seq<State>, steps: seq<Step>, i: nat, j: nat, t: Thread,
                                          src: Handle, dst: Handle, o: Obj)
    requires Run(states, steps) && i <= j < |states| && Locking(states[i], t, src, dst, o)
    requires forall k :: i <= k < j ==> o in states[k].objs && states[k].objs[o].strong > 0
    ensures (forall k :: i <= k <= j ==> Locking(states[k], t, src, dst, o))
      || exists m :: i < m <= j && Locked(states[m], t, dst, o)
           && forall k :: i <= k < m ==> Locking(states[k], t, src, dst, o)
    decreases j
  {
    if i < j {
      LockWhileOwned(states, steps, i, j - 1, t, src, dst, o);
      if Locking(states[j - 1], t, src, dst, o) {
        RunStep(states, steps, j - 1);
        LockGoesOn(states[j - 1], steps[j - 1], t, src, dst, o);
      }
    }
  }

  // ----- the memory the threads share -----

  class Memory {
    var objs: map<Obj, Counts>
    var handles: map<Handle, Pointer>
    var pcs: map<Thread, Pc>

    ghost function Now(): State
      reads this
    {
      State(objs, handles, pcs)
    }

    constructor ()
      ensures Now() == Initial() && Inv(Now())
    {
      objs, handles, pcs := map[], map[], map[];
      new;
      InitialOk();
    }

    method FetchAddStrong(o: Obj)
      requires o in objs
      modifies this`objs
      ensures objs == old(objs)[o := old(objs)[o].(strong := old(objs)[o].strong + 1)]
    {
      objs := objs[o := objs[o].(strong := objs[o].strong + 1)];
    }

    method FetchAddWeak(o: Obj)
      requires o in objs
      modifies this`objs
      ensures objs == old(objs)[o := old(objs)[o].(weak := old(objs)[o].weak + 1)]
    {
      objs := objs[o := objs[o].(weak := objs[o].weak + 1)];
    }

    /** Returns the count before. */
    method FetchSubStrong(o: Obj) returns (before: nat)
      requires o in objs && objs[o].strong > 0
      modifies this`objs
      ensures before == old(objs)[o].strong
      ensures objs == old(objs)[o := old(objs)[o].(strong := before - 1)]
    {
      before := objs[o].strong;
      objs := objs[o := objs[o].(strong := before - 1)];
    }

    method FetchSubWeak(o: Obj) returns (before: nat)
      requires o in objs && objs[o].weak > 0
      modifies this`objs
      ensures before == old(objs)[o].weak
      ensures objs == old(objs)[o := old(objs)[o].(weak := before - 1)]
    {
      before := objs[o].weak;
      objs := objs[o := objs[o].(weak := before - 1)];
    }

    /** The thread goes on to try to lock, or finds that it cannot. */
    method GoOnLocking(t: Thread, count: nat)
      requires t in pcs && Target(pcs[t]).To?
      modifies this`handles, this`pcs
      ensures Now() == Looked(old(Now()), t, old(pcs)[t], count)
    {
      var pc := pcs[t];
      if count == 0 {
        handles := handles[pc.dst := Strong(Null)];
        pcs := pcs - {t};
      } else {
        pcs := pcs[t := CompareExchange(pc.src, pc.dst, pc.o, count)];
      }
    }

    method CopyingStep(t: Thread)
      requires Inv(Now()) && t in pcs && (pcs[t].AddRef? || pcs[t].AddWeakRef?)
      modifies this
      ensures Now() == Atomic(old(Now()), t, false)
    {
      var pc := pcs[t];
      if pc.AddRef? {
        FetchAddStrong(pc.o);
        handles := handles[pc.dst := Strong(To(pc.o))];
      } else {
        FetchAddWeak(pc.o);
        handles := handles[pc.dst := Weak(To(pc.o))];
      }
      pcs := pcs - {t};
    }

    method LockingStep(t: Thread, spurious: bool)
      requires Inv(Now()) && t in pcs && (pcs[t].LoadStrong? || pcs[t].CompareExchange?)
      modifies this
      ensures Now() == Atomic(old(Now()), t, spurious)
    {
      var pc := pcs[t];
      if pc.CompareExchange? && objs[pc.o].strong == pc.count && !spurious {
        objs := objs[pc.o := objs[pc.o].(strong := pc.count + 1)];
        handles := handles[pc.dst := Strong(To(pc.o))];
        pcs := pcs - {t};
      } else {
        GoOnLocking(t, objs[pc.o].strong);
      }
    }

    method ReleasingStep(t: Thread)
      requires Inv(Now()) && t in pcs && !Target(pcs[t]).To?
      modifies this
      ensures Now() == Atomic(old(Now()), t, false)
    {
      var o := pcs[t].o;
      match pcs[t]
      case RemoveRef(_) =>
        RemoveRefCounts(Now(), t, o);
        var before := FetchSubStrong(o);
        pcs := if before == 1 then pcs[t := CallDispose(o)] else pcs - {t};
      case CallDispose(_) =>
        objs := objs[o := objs[o].(disposed := true)];
        pcs := pcs[t := InDispose(o)];
      case InDispose(_) =>
        pcs := pcs[t := RemoveWeakRef(o)];
      case RemoveWeakRef(_) =>
        RemoveWeakRefCounts(Now(), t, o);
        var before := FetchSubWeak(o);
        pcs := if before == 1 then pcs[t := Delete(o)] else pcs - {t};
      case Delete(_) =>
        objs := objs - {o};
        pcs := pcs - {t};
    }

    /** A pointer operation of the program up to its first atomic step. */
    method PointerStep(step: Step)
      requires Inv(Now()) && Enabled(Now(), step) && !step.Go?
      modifies this
      ensures Now() == Apply(old(Now()), step)
    {
      match step
      case New(dst, o) =>
        objs := objs[o := Counts(1, 1, false)];
        handles := handles[dst := Strong(To(o))];
      case Empty(dst, strong) => handles := handles[dst := if strong then Strong(Null) else Weak(Null)];
      case Copy(t, src, dst) => Start(t, src, dst, step);
      case Weaken(t, src, dst) => Start(t, src, dst, step);
      case Lock(t, src, dst) => Start(t, src, dst, step);
      case Move(src, dst) =>
        handles := handles[dst := handles[src]];
        handles := handles[src := Empties(handles[src])];
      case Swap(a, b) =>
        var p := handles[a];
        handles := handles[a := handles[b]];
        handles := handles[b := p];
      case Destroy(t, h) =>
        var p := handles[h];
        handles := handles - {h};
        if p.ctrl.To? {
          pcs := pcs[t := if p.Strong? then RemoveRef(p.ctrl.o) else RemoveWeakRef(p.ctrl.o)];
        }
    }

    method Start(t: Thread, src: Handle, dst: Handle, step: Step)
      requires src in handles && (step.Copy? || step.Weaken? || step.Lock?) && Enabled(Now(), step)
      requires step.t == t && step.src == src && step.dst == dst
      modifies this`handles, this`pcs
      ensures Now() == Apply(old(Now()), step)
    {
      match handles[src].ctrl
      case Null => handles := handles[dst := if step.Weaken? then Weak(Null) else Strong(Null)];
      case To(o) =>
        pcs := pcs[t := if step.Copy? then AddRef(src, dst, o) else
                        if step.Weaken? then AddWeakRef(src, dst, o) else LoadStrong(src, dst, o)];
    }

    method Perform(step: Step)
      requires Inv(Now()) && Enabled(Now(), step)
      modifies this
      ensures Inv(Now()) && Now() == Apply(old(Now()), step)
    {
      Keeps(Now(), step);
      match step
      case Go(t, spurious) =>
        if pcs[t].AddRef? || pcs[t].AddWeakRef? { CopyingStep(t); }
        else if pcs[t].LoadStrong? || pcs[t].CompareExchange? { LockingStep(t, spurious); }
        else { ReleasingStep(t); }
      case _ => PointerStep(step);
    }

    /** However the threads are scheduled, the counts are exact. */
    method Schedule(steps: seq<Step>)
      requires Inv(Now())
      modifies this
      ensures Inv(Now())
    {
      for i := 0 to |steps|
        invariant Inv(Now())
      {
        var s := State(objs, handles, pcs);
        if Enabled(s, steps[i]) {
          Perform(steps[i]);
        }
      }
    }
  }
}
