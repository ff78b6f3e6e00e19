/** The object graph the garbage collector works on: objects, colours and the
    sets of references that must stay inside a set of objects. */
module GcHeap {
  type Obj = nat      // the address of a collectable object
  type UpVal = nat    // the address of an upvalue; not collectable by itself

  /** `DeadKey` is the key of an empty table entry whose object may be gone. */
  datatype Value = Nil | DeadKey | Plain(n: int) | Ref(o: Obj)

  datatype Kind = Str | Udata | Table | LClosure | CClosure | Proto | Thread

  datatype Mode = Strong | WeakValues | Ephemeron | AllWeak

  datatype Node = Node(key: Value, val: Value)

  /** One collectable object; the fields its kind does not have are empty.
      `slots` is the user value of a userdata, the array part of a table, the
      prototype of a Lua closure, the upvalues of a C closure, the constants, names
      and nested functions of a prototype, and the stack of a thread. `mode` and
      `hasGc` say what a table's fields `__mode` and `__gc` hold, for the objects
      that have it as their metatable. */
  datatype Object = Object(
    kind: Kind,
    meta: Value,          // metatable of a table or userdata
    slots: seq<Value>,
    nodes: seq<Node>,     // hash part of a table
    ups: seq<UpVal>,      // upvalues of a Lua closure; an unknown one is NULL
    cache: Value,         // last closure made from a prototype
    mode: Mode,
    hasGc: bool)

  /** All upvalues are closed: they hold their value. */
  datatype Heap = Heap(objs: map<Obj, Object>, ups: map<UpVal, Value>)

  datatype Color = White(bit: bool) | Gray | Black

  predicate Leaf(k: Kind) { k == Str || k == Udata }

  predicate Shaped(r: Object) {
    && (r.meta.Nil? || (r.meta.Ref? && (r.kind == Table || r.kind == Udata)))
    && (r.kind == Str ==> r.slots == [])
    && ((r.kind == Udata || r.kind == LClosure) ==> |r.slots| == 1)
    && (r.kind != Table ==> r.nodes == [])
    && (r.kind != LClosure ==> r.ups == [])
    && (r.kind != Proto ==> r.cache == Nil)
    && (r.cache.Nil? || r.cache.Ref?)
  }

  function Up(h: Heap, u: UpVal): Value {
    if u in h.ups then h.ups[u] else Nil
  }

  function ModeOf(h: Heap, v: Value): Mode {
    if v.Ref? && v.o in h.objs then h.objs[v.o].mode else Strong
  }

  /** How table `o` holds its entries. */
  function TableMode(h: Heap, o: Obj): Mode
    requires o in h.objs
  {
    ModeOf(h, h.objs[o].meta)
  }

  predicate IsStr(h: Heap, v: Value) {
    v.Ref? && v.o in h.objs && h.objs[v.o].kind == Str
  }

  // ----- sets of objects -----

  ghost predicate In(S: iset<Obj>, v: Value) { v.Ref? ==> v.o in S }

  ghost predicate SlotsIn(S: iset<Obj>, s: seq<Value>) {
    forall i :: 0 <= i < |s| ==> In(S, s[i])
  }

  ghost predicate KeysIn(S: iset<Obj>, n: seq<Node>) {
    forall i :: 0 <= i < |n| ==> In(S, n[i].key)
  }

  ghost predicate ValsIn(S: iset<Obj>, n: seq<Node>) {
    forall i :: 0 <= i < |n| ==> In(S, n[i].val)
  }

  ghost predicate UpsIn(h: Heap, S: iset<Obj>, us: seq<UpVal>) {
    forall i :: 0 <= i < |us| ==> In(S, Up(h, us[i]))
  }

  /** Every reference of record `r`, strong or weak, leads into `S`. */
  ghost predicate RecordIn(h: Heap, S: iset<Obj>, r: Object) {
    In(S, r.meta) && In(S, r.cache) && UpsIn(h, S, r.ups)
    && SlotsIn(S, r.slots) && KeysIn(S, r.nodes) && ValsIn(S, r.nodes)
  }

  ghost predicate RefsIn(h: Heap, S: iset<Obj>, o: Obj)
    requires o in h.objs
  {
    RecordIn(h, S, h.objs[o])
  }

  ghost function Allocated(c: map<Obj, Color>): iset<Obj> { iset o | o in c }

  ghost function Marked(c: map<Obj, Color>): iset<Obj> { iset o | o in c && !c[o].White? }

  /** Objects were marked, or changed from one mark to another. */
  ghost predicate OnlyMarks(c: map<Obj, Color>, c2: map<Obj, Color>) {
    c2.Keys == c.Keys && forall o :: o in c ==> c2[o] == c[o] || !c2[o].White?
  }

  function Whites(c: map<Obj, Color>): set<Obj> { set o | o in c && c[o].White? }

  /** Not of the white that the sweep frees. */
  ghost function Live(c: map<Obj, Color>, white: bool): iset<Obj> {
    iset o | o in c && c[o] != White(!white)
  }

  // ----- what a closed set of objects contains -----

  /** Strings count as plain values in a weak place when `strs` holds. */
  ghost predicate WeakIn(h: Heap, S: iset<Obj>, v: Value, strs: bool) {
    strs && IsStr(h, v) ==> v.o in S
  }

  ghost predicate EntryIn(h: Heap, S: iset<Obj>, m: Mode, n: Node, strs: bool) {
    n.val != Nil ==>
      match m
      case Strong => In(S, n.key) && In(S, n.val)
      case WeakValues => In(S, n.key) && WeakIn(h, S, n.val, strs)
      case Ephemeron => WeakIn(h, S, n.key, strs) && (In(S, n.key) ==> In(S, n.val))
      case AllWeak => WeakIn(h, S, n.key, strs) && WeakIn(h, S, n.val, strs)
  }

  /** What `o` keeps alive when it is itself in `S`: its strong references, and
      the value of an ephemeron entry whose key is in `S`. */
  ghost predicate StrongIn(h: Heap, S: iset<Obj>, o: Obj, strs: bool)
    requires o in h.objs
  {
    var r := h.objs[o];
    var m := TableMode(h, o);
    && In(S, r.meta) && UpsIn(h, S, r.ups)
    && (if r.kind != Table then SlotsIn(S, r.slots)
        else
          && (m == Strong || m == Ephemeron ==> SlotsIn(S, r.slots))
          && (m == WeakValues || m == AllWeak ==>
                forall i :: 0 <= i < |r.slots| ==> WeakIn(h, S, r.slots[i], strs))
          && (forall i :: 0 <= i < |r.nodes| ==> EntryIn(h, S, m, r.nodes[i], strs)))
  }

  ghost predicate Closed(h: Heap, S: iset<Obj>, strs: bool) {
    forall o :: o in h.objs && o in S ==> StrongIn(h, S, o, strs)
  }

  /** What an all-weak table keeps alive whatever its metatable: strings only. */
  ghost predicate StringsIn(h: Heap, S: iset<Obj>, o: Obj)
    requires o in h.objs
  {
    var r := h.objs[o];
    && (forall i :: 0 <= i < |r.slots| ==> WeakIn(h, S, r.slots[i], true))
    && (forall i :: 0 <= i < |r.nodes| ==> EntryIn(h, S, AllWeak, r.nodes[i], true))
  }

  /** `Closed`, except that a table in `stale` counts as all-weak and without a metatable,
      and that the references of the objects in `blind` do not count. */
  ghost predicate ClosedBut(h: Heap, stale: set<Obj>, blind: map<Obj, Object>, S: iset<Obj>) {
    forall o :: o in h.objs && o in S && o !in blind ==>
      if o in stale then StringsIn(h, S, o) else StrongIn(h, S, o, true)
  }

  // ----- what the collector may remove from the graph -----

  ghost predicate NodeTrimmed(n: Node, n2: Node) {
    n2 == n || (n2.val == Nil && (n2.key == n.key || n2.key == DeadKey))
  }

  ghost predicate RecordTrimmed(r: Object, r2: Object) {
    && r2.kind == r.kind && r2.meta == r.meta && r2.ups == r.ups
    && r2.mode == r.mode && r2.hasGc == r.hasGc
    && (r2.cache == r.cache || r2.cache == Nil)
    && |r2.slots| == |r.slots|
    && (r2.slots == r.slots || r.kind == Table)
    && (forall i :: 0 <= i < |r.slots| ==> r2.slots[i] == r.slots[i] || r2.slots[i] == Nil)
    && |r2.nodes| == |r.nodes|
    && (forall i :: 0 <= i < |r.nodes| ==> NodeTrimmed(r.nodes[i], r2.nodes[i]))
  }

  /** Only table entries, array slots and prototype caches have been emptied. */
  ghost predicate Trimmed(h: Heap, h2: Heap) {
    && h2.ups == h.ups
    && h2.objs.Keys == h.objs.Keys
    && forall o :: o in h.objs ==> RecordTrimmed(h.objs[o], h2.objs[o])
  }

  /** Nothing but empty entries and prototype caches was touched. */
  ghost predicate Tidied(h: Heap, h2: Heap) {
    && Trimmed(h, h2)
    && forall o :: o in h.objs ==> TidyRecord(h.objs[o], h2.objs[o])
  }

  ghost predicate TidyRecord(r: Object, r2: Object) {
    && r2.slots == r.slots && |r2.nodes| == |r.nodes|
    && forall i :: 0 <= i < |r.nodes| ==> r.nodes[i].val == Nil || r2.nodes[i] == r.nodes[i]
  }

  /** `v` is an object outside `M` that a weak table may drop. */
  ghost predicate Droppable(h: Heap, M: iset<Obj>, v: Value) {
    v.Ref? && !IsStr(h, v) && v.o !in M
  }

  /** Only entries with a droppable key or value were emptied. */
  ghost predicate Cleaned(h: Heap, h2: Heap, M: iset<Obj>) {
    && Trimmed(h, h2)
    && forall o :: o in h.objs ==> CleanRecord(h, h.objs[o], h2.objs[o], M)
  }

  ghost predicate CleanRecord(h: Heap, r: Object, r2: Object, M: iset<Obj>) {
    && |r2.slots| == |r.slots| && |r2.nodes| == |r.nodes|
    && (forall i :: 0 <= i < |r.slots| ==> r2.slots[i] == r.slots[i] || Droppable(h, M, r.slots[i]))
    && (forall i :: 0 <= i < |r.nodes| ==> CleanNode(h, r.nodes[i], r2.nodes[i], M))
  }

  ghost predicate CleanNode(h: Heap, n: Node, n2: Node, M: iset<Obj>) {
    n.val == Nil || n2 == n || Droppable(h, M, n.key) || Droppable(h, M, n.val)
  }

  lemma TidiedTransitive(h: Heap, h1: Heap, h2: Heap)
    requires Tidied(h, h1) && Tidied(h1, h2)
    ensures Tidied(h, h2)
  {
    TrimmedTransitive(h, h1, h2);
    forall o | o in h.objs ensures TidyRecord(h.objs[o], h2.objs[o]) {
      assert TidyRecord(h.objs[o], h1.objs[o]) && TidyRecord(h1.objs[o], h2.objs[o]);
    }
  }

  lemma TidiedCleaned(h: Heap, h2: Heap, M: iset<Obj>)
    requires Tidied(h, h2)
    ensures Cleaned(h, h2, M)
  {
    forall o | o in h.objs ensures CleanRecord(h, h.objs[o], h2.objs[o], M) {
      assert TidyRecord(h.objs[o], h2.objs[o]);
    }
  }

  lemma CleanedTransitive(h: Heap, h1: Heap, h2: Heap, M: iset<Obj>, M1: iset<Obj>)
    requires Cleaned(h, h1, M) && Cleaned(h1, h2, M1) && M <= M1
    ensures Cleaned(h, h2, M)
  {
    TrimmedTransitive(h, h1, h2);
    forall o | o in h.objs ensures CleanRecord(h, h.objs[o], h2.objs[o], M) {
      CleanRecordTransitive(h, h1, h.objs[o], h1.objs[o], h2.objs[o], M, M1);
    }
  }

  lemma CleanRecordTransitive(h: Heap, h1: Heap, r: Object, r1: Object, r2: Object,
                              M: iset<Obj>, M1: iset<Obj>)
    requires Trimmed(h, h1) && M <= M1
    requires CleanRecord(h, r, r1, M) && CleanRecord(h1, r1, r2, M1)
    ensures CleanRecord(h, r, r2, M)
  {
    forall i | 0 <= i < |r.slots| ensures r2.slots[i] == r.slots[i] || Droppable(h, M, r.slots[i]) {
      SameStr(h, h1, r1.slots[i]);
    }
    forall i | 0 <= i < |r.nodes| ensures CleanNode(h, r.nodes[i], r2.nodes[i], M) {
      assert CleanNode(h, r.nodes[i], r1.nodes[i], M) && CleanNode(h1, r1.nodes[i], r2.nodes[i], M1);
      SameStr(h, h1, r1.nodes[i].key);
      SameStr(h, h1, r1.nodes[i].val);
    }
  }

  lemma TrimmedTransitive(h: Heap, h1: Heap, h2: Heap)
    requires Trimmed(h, h1) && Trimmed(h1, h2)
    ensures Trimmed(h, h2)
  {
    forall o | o in h.objs ensures RecordTrimmed(h.objs[o], h2.objs[o]) {
      assert RecordTrimmed(h.objs[o], h1.objs[o]) && RecordTrimmed(h1.objs[o], h2.objs[o]);
      forall i | 0 <= i < |h.objs[o].nodes|
        ensures NodeTrimmed(h.objs[o].nodes[i], h2.objs[o].nodes[i])
      {
        assert NodeTrimmed(h.objs[o].nodes[i], h1.objs[o].nodes[i]);
        assert NodeTrimmed(h1.objs[o].nodes[i], h2.objs[o].nodes[i]);
      }
    }
  }

  lemma RecordGrows(h: Heap, S: iset<Obj>, T: iset<Obj>, r: Object)
    requires RecordIn(h, S, r) && S <= T
    ensures RecordIn(h, T, r)
  {
    forall i | 0 <= i < |r.ups| ensures In(T, Up(h, r.ups[i])) { assert In(S, Up(h, r.ups[i])); }
    forall i | 0 <= i < |r.slots| ensures In(T, r.slots[i]) { assert In(S, r.slots[i]); }
    forall i | 0 <= i < |r.nodes| ensures In(T, r.nodes[i].key) && In(T, r.nodes[i].val) {
      assert In(S, r.nodes[i].key) && In(S, r.nodes[i].val);
    }
  }

  lemma TrimmedParts(h: Heap, h2: Heap, S: iset<Obj>, o: Obj)
    requires Trimmed(h, h2) && o in h.objs
    ensures Shaped(h.objs[o]) ==> Shaped(h2.objs[o])
    ensures TableMode(h2, o) == TableMode(h, o)
    ensures UpsIn(h, S, h.objs[o].ups) ==> UpsIn(h2, S, h2.objs[o].ups)
    ensures In(S, h.objs[o].cache) ==> In(S, h2.objs[o].cache)
    ensures SlotsIn(S, h.objs[o].slots) ==> SlotsIn(S, h2.objs[o].slots)
    ensures KeysIn(S, h.objs[o].nodes) ==> KeysIn(S, h2.objs[o].nodes)
    ensures ValsIn(S, h.objs[o].nodes) ==> ValsIn(S, h2.objs[o].nodes)
  {
    var r, r2 := h.objs[o], h2.objs[o];
    assert RecordTrimmed(r, r2);
    if r.meta.Ref? && r.meta.o in h.objs {
      assert RecordTrimmed(h.objs[r.meta.o], h2.objs[r.meta.o]);
    }
    if UpsIn(h, S, r.ups) {
      forall i | 0 <= i < |r2.ups| ensures In(S, Up(h2, r2.ups[i])) {
        assert In(S, Up(h, r.ups[i]));
      }
    }
    if SlotsIn(S, r.slots) {
      forall i | 0 <= i < |r2.slots| ensures In(S, r2.slots[i]) { assert In(S, r.slots[i]); }
    }
    if KeysIn(S, r.nodes) {
      forall i | 0 <= i < |r2.nodes| ensures In(S, r2.nodes[i].key) {
        assert In(S, r.nodes[i].key) && NodeTrimmed(r.nodes[i], r2.nodes[i]);
      }
    }
    if ValsIn(S, r.nodes) {
      forall i | 0 <= i < |r2.nodes| ensures In(S, r2.nodes[i].val) {
        assert In(S, r.nodes[i].val) && NodeTrimmed(r.nodes[i], r2.nodes[i]);
      }
    }
  }

  lemma StrongTrimmed(h: Heap, h2: Heap, S: iset<Obj>, o: Obj, strs: bool)
    requires Trimmed(h, h2) && o in h.objs && StrongIn(h, S, o, strs)
    ensures StrongIn(h2, S, o, strs)
  {
    TrimmedParts(h, h2, S, o);
    var r, r2 := h.objs[o], h2.objs[o];
    var m := TableMode(h, o);
    assert RecordTrimmed(r, r2);
    forall i | r.kind == Table && 0 <= i < |r2.nodes|
      ensures EntryIn(h2, S, m, r2.nodes[i], strs)
    {
      EntryTrimmed(h, h2, S, m, r.nodes[i], r2.nodes[i], strs);
    }
    forall i | 0 <= i < |r2.slots| && r.kind == Table && (m == WeakValues || m == AllWeak)
      ensures WeakIn(h2, S, r2.slots[i], strs)
    {
      assert WeakIn(h, S, r.slots[i], strs);
      SameStr(h, h2, r.slots[i]);
    }
  }

  lemma EntryTrimmed(h: Heap, h2: Heap, S: iset<Obj>, m: Mode, n: Node, n2: Node, strs: bool)
    requires Trimmed(h, h2) && EntryIn(h, S, m, n, strs) && NodeTrimmed(n, n2)
    ensures EntryIn(h2, S, m, n2, strs)
  {
    SameStr(h, h2, n.key);
    SameStr(h, h2, n.val);
  }

  lemma StringsTrimmed(h: Heap, h2: Heap, S: iset<Obj>, o: Obj)
    requires Trimmed(h, h2) && o in h.objs && StringsIn(h, S, o)
    ensures StringsIn(h2, S, o)
  {
    var r, r2 := h.objs[o], h2.objs[o];
    assert RecordTrimmed(r, r2);
    forall i | 0 <= i < |r2.nodes| ensures EntryIn(h2, S, AllWeak, r2.nodes[i], true) {
      EntryTrimmed(h, h2, S, AllWeak, r.nodes[i], r2.nodes[i], true);
    }
    forall i | 0 <= i < |r2.slots| ensures WeakIn(h2, S, r2.slots[i], true) {
      assert WeakIn(h, S, r.slots[i], true);
      SameStr(h, h2, r.slots[i]);
    }
  }

  /** Emptying entries leaves a closed set closed. */
  lemma ClosedTrimmed(h: Heap, h2: Heap, stale: set<Obj>, blind: map<Obj, Object>, S: iset<Obj>)
    requires Trimmed(h, h2) && ClosedBut(h, stale, blind, S)
    ensures ClosedBut(h2, stale, blind, S)
  {
    forall o | o in h2.objs && o in S && o !in blind
      ensures if o in stale then StringsIn(h2, S, o) else StrongIn(h2, S, o, true)
    {
      if o in stale { StringsTrimmed(h, h2, S, o); } else { StrongTrimmed(h, h2, S, o, true); }
    }
  }

  lemma SameStr(h: Heap, h2: Heap, v: Value)
    requires Trimmed(h, h2)
    ensures IsStr(h2, v) == IsStr(h, v)
  {
    if v.Ref? && v.o in h.objs { assert RecordTrimmed(h.objs[v.o], h2.objs[v.o]); }
  }

  lemma CleanedFewer(h: Heap, h2: Heap, M: iset<Obj>, R: iset<Obj>)
    requires Cleaned(h, h2, M) && R <= M
    ensures Cleaned(h, h2, R)
  {
    forall o | o in h.objs ensures CleanRecord(h, h.objs[o], h2.objs[o], R) {
      assert CleanRecord(h, h.objs[o], h2.objs[o], M);
      forall i | 0 <= i < |h.objs[o].nodes|
        ensures CleanNode(h, h.objs[o].nodes[i], h2.objs[o].nodes[i], R)
      {
        assert CleanNode(h, h.objs[o].nodes[i], h2.objs[o].nodes[i], M);
      }
    }
  }
}
