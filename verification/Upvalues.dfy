/** Open and closed upvalues: how closures share the variables of a stack frame, and keep
    them when the frame is gone. */
module Upvalues {
  import opened Prelude

  type UpVal = nat      // the address of an upvalue
  type Closure = nat    // closures are numbered in the order they were made
  type Value = int      // zero is nil

  /** Where the value of an upvalue lives. */
  datatype Place = Open(level: nat) | Closed(value: Value)

  /** `refcount` is the number of times closures refer to the upvalue. */
  datatype Cell = Cell(refcount: nat, place: Place)

  /** `closures[c]` are the upvalues of closure `c` that are not NULL; one that has been
      freed has none. Addresses from `next` on are free. */
  datatype State = State(stack: seq<Value>, openupval: seq<UpVal>, cells: map<UpVal, Cell>, next: UpVal,
                         closures: seq<seq<UpVal>>)

  ghost predicate IsOpen(s: State, u: UpVal) {
    u in s.cells && s.cells[u].place.Open?
  }

  function LevelOf(s: State, u: UpVal): nat {
    if u in s.cells && s.cells[u].place.Open? then s.cells[u].place.level else 0
  }

  /** The list of open upvalues goes down the stack, with at most one for each level. */
  ghost predicate Descending(s: State) {
    forall i, j :: 0 <= i < j < |s.openupval| ==> LevelOf(s, s.openupval[i]) > LevelOf(s, s.openupval[j])
  }

  ghost predicate Valid(s: State) {
    && (forall i :: 0 <= i < |s.openupval| ==>
          IsOpen(s, s.openupval[i]) && LevelOf(s, s.openupval[i]) < |s.stack|)
    && (forall u :: IsOpen(s, u) ==> u in s.openupval)
    && (forall u :: u in s.cells ==> u < s.next)
    && Descending(s)
  }

  /** The value of an upvalue. */
  function Read(s: State, u: UpVal): Value {
    if u !in s.cells then 0
    else match s.cells[u].place
      case Open(level) => if level < |s.stack| then s.stack[level] else 0
      case Closed(v) => v
  }

  lemma OnePerLevel(s: State, u: UpVal, v: UpVal)
    requires Valid(s) && IsOpen(s, u) && IsOpen(s, v) && LevelOf(s, u) == LevelOf(s, v)
    ensures u == v
  {
    var i :| 0 <= i < |s.openupval| && s.openupval[i] == u;
    var j :| 0 <= j < |s.openupval| && s.openupval[j] == v;
  }

  /** An upvalue is one variable: assigning to it changes what it holds, and what no other
      upvalue holds. */
  ghost function Written(s: State, u: UpVal, v: Value): State
    requires Valid(s) && u in s.cells
  {
    match s.cells[u].place
    case Open(level) => s.(stack := if level < |s.stack| then s.stack[level := v] else s.stack)
    case Closed(_) => s.(cells := s.cells[u := s.cells[u].(place := Closed(v))])
  }

  lemma OneVariable(s: State, u: UpVal, v: Value, w: UpVal)
    requires Valid(s) && u in s.cells && w in s.cells
    ensures Valid(Written(s, u, v))
    ensures Read(Written(s, u, v), w) == if w == u then v else Read(s, w)
  {
    if IsOpen(s, u) { assert u in s.openupval; }
    if IsOpen(s, u) && IsOpen(s, w) && LevelOf(s, u) == LevelOf(s, w) { OnePerLevel(s, u, w); }
  }

  // ----- reference counts -----

  /** How often the closures refer to each upvalue. */
  function Uses(cs: seq<seq<UpVal>>): multiset<UpVal> {
    if cs == [] then multiset{} else multiset(cs[0]) + Uses(cs[1..])
  }

  lemma {:induction false} UsesApart(a: seq<seq<UpVal>>, b: seq<seq<UpVal>>)
    ensures Uses(a + b) == Uses(a) + Uses(b)
  {
    if a == [] {
      assert a + b == b;
    } else {
      assert (a + b)[0] == a[0] && (a + b)[1..] == a[1..] + b;
      UsesApart(a[1..], b);
    }
  }

  lemma UsesMiddle(a: seq<seq<UpVal>>, us: seq<UpVal>, b: seq<seq<UpVal>>)
    ensures Uses(a + ([us] + b)) == Uses(a) + multiset(us) + Uses(b)
  {
    UsesApart(a, [us] + b);
    assert ([us] + b)[1..] == b;
  }

  /** Giving closure `c` other upvalues. */
  lemma UsesSet(cs: seq<seq<UpVal>>, c: Closure, us: seq<UpVal>)
    requires c < |cs|
    ensures Uses(cs[c := us]) + multiset(cs[c]) == Uses(cs) + multiset(us)
  {
    UsesMiddle(cs[..c], cs[c], cs[c + 1..]);
    UsesMiddle(cs[..c], us, cs[c + 1..]);
    CutAt(cs, c);
    CutAt(cs[c := us], c);
    assert cs[c := us][..c] == cs[..c] && cs[c := us][c + 1..] == cs[c + 1..];
  }

  lemma CutAt(cs: seq<seq<UpVal>>, c: Closure)
    requires c < |cs|
    ensures cs == cs[..c] + ([cs[c]] + cs[c + 1..])
  {
  }

  lemma UsedHere(cs: seq<seq<UpVal>>, c: Closure, i: nat)
    requires c < |cs| && i < |cs[c]|
    ensures cs[c][i] in Uses(cs)
  {
    UsesMiddle(cs[..c], cs[c], cs[c + 1..]);
    CutAt(cs, c);
    assert cs[c][i] in multiset(cs[c]);
  }

  /** The counts are right, and a closed upvalue that nothing refers to is gone. */
  ghost predicate Counted(cells: map<UpVal, Cell>, uses: multiset<UpVal>) {
    && (forall u :: uses[u] == if u in cells then cells[u].refcount else 0)
    && (forall u :: u in cells && cells[u].place.Closed? ==> cells[u].refcount > 0)
  }

  lemma UsedThere(cells: map<UpVal, Cell>, cs: seq<seq<UpVal>>, more: multiset<UpVal>)
    requires Counted(cells, Uses(cs) + more)
    ensures forall c, i :: 0 <= c < |cs| && 0 <= i < |cs[c]| ==> cs[c][i] in cells
  {
    forall c, i | 0 <= c < |cs| && 0 <= i < |cs[c]| ensures cs[c][i] in cells {
      UsedHere(cs, c, i);
    }
  }

  // ----- what closures are for: variables with a scope -----

  type Var = nat

  /** The meaning of it all: a stack of variables, each a new one, and closures that hold
      variables for as long as they like. */
  datatype Scope = Scope(frame: seq<Var>, store: map<Var, Value>, closures: seq<seq<Var>>, next: Var)

  /** What upvalue a new closure takes: a variable of the stack, or one of the closure that
      is running. */
  datatype Desc = InStack(level: nat) | OfOuter(i: nat)

  datatype Action =
    | Push(v: Value) | SetLocal(level: nat, v: Value) | Leave(level: nat)
    | Make(outer: Closure, descs: seq<Desc>) | Fill(n: nat)
    | Set(c: Closure, i: nat, v: Value) | Free(c: Closure)
    | Join(c: Closure, i: nat, from: Closure, j: nat)

  predicate Known(levels: nat, outer: nat, d: Desc) {
    match d
    case InStack(level) => level < levels
    case OfOuter(i) => i < outer
  }

  function Width(cs: seq<seq<nat>>, c: Closure): nat {
    if c < |cs| then |cs[c]| else 0
  }

  function Pick(a: Scope, outer: Closure, d: Desc): Var
    requires Known(|a.frame|, Width(a.closures, outer), d)
  {
    match d
    case InStack(level) => a.frame[level]
    case OfOuter(i) => a.closures[outer][i]
  }

  function Picks(a: Scope, outer: Closure, ds: seq<Desc>): (xs: seq<Var>)
    requires forall i :: 0 <= i < |ds| ==> Known(|a.frame|, Width(a.closures, outer), ds[i])
    ensures |xs| == |ds| && forall i {:trigger xs[i]} :: 0 <= i < |ds| ==> xs[i] == Pick(a, outer, ds[i])
  {
    if ds == [] then [] else Picks(a, outer, ds[..|ds| - 1]) + [Pick(a, outer, ds[|ds| - 1])]
  }

  /** `n` new variables that hold nil, for the closure made last. */
  function Filled(a: Scope, n: nat): Scope
    requires a.closures != []
    decreases n
  {
    if n == 0 then a
    else
      var b := a.(store := a.store[a.next := 0], next := a.next + 1,
                  closures := Added(a.closures, |a.closures| - 1, a.next));
      Filled(b, n - 1)
  }

  function Added(cs: seq<seq<nat>>, c: Closure, x: nat): (r: seq<seq<nat>>)
    requires c < |cs|
    ensures |r| == |cs|
  {
    cs[c := cs[c] + [x]]
  }

  /** Closure `c` has `x` in place `i`. */
  function Placed(cs: seq<seq<nat>>, c: Closure, i: nat, x: nat): (r: seq<seq<nat>>)
    requires i < Width(cs, c)
    ensures |r| == |cs| && r[c] == cs[c][i := x]
  {
    var us: seq<nat> := cs[c];
    cs[c := us[i := x]]
  }

  lemma AddedLast(cs: seq<seq<nat>>, x: nat)
    ensures Added(cs + [[]], |cs|, x) == cs + [[x]]
  {
    var empty: seq<nat> := [];
    assert (cs + [empty])[|cs|] == empty && empty + [x] == [x];
  }

  function Meaning(a: Scope, act: Action): Scope {
    match act
    case Push(v) => a.(frame := a.frame + [a.next], store := a.store[a.next := v], next := a.next + 1)
    case SetLocal(level, v) =>
      if level < |a.frame| then a.(store := a.store[a.frame[level] := v]) else a
    case Leave(level) =>
      if level <= |a.frame| then a.(frame := a.frame[..level]) else a
    case Make(outer, ds) =>
      if forall i :: 0 <= i < |ds| ==> Known(|a.frame|, Width(a.closures, outer), ds[i])
      then a.(closures := a.closures + [Picks(a, outer, ds)]) else a
    case Fill(n) => Filled(a.(closures := a.closures + [[]]), n)
    case Set(c, i, v) =>
      if i < Width(a.closures, c) then a.(store := a.store[a.closures[c][i] := v]) else a
    case Free(c) => if c < |a.closures| then a.(closures := a.closures[c := []]) else a
    case Join(c, i, from, j) =>
      if i < Width(a.closures, c) && j < Width(a.closures, from)
      then a.(closures := Placed(a.closures, c, i, a.closures[from][j])) else a
  }

  function Meanings(a: Scope, acts: seq<Action>): Scope {
    if acts == [] then a else Meaning(Meanings(a, acts[..|acts| - 1]), acts[|acts| - 1])
  }

  // ----- how upvalues stand for variables -----

  ghost predicate FrameHolds(s: State, a: Scope) {
    && |a.frame| == |s.stack|
    && (forall i, j :: 0 <= i < j < |a.frame| ==> a.frame[i] != a.frame[j])
    && (forall i :: 0 <= i < |a.frame| ==> a.frame[i] in a.store && a.store[a.frame[i]] == s.stack[i])
    && forall x :: x in a.store ==> x < a.next
  }

  ghost predicate CellHolds(s: State, a: Scope, u: UpVal, x: Var)
    requires u in s.cells
  {
    && x in a.store
    && match s.cells[u].place
       case Open(level) => level < |a.frame| && a.frame[level] == x
       case Closed(v) => x !in a.frame && a.store[x] == v
  }

  ghost predicate Injective(rep: map<UpVal, Var>) {
    forall u, v :: u in rep && v in rep && rep[u] == rep[v] ==> u == v
  }

  /** Upvalue `u` is variable `rep[u]`: an open one while that is in the frame. */
  ghost predicate Holds(s: State, a: Scope, rep: map<UpVal, Var>) {
    && rep.Keys == s.cells.Keys && Injective(rep) && FrameHolds(s, a)
    && forall u :: u in s.cells && u in rep ==> CellHolds(s, a, u, rep[u])
  }

  ghost predicate BoundTo(us: seq<UpVal>, xs: seq<Var>, rep: map<UpVal, Var>) {
    |xs| == |us| && forall i :: 0 <= i < |us| ==> us[i] in rep && rep[us[i]] == xs[i]
  }

  ghost predicate Bound(cs: seq<seq<UpVal>>, xs: seq<seq<Var>>, rep: map<UpVal, Var>) {
    |xs| == |cs| && forall c :: 0 <= c < |cs| ==> BoundTo(cs[c], xs[c], rep)
  }

  /** The upvalues mean what they should: closures read the variables they captured, and
      share an upvalue exactly when they share a variable. */
  ghost predicate Faithful(s: State, a: Scope) {
    && |s.stack| == |a.frame| && |s.closures| == |a.closures|
    && (forall l :: 0 <= l < |s.stack| ==> a.frame[l] in a.store && s.stack[l] == a.store[a.frame[l]])
    && (forall c :: 0 <= c < |s.closures| ==> |a.closures[c]| == |s.closures[c]|)
    && (forall c, i :: 0 <= c < |s.closures| && 0 <= i < |s.closures[c]| ==>
          && s.closures[c][i] in s.cells && a.closures[c][i] in a.store
          && Read(s, s.closures[c][i]) == a.store[a.closures[c][i]])
    && (forall c, i, d, j ::
          0 <= c < |s.closures| && 0 <= i < |s.closures[c]| && 0 <= d < |s.closures| && 0 <= j < |s.closures[d]| ==>
            (s.closures[c][i] == s.closures[d][j] <==> a.closures[c][i] == a.closures[d][j]))
  }

  lemma HoldsFaithful(s: State, a: Scope, rep: map<UpVal, Var>)
    requires Holds(s, a, rep) && Bound(s.closures, a.closures, rep)
    ensures Faithful(s, a)
  {
    forall c | 0 <= c < |s.closures| ensures BoundTo(s.closures[c], a.closures[c], rep) {
    }
    forall c, i | 0 <= c < |s.closures| && 0 <= i < |s.closures[c]|
      ensures s.closures[c][i] in s.cells && a.closures[c][i] in a.store
      ensures Read(s, s.closures[c][i]) == a.store[a.closures[c][i]]
    {
      assert CellHolds(s, a, s.closures[c][i], rep[s.closures[c][i]]);
    }
  }

  ghost function Only(rep: map<UpVal, Var>, cells: map<UpVal, Cell>): map<UpVal, Var> {
    map u | u in rep && u in cells :: rep[u]
  }

  /** Other counts, or fewer upvalues. */
  lemma HoldsFewer(s: State, s2: State, a: Scope, rep: map<UpVal, Var>)
    requires Holds(s, a, rep) && s2.stack == s.stack && s2.cells.Keys <= s.cells.Keys
    requires forall u :: u in s2.cells ==> s2.cells[u].place == s.cells[u].place
    ensures Holds(s2, a, Only(rep, s2.cells))
  {
    forall u | u in s2.cells ensures CellHolds(s2, a, u, rep[u]) {
      assert CellHolds(s, a, u, rep[u]);
    }
  }

  lemma BoundFewer(cells: map<UpVal, Cell>, cs: seq<seq<UpVal>>, xs: seq<seq<Var>>, rep: map<UpVal, Var>)
    requires Bound(cs, xs, rep)
    requires forall c, i :: 0 <= c < |cs| && 0 <= i < |cs[c]| ==> cs[c][i] in cells
    ensures Bound(cs, xs, Only(rep, cells))
  {
    forall c | 0 <= c < |cs| ensures BoundTo(cs[c], xs[c], Only(rep, cells)) {
      assert BoundTo(cs[c], xs[c], rep);
    }
  }

  /** A variable gets a new value, and its upvalue if it has one. */
  lemma HoldsWritten(s: State, s2: State, a: Scope, rep: map<UpVal, Var>, u: UpVal, v: Value)
    requires Holds(s, a, rep) && Valid(s) && u in s.cells && s2 == Written(s, u, v)
    ensures Holds(s2, a.(store := a.store[rep[u] := v]), rep)
  {
    var a2 := a.(store := a.store[rep[u] := v]);
    assert CellHolds(s, a, u, rep[u]);
    forall w | w in s2.cells ensures CellHolds(s2, a2, w, rep[w]) {
      assert CellHolds(s, a, w, rep[w]);
    }
  }

  lemma HoldsSet(s: State, a: Scope, rep: map<UpVal, Var>, level: nat, v: Value)
    requires Holds(s, a, rep) && level < |s.stack|
    ensures Holds(s.(stack := s.stack[level := v]), a.(store := a.store[a.frame[level] := v]), rep)
  {
    var s2, a2 := s.(stack := s.stack[level := v]), a.(store := a.store[a.frame[level] := v]);
    forall w | w in s2.cells ensures CellHolds(s2, a2, w, rep[w]) {
      assert CellHolds(s, a, w, rep[w]);
    }
  }

  lemma HoldsPushed(s: State, a: Scope, rep: map<UpVal, Var>, v: Value)
    requires Holds(s, a, rep)
    ensures Holds(s.(stack := s.stack + [v]), Meaning(a, Push(v)), rep)
  {
    var s2, a2 := s.(stack := s.stack + [v]), Meaning(a, Push(v));
    forall w | w in s2.cells ensures CellHolds(s2, a2, w, rep[w]) {
      assert CellHolds(s, a, w, rep[w]);
    }
  }

  /** A new open upvalue stands for the variable at its level. */
  lemma HoldsOpened(s: State, a: Scope, rep: map<UpVal, Var>, level: nat)
    requires Holds(s, a, rep) && Valid(s) && level < |s.stack|
    requires forall u :: IsOpen(s, u) ==> LevelOf(s, u) != level
    ensures Holds(s.(cells := s.cells[s.next := Cell(0, Open(level))]), a, rep[s.next := a.frame[level]])
  {
    var s2, rep2 := s.(cells := s.cells[s.next := Cell(0, Open(level))]), rep[s.next := a.frame[level]];
    forall w | w in s.cells ensures CellHolds(s2, a, w, rep2[w]) && rep[w] != a.frame[level] {
      assert CellHolds(s, a, w, rep[w]);
      if IsOpen(s, w) { assert LevelOf(s, w) != level; }
    }
  }

  /** A new closed upvalue stands for a new variable that is not in the frame. */
  lemma HoldsClosed(s: State, a: Scope, rep: map<UpVal, Var>, n: nat)
    requires Holds(s, a, rep) && Valid(s)
    ensures Holds(s.(cells := s.cells[s.next := Cell(n, Closed(0))]), a.(store := a.store[a.next := 0], next := a.next + 1),
                  rep[s.next := a.next])
  {
    var s2, rep2 := s.(cells := s.cells[s.next := Cell(n, Closed(0))]), rep[s.next := a.next];
    var a2 := a.(store := a.store[a.next := 0], next := a.next + 1);
    forall w | w in s.cells ensures CellHolds(s2, a2, w, rep2[w]) && rep[w] != a.next {
      assert CellHolds(s, a, w, rep[w]);
    }
  }

  /** Closing the upvalues from `level` up and leaving those variables. */
  lemma HoldsLeft(s: State, s1: State, s2: State, a: Scope, rep: map<UpVal, Var>, level: nat)
    requires Holds(s, a, rep) && Valid(s) && level <= |s.stack| && ClosedFrom(s, s1, level)
    requires Counted(s1.cells, Uses(s1.closures))
    requires forall u :: IsOpen(s1, u) ==> LevelOf(s1, u) < level
    requires s2 == s1.(stack := s1.stack[..level])
    ensures Holds(s2, a.(frame := a.frame[..level]), Only(rep, s2.cells))
  {
    var a2 := a.(frame := a.frame[..level]);
    forall u | u in s2.cells ensures CellHolds(s2, a2, u, rep[u]) {
      CellLeft(s, s1, a, rep, level, u);
      assert CellHolds(s1, a2, u, rep[u]);
    }
  }

  lemma CellLeft(s: State, s1: State, a: Scope, rep: map<UpVal, Var>, level: nat, u: UpVal)
    requires Holds(s, a, rep) && Valid(s) && level <= |s.stack| && ClosedFrom(s, s1, level)
    requires Counted(s1.cells, Uses(s1.closures)) && u in s1.cells
    requires IsOpen(s1, u) ==> LevelOf(s1, u) < level
    ensures CellHolds(s1, a.(frame := a.frame[..level]), u, rep[u])
  {
    assert u in s.cells && CellHolds(s, a, u, rep[u]);
    if IsOpen(s1, u) {
      assert s1.cells[u] == s.cells[u];
    } else {
      assert s.cells[u].refcount > 0 || !AtLeastOld(s, u, level);
      assert Read(s1, u) == Read(s, u);
      if IsOpen(s, u) { assert !(LevelOf(s, u) < level); }
    }
  }

  /** Open upvalues below `level` are still open, and whatever a closure refers to holds
      the same value. */
  ghost predicate ClosedFrom(s: State, s2: State, level: nat) {
    && s2 == s.(openupval := s2.openupval, cells := s2.cells) && s2.cells.Keys <= s.cells.Keys
    && (forall u :: u in s2.cells ==> s2.cells[u].refcount == s.cells[u].refcount)
    && (forall u :: IsOpen(s2, u) ==> IsOpen(s, u) && s2.cells[u] == s.cells[u])
    && (forall u :: IsOpen(s, u) && LevelOf(s, u) < level ==> IsOpen(s2, u))
    && (forall u :: u in s.cells && (s.cells[u].refcount > 0 || !AtLeastOld(s, u, level)) ==>
          u in s2.cells && s2.cells[u].refcount == s.cells[u].refcount && Read(s2, u) == Read(s, u))
  }

  lemma ClosedStep(s: State, s1: State, s2: State, level: nat)
    requires Valid(s1) && ClosedFrom(s, s1, level) && Dropped(s1, s2) && AtLeastOld(s1, s1.openupval[0], level)
    requires s1.cells[s1.openupval[0]].refcount == 0 ==> s1.openupval[0] !in s2.cells
    requires s1.cells[s1.openupval[0]].refcount > 0 ==>
      s2.cells == s1.cells[s1.openupval[0] := Cell(s1.cells[s1.openupval[0]].refcount,
                                                   Closed(Read(s1, s1.openupval[0])))]
    ensures ClosedFrom(s, s2, level)
  {
    var uv := s1.openupval[0];
    forall u | u in s.cells && (s.cells[u].refcount > 0 || !AtLeastOld(s, u, level))
      ensures u in s2.cells && s2.cells[u].refcount == s.cells[u].refcount && Read(s2, u) == Read(s, u)
    {
      assert u in s1.cells && s1.cells[u].refcount == s.cells[u].refcount && Read(s1, u) == Read(s, u);
    }
  }

  lemma CountChanged(s: State, s2: State)
    requires Valid(s) && s2 == s.(cells := s2.cells, closures := s2.closures) && s2.cells.Keys <= s.cells.Keys
    requires forall u :: u in s2.cells ==> s2.cells[u].place == s.cells[u].place
    requires forall u :: IsOpen(s, u) ==> u in s2.cells
    ensures Valid(s2) && forall u :: u in s2.cells ==> Read(s2, u) == Read(s, u)
  {
    forall u ensures IsOpen(s2, u) <==> IsOpen(s, u) {
    }
    forall u ensures LevelOf(s2, u) == LevelOf(s, u) {
    }
  }

  lemma StackChanged(s: State, s2: State)
    requires Valid(s) && s2 == s.(stack := s2.stack)
    requires forall u :: IsOpen(s, u) ==>
      LevelOf(s, u) < |s2.stack| && (LevelOf(s, u) < |s.stack| ==> s2.stack[LevelOf(s, u)] == s.stack[LevelOf(s, u)])
    ensures Valid(s2) && forall u :: u in s2.cells ==> Read(s2, u) == Read(s, u)
  {
    forall u ensures IsOpen(s2, u) <==> IsOpen(s, u) {
    }
    forall u ensures LevelOf(s2, u) == LevelOf(s, u) {
    }
    forall u | u in s2.cells ensures Read(s2, u) == Read(s, u) {
      if IsOpen(s, u) { assert u in s.openupval; }
    }
  }

  ghost predicate AtLeastOld(s: State, u: UpVal, level: nat) {
    IsOpen(s, u) && LevelOf(s, u) >= level
  }

  /** Before place `pp` all levels are higher, from there on lower. */
  lemma NoneAt(s: State, pp: nat, level: nat)
    requires Valid(s) && pp <= |s.openupval|
    requires forall k :: 0 <= k < pp ==> LevelOf(s, s.openupval[k]) > level
    requires pp < |s.openupval| ==> LevelOf(s, s.openupval[pp]) < level
    ensures forall k :: pp <= k < |s.openupval| ==> LevelOf(s, s.openupval[k]) < level
    ensures forall u :: IsOpen(s, u) ==> LevelOf(s, u) != level
  {
    forall u | IsOpen(s, u) ensures LevelOf(s, u) != level {
      var i :| 0 <= i < |s.openupval| && s.openupval[i] == u;
    }
  }

  /** The list with `free` put in place `pp`. */
  function With(l: seq<UpVal>, pp: nat, free: UpVal): (r: seq<UpVal>)
    requires pp <= |l|
    ensures |r| == |l| + 1
    ensures forall i {:trigger r[i]} :: 0 <= i < |r| ==> r[i] == if i < pp then l[i] else if i == pp then free else l[i - 1]
  {
    l[..pp] + [free] + l[pp..]
  }

  /** A new upvalue for `level`, in place `pp` of the list. */
  function Opened(s: State, pp: nat, level: nat): State
    requires pp <= |s.openupval|
  {
    s.(openupval := With(s.openupval, pp, s.next), cells := s.cells[s.next := Cell(0, Open(level))], next := s.next + 1)
  }

  lemma Inserted(s: State, pp: nat, level: nat)
    requires Valid(s) && pp <= |s.openupval| && level < |s.stack|
    requires forall k :: 0 <= k < pp ==> LevelOf(s, s.openupval[k]) > level
    requires forall k :: pp <= k < |s.openupval| ==> LevelOf(s, s.openupval[k]) < level
    ensures var s2 := Opened(s, pp, level);
      Valid(s2) && forall u :: u in s.cells ==> Read(s2, u) == Read(s, u)
  {
    var free, s2 := s.next, Opened(s, pp, level);
    var l := s2.openupval;
    forall u | IsOpen(s2, u) ensures u in l {
      InsertedMember(s, pp, free, u);
    }
    InsertedLevels(s, s2, pp, level);
    InsertedDescending(s, s2, pp, level);
  }

  lemma InsertedMember(s: State, pp: nat, free: UpVal, u: UpVal)
    requires Valid(s) && pp <= |s.openupval| && (u == free || IsOpen(s, u))
    ensures u in With(s.openupval, pp, free)
  {
    var l := With(s.openupval, pp, free);
    if u == free {
      assert l[pp] == u;
    } else {
      var k :| 0 <= k < |s.openupval| && s.openupval[k] == u;
      assert l[if k < pp then k else k + 1] == u;
    }
  }

  lemma InsertedLevels(s: State, s2: State, pp: nat, level: nat)
    requires Valid(s) && pp <= |s.openupval| && level < |s.stack| && s2 == Opened(s, pp, level)
    ensures forall i :: 0 <= i < |s2.openupval| ==>
      && IsOpen(s2, s2.openupval[i]) && LevelOf(s2, s2.openupval[i]) < |s2.stack|
      && LevelOf(s2, s2.openupval[i]) == if i == pp then level else LevelOf(s, s.openupval[OldIndex(i, pp)])
  {
    forall i | 0 <= i < |s2.openupval|
      ensures IsOpen(s2, s2.openupval[i]) && LevelOf(s2, s2.openupval[i]) < |s2.stack|
      ensures LevelOf(s2, s2.openupval[i]) == if i == pp then level else LevelOf(s, s.openupval[OldIndex(i, pp)])
    {
      if i != pp { OldLevel(s, s2, pp, level, OldIndex(i, pp)); }
    }
  }

  lemma OldLevel(s: State, s2: State, pp: nat, level: nat, k: nat)
    requires Valid(s) && pp <= |s.openupval| && s2 == Opened(s, pp, level) && k < |s.openupval|
    ensures var u := s.openupval[k]; IsOpen(s2, u) && LevelOf(s2, u) == LevelOf(s, u) < |s2.stack|
  {
    assert IsOpen(s, s.openupval[k]);
  }

  function OldIndex(i: int, pp: int): int { if i < pp then i else i - 1 }

  lemma InsertedDescending(s: State, s2: State, pp: nat, level: nat)
    requires Valid(s) && pp <= |s.openupval| && |s2.openupval| == |s.openupval| + 1
    requires forall k :: 0 <= k < pp ==> LevelOf(s, s.openupval[k]) > level
    requires forall k :: pp <= k < |s.openupval| ==> LevelOf(s, s.openupval[k]) < level
    requires LevelOf(s2, s2.openupval[pp]) == level
    requires forall i :: 0 <= i < |s2.openupval| && i != pp ==>
      LevelOf(s2, s2.openupval[i]) == LevelOf(s, s.openupval[OldIndex(i, pp)])
    ensures Descending(s2)
  {
    forall i, j | 0 <= i < j < |s2.openupval|
      ensures LevelOf(s2, s2.openupval[i]) > LevelOf(s2, s2.openupval[j])
    {
      var i0, j0 := OldIndex(i, pp), OldIndex(j, pp);
      if i == pp {
        assert LevelOf(s, s.openupval[j0]) < level;
      } else if j == pp {
        assert LevelOf(s, s.openupval[i0]) > level;
      } else {
        assert LevelOf(s, s.openupval[i0]) > LevelOf(s, s.openupval[j0]);
      }
    }
  }

  /** The first open upvalue is off the list, and closed or freed. */
  ghost predicate Dropped(s: State, s1: State) {
    && s.openupval != [] && s1 == s.(openupval := s.openupval[1..], cells := s1.cells)
    && !IsOpen(s1, s.openupval[0])
    && (forall w :: w != s.openupval[0] ==> (w in s1.cells <==> w in s.cells))
    && (forall w :: w != s.openupval[0] && w in s.cells ==> s1.cells[w] == s.cells[w])
  }

  lemma FirstClosed(s: State, s1: State)
    requires Valid(s) && Dropped(s, s1)
    ensures Valid(s1)
  {
    var u, l := s.openupval[0], s1.openupval;
    forall i | 0 <= i < |l| ensures l[i] == s.openupval[i + 1] && l[i] != u {
      assert LevelOf(s, s.openupval[0]) > LevelOf(s, s.openupval[i + 1]);
    }
    forall i | 0 <= i < |l| ensures IsOpen(s1, l[i]) && LevelOf(s1, l[i]) == LevelOf(s, s.openupval[i + 1]) {
      assert IsOpen(s, s.openupval[i + 1]);
    }
    forall w | IsOpen(s1, w) ensures w in l {
      assert IsOpen(s, w) && w != u;
      var k :| 0 <= k < |s.openupval| && s.openupval[k] == w;
      assert l[k - 1] == w;
    }
    forall i, j | 0 <= i < j < |l| ensures LevelOf(s1, l[i]) > LevelOf(s1, l[j]) {
      assert LevelOf(s, s.openupval[i + 1]) > LevelOf(s, s.openupval[j + 1]);
    }
  }

  lemma RestBelow(s: State, level: nat)
    requires Valid(s) && (s.openupval != [] ==> LevelOf(s, s.openupval[0]) < level)
    ensures forall u :: IsOpen(s, u) ==> LevelOf(s, u) < level
  {
    forall u | IsOpen(s, u) ensures LevelOf(s, u) < level {
      var i :| 0 <= i < |s.openupval| && s.openupval[i] == u;
      if i > 0 { assert LevelOf(s, s.openupval[0]) > LevelOf(s, s.openupval[i]); }
    }
  }

  /** The upvalue found, new or not, stands for the variable at `level`. */
  lemma FoundHolds(s: State, s2: State, a: Scope, rep: map<UpVal, Var>, level: nat, uv: UpVal)
    requires Holds(s, a, rep) && Valid(s) && Valid(s2) && level < |s.stack| && s2.stack == s.stack
    requires IsOpen(s2, uv) && LevelOf(s2, uv) == level
    requires if exists u :: IsOpen(s, u) && LevelOf(s, u) == level then s2 == s
             else uv == s.next && s2.cells == s.cells[uv := Cell(0, Open(level))]
    ensures uv in s.cells ==> s2 == s && rep[uv] == a.frame[level]
    ensures uv !in s.cells ==> uv == s.next && Holds(s2, a, rep[uv := a.frame[level]])
  {
    if exists u :: IsOpen(s, u) && LevelOf(s, u) == level {
      assert CellHolds(s, a, uv, rep[uv]);
    } else {
      HoldsOpened(s, a, rep, level);
      HoldsAlike(s.(cells := s2.cells), s2, a, a, rep[uv := a.frame[level]]);
    }
  }

  /** A new upvalue that `n` closures refer to. */
  lemma NewUpval(s: State, u: UpVal, place: Place, n: nat, uses: multiset<UpVal>)
    requires Valid(s) && Counted(s.cells, uses) && u == s.next && (place.Closed? ==> n > 0)
    ensures Counted(s.cells[u := Cell(n, place)], uses[u := n])
    ensures n == 0 ==> uses[u := n] == uses
  {
    assert u !in s.cells;
  }

  lemma BoundMore(cs: seq<seq<UpVal>>, xs: seq<seq<Var>>, rep: map<UpVal, Var>, u: UpVal, x: Var)
    requires Bound(cs, xs, rep) && u !in rep
    ensures Bound(cs, xs, rep[u := x])
  {
    forall c | 0 <= c < |cs| ensures BoundTo(cs[c], xs[c], rep[u := x]) {
      assert BoundTo(cs[c], xs[c], rep);
    }
  }

  lemma CountedWritten(s: State, u: UpVal, v: Value, uses: multiset<UpVal>)
    requires Valid(s) && u in s.cells && Counted(s.cells, uses)
    ensures Counted(Written(s, u, v).cells, uses)
  {
  }

  /** All of it: the lists, the counts, and what the upvalues mean. */
  ghost predicate Good(s: State, a: Scope, rep: map<UpVal, Var>) {
    forall k :: Key(k) ==> GoodKeyed(s, a, rep)
  }

  ghost predicate GoodKeyed(s: State, a: Scope, rep: map<UpVal, Var>) {
    && Valid(s) && Counted(s.cells, Uses(s.closures))
    && Holds(s, a, rep) && Bound(s.closures, a.closures, rep)
  }

  lemma GoodOut(s: State, a: Scope, rep: map<UpVal, Var>)
    requires Good(s, a, rep)
    ensures GoodKeyed(s, a, rep) && |a.closures| == |s.closures| && |a.frame| == |s.stack| && rep.Keys == s.cells.Keys
  {
    assert Key(0);
  }

  lemma FoundGood(s: State, s2: State, a: Scope, rep: map<UpVal, Var>, level: nat, uv: UpVal)
    requires Good(s, a, rep) && Valid(s2) && level < |s.stack|
    requires s2 == s.(openupval := s2.openupval, cells := s2.cells, next := s2.next)
    requires IsOpen(s2, uv) && LevelOf(s2, uv) == level
    requires if exists u :: IsOpen(s, u) && LevelOf(s, u) == level then s2 == s
             else uv == s.next && s2.cells == s.cells[uv := Cell(0, Open(level))]
    ensures level < |a.frame| && Good(s2, a, rep[uv := a.frame[level]])
  {
    GoodOut(s, a, rep);
    FoundHolds(s, s2, a, rep, level, uv);
    if uv in s.cells {
      assert rep[uv := a.frame[level]] == rep;
    } else {
      NewUpval(s, uv, Open(level), 0, Uses(s.closures));
      BoundMore(s.closures, a.closures, rep, uv, a.frame[level]);
    }
  }

  lemma LeftGood(s: State, s1: State, s2: State, a: Scope, rep: map<UpVal, Var>, level: nat)
    requires Good(s, a, rep) && level <= |s.stack| && ClosedFrom(s, s1, level) && Valid(s1)
    requires Counted(s1.cells, Uses(s1.closures))
    requires forall u :: IsOpen(s1, u) ==> LevelOf(s1, u) < level
    requires s2 == s1.(stack := s1.stack[..level])
    ensures Good(s2, Meaning(a, Action.Leave(level)), Only(rep, s2.cells))
  {
    GoodOut(s, a, rep);
    StackChanged(s1, s2);
    HoldsLeft(s, s1, s2, a, rep, level);
    UsedThere(s2.cells, s2.closures, multiset{});
    BoundFewer(s2.cells, s2.closures, a.closures, rep);
    assert GoodKeyed(s2, Meaning(a, Action.Leave(level)), Only(rep, s2.cells));
  }

  lemma PushedGood(s: State, a: Scope, rep: map<UpVal, Var>, v: Value)
    requires Good(s, a, rep)
    ensures Good(s.(stack := s.stack + [v]), Meaning(a, Action.Push(v)), rep)
  {
    GoodOut(s, a, rep);
    StackChanged(s, s.(stack := s.stack + [v]));
    HoldsPushed(s, a, rep, v);
  }

  lemma SetGood(s: State, a: Scope, rep: map<UpVal, Var>, level: nat, v: Value)
    requires Good(s, a, rep) && level < |s.stack|
    ensures Good(s.(stack := s.stack[level := v]), Meaning(a, Action.SetLocal(level, v)), rep)
  {
    GoodOut(s, a, rep);
    HoldsSet(s, a, rep, level, v);
    LevelsOnly(s, s.(stack := s.stack[level := v]));
  }

  lemma LevelsOnly(s: State, s2: State)
    requires Valid(s) && s2 == s.(stack := s2.stack) && |s2.stack| == |s.stack|
    ensures Valid(s2)
  {
    forall u ensures IsOpen(s2, u) <==> IsOpen(s, u) {
    }
    forall u ensures LevelOf(s2, u) == LevelOf(s, u) {
    }
  }

  lemma WrittenGood(s: State, a: Scope, rep: map<UpVal, Var>, c: Closure, i: nat, v: Value)
    requires Good(s, a, rep) && i < Width(s.closures, c)
    ensures Valid(s) && s.closures[c][i] in s.cells
    ensures Good(Written(s, s.closures[c][i], v), Meaning(a, Action.Set(c, i, v)), rep)
  {
    GoodOut(s, a, rep);
    assert BoundTo(s.closures[c], a.closures[c], rep);
    var u := s.closures[c][i];
    OneVariable(s, u, v, u);
    HoldsWritten(s, Written(s, u, v), a, rep, u, v);
    CountedWritten(s, u, v, Uses(s.closures));
  }

  lemma NewGood(s: State, a: Scope, rep: map<UpVal, Var>)
    requires Good(s, a, rep)
    ensures Good(s.(closures := s.closures + [[]]), a.(closures := a.closures + [[]]), rep)
  {
    GoodOut(s, a, rep);
    var s2, a2 := s.(closures := s.closures + [[]]), a.(closures := a.closures + [[]]);
    NewUses(s.closures);
    NewBound(s.closures, a.closures, rep);
    CountChanged(s, s2);
    HoldsAlike(s, s2, a, a2, rep);
    assert GoodKeyed(s2, a2, rep);
  }

  lemma NewUses(cs: seq<seq<UpVal>>)
    ensures Uses(cs + [[]]) == Uses(cs)
  {
    UsesApart(cs, [[]]);
    assert Uses([[]]) == multiset{};
  }

  lemma NewBound(cs: seq<seq<UpVal>>, xs: seq<seq<Var>>, rep: map<UpVal, Var>)
    requires Bound(cs, xs, rep)
    ensures Bound(cs + [[]], xs + [[]], rep)
  {
    forall c | 0 <= c <= |cs| ensures BoundTo((cs + [[]])[c], (xs + [[]])[c], rep) {
      if c < |cs| { assert BoundTo(cs[c], xs[c], rep); }
    }
  }

  /** Other counts, and other closures. */
  lemma HoldsAlike(s: State, s2: State, a: Scope, a2: Scope, rep: map<UpVal, Var>)
    requires Holds(s, a, rep) && s2.stack == s.stack && s2.cells.Keys == s.cells.Keys
    requires forall u :: u in s.cells ==> s2.cells[u].place == s.cells[u].place
    requires a2.frame == a.frame && a2.store == a.store && a2.next == a.next
    ensures Holds(s2, a2, rep)
  {
    forall u | u in s2.cells ensures CellHolds(s2, a2, u, rep[u]) {
      assert CellHolds(s, a, u, rep[u]);
    }
  }

  /** The closure made last takes upvalue `u`. */
  function Taken(s: State, u: UpVal): State
    requires s.closures != [] && u in s.cells
  {
    s.(cells := s.cells[u := s.cells[u].(refcount := s.cells[u].refcount + 1)],
       closures := Added(s.closures, |s.closures| - 1, u))
  }

  lemma TakenUses(s: State, u: UpVal)
    requires Counted(s.cells, Uses(s.closures)) && s.closures != [] && u in s.cells
    ensures Counted(Taken(s, u).cells, Uses(Taken(s, u).closures))
  {
    var c := |s.closures| - 1;
    UsesSet(s.closures, c, s.closures[c] + [u]);
    UsesMore(Uses(s.closures), Uses(Added(s.closures, c, u)), s.closures[c], u);
    TakenCounted(s.cells, Uses(s.closures), u);
  }

  lemma TakenGood(s: State, a: Scope, rep: map<UpVal, Var>, u: UpVal)
    requires Good(s, a, rep) && s.closures != [] && u in s.cells
    ensures |a.closures| == |s.closures| && u in rep
    ensures Good(Taken(s, u), a.(closures := Added(a.closures, |a.closures| - 1, rep[u])), rep)
  {
    GoodOut(s, a, rep);
    TakenUses(s, u);
    TakenBound(s.closures, a.closures, rep, |s.closures| - 1, u);
    CountChanged(s, Taken(s, u));
    var s2, a2 := Taken(s, u), a.(closures := Added(a.closures, |a.closures| - 1, rep[u]));
    HoldsAlike(s, s2, a, a2, rep);
    assert GoodKeyed(s2, a2, rep);
  }

  lemma UsesMore(uses: multiset<UpVal>, uses2: multiset<UpVal>, us: seq<UpVal>, u: UpVal)
    requires uses2 + multiset(us) == uses + multiset(us + [u])
    ensures uses2 == uses + multiset{u}
  {
    assert multiset(us + [u]) == multiset(us) + multiset{u};
    forall v ensures uses2[v] == (uses + multiset{u})[v] {
      assert (uses2 + multiset(us))[v] == (uses + multiset(us + [u]))[v];
    }
  }

  lemma TakenCounted(cells: map<UpVal, Cell>, uses: multiset<UpVal>, u: UpVal)
    requires Counted(cells, uses) && u in cells
    ensures Counted(cells[u := cells[u].(refcount := cells[u].refcount + 1)], uses + multiset{u})
  {
  }

  lemma TakenBound(cs: seq<seq<UpVal>>, xs: seq<seq<Var>>, rep: map<UpVal, Var>, c: Closure, u: UpVal)
    requires Bound(cs, xs, rep) && c < |cs| && u in rep
    ensures Bound(Added(cs, c, u), Added(xs, c, rep[u]), rep)
  {
    forall d | 0 <= d < |cs| ensures BoundTo(Added(cs, c, u)[d], Added(xs, c, rep[u])[d], rep) {
      assert BoundTo(cs[d], xs[d], rep);
    }
  }

  lemma Widths(s: State, a: Scope, rep: map<UpVal, Var>)
    requires Good(s, a, rep)
    ensures |a.frame| == |s.stack| && |a.closures| == |s.closures|
    ensures forall c :: Width(a.closures, c) == Width(s.closures, c)
  {
    GoodOut(s, a, rep);
    forall c: Closure ensures Width(a.closures, c) == Width(s.closures, c) {
      if c < |s.closures| { assert BoundTo(s.closures[c], a.closures[c], rep); }
    }
  }

  /** The closure made last has got a new closed upvalue. */
  function WithClosed(s: State): State
    requires s.closures != []
  {
    s.(cells := s.cells[s.next := Cell(1, Closed(0))], next := s.next + 1,
       closures := Added(s.closures, |s.closures| - 1, s.next))
  }

  lemma ClosedGood(s: State, a: Scope, rep: map<UpVal, Var>)
    requires Good(s, a, rep) && s.closures != []
    ensures a.closures != [] && Good(WithClosed(s), Filled(a, 1), rep[s.next := a.next])
  {
    GoodOut(s, a, rep);
    var s2, a2, rep2 := WithClosed(s), Filled(a, 1), rep[s.next := a.next];
    HoldsClosed(s, a, rep, 1);
    var b := a.(store := a.store[a.next := 0], next := a.next + 1);
    assert a2 == b.(closures := a2.closures) && a2.closures == Added(a.closures, |a.closures| - 1, a.next);
    HoldsAlike(s.(cells := s2.cells), s2, b, a2, rep2);
    BoundMore(s.closures, a.closures, rep, s.next, a.next);
    TakenBound(s.closures, a.closures, rep2, |s.closures| - 1, s.next);
    ClosedUses(s);
    ClosedValid(s);
    assert GoodKeyed(s2, a2, rep2);
  }

  lemma ClosedUses(s: State)
    requires Counted(s.cells, Uses(s.closures)) && Valid(s) && s.closures != []
    ensures Counted(WithClosed(s).cells, Uses(WithClosed(s).closures))
  {
    var c := |s.closures| - 1;
    NewUpval(s, s.next, Closed(0), 1, Uses(s.closures));
    UsesSet(s.closures, c, s.closures[c] + [s.next]);
    UsesMore(Uses(s.closures), Uses(Added(s.closures, c, s.next)), s.closures[c], s.next);
    assert Uses(s.closures)[s.next := 1] == Uses(s.closures) + multiset{s.next};
  }

  lemma ClosedValid(s: State)
    requires Valid(s) && s.closures != []
    ensures Valid(WithClosed(s))
  {
    var s2 := WithClosed(s);
    forall u ensures IsOpen(s2, u) <==> IsOpen(s, u) {
    }
    forall u ensures LevelOf(s2, u) == LevelOf(s, u) {
    }
  }

  // ----- freeing -----

  function Fewer(cells: map<UpVal, Cell>, u: UpVal): map<UpVal, Cell>
    requires u in cells && cells[u].refcount > 0
  {
    if cells[u].refcount == 1 && cells[u].place.Closed? then cells - {u}
    else cells[u := cells[u].(refcount := cells[u].refcount - 1)]
  }

  lemma FewerCounted(cells: map<UpVal, Cell>, uses: multiset<UpVal>, u: UpVal)
    requires Counted(cells, uses) && u in uses
    ensures u in cells && cells[u].refcount > 0 && Counted(Fewer(cells, u), uses - multiset{u})
  {
  }

  /** The upvalues `rest` of a closure that is being freed are still counted. */
  ghost predicate Freeing(s: State, a: Scope, rep: map<UpVal, Var>, rest: multiset<UpVal>) {
    forall k :: Key(k) ==> FreeingKeyed(s, a, rep, rest)
  }

  ghost predicate FreeingKeyed(s: State, a: Scope, rep: map<UpVal, Var>, rest: multiset<UpVal>) {
    Valid(s) && Counted(s.cells, Uses(s.closures) + rest) && Holds(s, a, rep) && Bound(s.closures, a.closures, rep)
  }

  lemma FreeingOut(s: State, a: Scope, rep: map<UpVal, Var>, rest: multiset<UpVal>)
    requires Freeing(s, a, rep, rest)
    ensures FreeingKeyed(s, a, rep, rest)
  {
    assert Key(0);
  }

  lemma Halfway(s: State, s2: State, a: Scope, rep: map<UpVal, Var>, c: Closure)
    requires Good(s, a, rep) && c < |s.closures| && s2 == s.(closures := s.closures[c := []])
    ensures Freeing(s2, Meaning(a, Free(c)), rep, multiset(s.closures[c]))
  {
    GoodOut(s, a, rep);
    UsesSet(s.closures, c, []);
    assert Uses(s2.closures) + multiset(s.closures[c]) == Uses(s.closures);
    var a2 := Meaning(a, Free(c));
    CountChanged(s, s2);
    HoldsAlike(s, s2, a, a2, rep);
    forall d | 0 <= d < |s2.closures| ensures BoundTo(s2.closures[d], a2.closures[d], rep) {
      assert BoundTo(s.closures[d], a.closures[d], rep);
    }
    assert FreeingKeyed(s2, a2, rep, multiset(s.closures[c]));
  }

  lemma FreeingOne(s: State, a: Scope, rep: map<UpVal, Var>, u: UpVal, rest: multiset<UpVal>)
    requires Freeing(s, a, rep, multiset{u} + rest)
    ensures u in s.cells && s.cells[u].refcount > 0
    ensures var s2 := s.(cells := Fewer(s.cells, u)); Freeing(s2, a, Only(rep, s2.cells), rest)
  {
    FreeingOut(s, a, rep, multiset{u} + rest);
    FewerCounted(s.cells, Uses(s.closures) + (multiset{u} + rest), u);
    assert Uses(s.closures) + (multiset{u} + rest) - multiset{u} == Uses(s.closures) + rest;
    var s2 := s.(cells := Fewer(s.cells, u));
    CountChanged(s, s2);
    HoldsFewer(s, s2, a, rep);
    UsedThere(s2.cells, s2.closures, rest);
    BoundFewer(s2.cells, s2.closures, a.closures, rep);
    assert FreeingKeyed(s2, a, Only(rep, s2.cells), rest);
  }

  lemma Freed(s: State, a: Scope, rep: map<UpVal, Var>)
    requires Freeing(s, a, rep, multiset{})
    ensures Good(s, a, rep)
  {
    FreeingOut(s, a, rep, multiset{});
    assert Uses(s.closures) + multiset{} == Uses(s.closures);
    assert GoodKeyed(s, a, rep);
  }

  // ----- joining -----

  /** One closed upvalue that is used only once. */
  predicate Alone(cells: map<UpVal, Cell>, u: UpVal, v: UpVal) {
    u == v && u in cells && cells[u].refcount == 1 && cells[u].place.Closed?
  }

  function Joined(s: State, c: Closure, i: nat, v: UpVal): State
    requires i < Width(s.closures, c) && s.closures[c][i] in s.cells && s.cells[s.closures[c][i]].refcount > 0
    requires v in Fewer(s.cells, s.closures[c][i])
  {
    var cells := Fewer(s.cells, s.closures[c][i]);
    s.(cells := cells[v := cells[v].(refcount := cells[v].refcount + 1)],
       closures := Placed(s.closures, c, i, v))
  }

  lemma JoinGood(s: State, a: Scope, rep: map<UpVal, Var>, c: Closure, i: nat, from: Closure, j: nat)
    requires Good(s, a, rep) && i < Width(s.closures, c) && j < Width(s.closures, from)
    ensures var u, v := s.closures[c][i], s.closures[from][j];
      && u in s.cells && s.cells[u].refcount > 0 && (v in Fewer(s.cells, u) <==> !Alone(s.cells, u, v))
      && (v in Fewer(s.cells, u) ==>
            Good(Joined(s, c, i, v), Meaning(a, Join(c, i, from, j)), Only(rep, Joined(s, c, i, v).cells)))
  {
    var u, v := s.closures[c][i], s.closures[from][j];
    JoinCells(s, a, rep, c, i, from, j);
    if v in Fewer(s.cells, u) {
      JoinedGood(s, a, rep, c, i, from, j);
    }
  }

  lemma JoinCells(s: State, a: Scope, rep: map<UpVal, Var>, c: Closure, i: nat, from: Closure, j: nat)
    requires Good(s, a, rep) && i < Width(s.closures, c) && j < Width(s.closures, from)
    ensures var u, v := s.closures[c][i], s.closures[from][j];
      u in s.cells && s.cells[u].refcount > 0 && (v in Fewer(s.cells, u) <==> !Alone(s.cells, u, v))
  {
    GoodOut(s, a, rep);
    UsedHere(s.closures, c, i);
    UsedHere(s.closures, from, j);
    FewerCounted(s.cells, Uses(s.closures), s.closures[c][i]);
  }

  lemma JoinedGood(s: State, a: Scope, rep: map<UpVal, Var>, c: Closure, i: nat, from: Closure, j: nat)
    requires Good(s, a, rep) && i < Width(s.closures, c) && j < Width(s.closures, from)
    requires s.closures[c][i] in s.cells && s.cells[s.closures[c][i]].refcount > 0
    requires s.closures[from][j] in Fewer(s.cells, s.closures[c][i])
    ensures var s2 := Joined(s, c, i, s.closures[from][j]);
      Good(s2, Meaning(a, Join(c, i, from, j)), Only(rep, s2.cells))
  {
    var s2 := Joined(s, c, i, s.closures[from][j]);
    GoodOut(s, a, rep);
    JoinedCounted(s, c, i, s.closures[from][j]);
    JoinedPlaces(s, c, i, s.closures[from][j]);
    JoinedBound(s, a, rep, c, i, from, j);
    JoinMeans(a, c, i, from, j);
    RestGood(s, s2, a, Meaning(a, Join(c, i, from, j)), rep);
  }

  lemma JoinedPlaces(s: State, c: Closure, i: nat, v: UpVal)
    requires Valid(s) && i < Width(s.closures, c) && s.closures[c][i] in s.cells && s.cells[s.closures[c][i]].refcount > 0
    requires v in Fewer(s.cells, s.closures[c][i])
    ensures var s2 := Joined(s, c, i, v);
      && Valid(s2) && s2.stack == s.stack && s2.cells.Keys <= s.cells.Keys
      && forall u :: u in s2.cells ==> s2.cells[u].place == s.cells[u].place
  {
    CountChanged(s, Joined(s, c, i, v));
  }

  lemma JoinMeans(a: Scope, c: Closure, i: nat, from: Closure, j: nat)
    requires i < Width(a.closures, c) && j < Width(a.closures, from)
    ensures Meaning(a, Join(c, i, from, j)) == a.(closures := Placed(a.closures, c, i, a.closures[from][j]))
  {
  }

  /** Other counts and other closures, with perhaps fewer upvalues. */
  lemma RestGood(s: State, s2: State, a: Scope, a2: Scope, rep: map<UpVal, Var>)
    requires Holds(s, a, rep) && s2.stack == s.stack && s2.cells.Keys <= s.cells.Keys && Valid(s2)
    requires forall u :: u in s2.cells ==> s2.cells[u].place == s.cells[u].place
    requires a2 == a.(closures := a2.closures) && Bound(s2.closures, a2.closures, rep)
    requires Counted(s2.cells, Uses(s2.closures))
    ensures Good(s2, a2, Only(rep, s2.cells))
  {
    HoldsFewer(s, s2, a, rep);
    HoldsAlike(s2, s2, a, a2, Only(rep, s2.cells));
    UsedThere(s2.cells, s2.closures, multiset{});
    BoundFewer(s2.cells, s2.closures, a2.closures, rep);
    assert GoodKeyed(s2, a2, Only(rep, s2.cells));
  }

  lemma JoinedCounted(s: State, c: Closure, i: nat, v: UpVal)
    requires Counted(s.cells, Uses(s.closures)) && i < Width(s.closures, c)
    requires s.closures[c][i] in s.cells && s.cells[s.closures[c][i]].refcount > 0
    requires v in Fewer(s.cells, s.closures[c][i])
    ensures Counted(Joined(s, c, i, v).cells, Uses(Joined(s, c, i, v).closures))
  {
    var us, u := s.closures[c], s.closures[c][i];
    UsedHere(s.closures, c, i);
    FewerCounted(s.cells, Uses(s.closures), u);
    TakenCounted(Fewer(s.cells, u), Uses(s.closures) - multiset{u}, v);
    UsesSet(s.closures, c, us[i := v]);
    JoinedUses(Uses(s.closures), Uses(Placed(s.closures, c, i, v)), us, i, v);
  }

  lemma JoinedUses(uses: multiset<UpVal>, uses2: multiset<UpVal>, us: seq<UpVal>, i: nat, v: UpVal)
    requires i < |us| && uses2 + multiset(us) == uses + multiset(us[i := v]) && us[i] in uses
    ensures uses2 == uses - multiset{us[i]} + multiset{v}
  {
    assert multiset(us[i := v]) == multiset(us) - multiset{us[i]} + multiset{v};
    assert us[i] in multiset(us);
    forall w ensures uses2[w] == (uses - multiset{us[i]} + multiset{v})[w] {
      assert (uses2 + multiset(us))[w] == (uses + multiset(us[i := v]))[w];
    }
  }

  lemma JoinedBound(s: State, a: Scope, rep: map<UpVal, Var>, c: Closure, i: nat, from: Closure, j: nat)
    requires Bound(s.closures, a.closures, rep) && i < Width(s.closures, c) && j < Width(s.closures, from)
    ensures |a.closures| == |s.closures| && i < Width(a.closures, c) && j < Width(a.closures, from)
    ensures Bound(Placed(s.closures, c, i, s.closures[from][j]), Placed(a.closures, c, i, a.closures[from][j]), rep)
  {
    assert BoundTo(s.closures[c], a.closures[c], rep) && BoundTo(s.closures[from], a.closures[from], rep);
    var cs, xs := Placed(s.closures, c, i, s.closures[from][j]), Placed(a.closures, c, i, a.closures[from][j]);
    forall d | 0 <= d < |cs| ensures BoundTo(cs[d], xs[d], rep) {
      assert BoundTo(s.closures[d], a.closures[d], rep);
    }
  }

  /** Joining an upvalue to itself means nothing. */
  lemma SameJoin(s: State, a: Scope, rep: map<UpVal, Var>, c: Closure, i: nat, from: Closure, j: nat)
    requires Good(s, a, rep) && i < Width(s.closures, c) && j < Width(s.closures, from)
    requires s.closures[c][i] == s.closures[from][j]
    ensures Meaning(a, Join(c, i, from, j)) == a
  {
    GoodOut(s, a, rep);
    assert BoundTo(s.closures[c], a.closures[c], rep) && BoundTo(s.closures[from], a.closures[from], rep);
    assert a.closures[c][i := a.closures[from][j]] == a.closures[c];
    assert a.closures[c := a.closures[c]] == a.closures;
  }

  lemma UpvalsThere(s: State, a: Scope, rep: map<UpVal, Var>, c: Closure)
    requires Good(s, a, rep) && c < |s.closures|
    ensures c < |a.closures| && |a.closures[c]| == |s.closures[c]|
    ensures forall i :: 0 <= i < |s.closures[c]| ==> s.closures[c][i] in s.cells
  {
    GoodOut(s, a, rep);
    assert BoundTo(s.closures[c], a.closures[c], rep);
  }

  ghost predicate Picked(a: Scope, outer: Closure, ds: seq<Desc>) {
    forall i :: 0 <= i < |ds| ==> Known(|a.frame|, Width(a.closures, outer), ds[i])
  }

  // ----- the class -----

  class LuaState {
    var stack: seq<Value>
    var openupval: seq<UpVal>
    var cells: map<UpVal, Cell>
    var next: UpVal
    var closures: seq<seq<UpVal>>
    ghost var scope: Scope            // what the program means
    ghost var rep: map<UpVal, Var>    // the variable that each upvalue is

    ghost function Now(): State
      reads this
    {
      State(stack, openupval, cells, next, closures)
    }

    ghost predicate Ok()
      reads this
    {
      Good(Now(), scope, rep)
    }

    constructor ()
      ensures Ok() && scope == Scope([], map[], [], 0) && closures == [] && next == 0 && cells == map[]
    {
      stack, openupval, cells, next, closures := [], [], map[], 0, [];
      scope, rep := Scope([], map[], [], 0), map[];
    }

    predicate AtLeast(u: UpVal, level: nat)
      reads this
    {
      u in cells && cells[u].place.Open? && cells[u].place.level >= level
    }

    /** The upvalue for the variable at `level`, a new one if there is none yet. */
    method FindUpval(level: nat) returns (uv: UpVal)
      requires Valid(Now()) && level < |stack|
      modifies this`openupval, this`cells, this`next
      ensures Valid(Now()) && IsOpen(Now(), uv) && LevelOf(Now(), uv) == level
      ensures if exists u :: IsOpen(old(Now()), u) && LevelOf(old(Now()), u) == level
              then Now() == old(Now())
              else uv == old(next) && next == uv + 1 && cells == old(cells)[uv := Cell(0, Open(level))]
      ensures forall u :: u in old(cells) ==> u in cells && Read(Now(), u) == Read(old(Now()), u)
    {
      var pp := 0;
      while pp < |openupval| && AtLeast(openupval[pp], level)
        invariant pp <= |openupval|
        invariant forall k :: 0 <= k < pp ==> LevelOf(Now(), openupval[k]) > level
      {
        var p := openupval[pp];
        if cells[p].place.level == level {
          return p;
        }
        pp := pp + 1;
      }
      NoneAt(Now(), pp, level);
      uv := Link(pp, level);
    }

    /** Puts a new upvalue in place `pp` of the list. */
    method Link(pp: nat, level: nat) returns (uv: UpVal)
      requires Valid(Now()) && pp <= |openupval| && level < |stack|
      requires forall k :: 0 <= k < pp ==> LevelOf(Now(), openupval[k]) > level
      requires forall k :: pp <= k < |openupval| ==> LevelOf(Now(), openupval[k]) < level
      modifies this`openupval, this`cells, this`next
      ensures Valid(Now()) && Now() == Opened(old(Now()), pp, level) && uv == old(next)
      ensures forall u :: u in old(cells) ==> u in cells && Read(Now(), u) == Read(old(Now()), u)
    {
      ghost var s := Now();
      Inserted(s, pp, level);
      uv := next;
      openupval := With(openupval, pp, uv);
      cells, next := cells[uv := Cell(0, Open(level))], next + 1;
      assert Now() == Opened(s, pp, level);
    }

    /** The upvalue for the variable at `level`; it stands for that variable. */
    method Find(level: nat) returns (uv: UpVal)
      requires Ok() && level < |stack|
      modifies this`openupval, this`cells, this`next, this`rep
      ensures Ok() && uv in cells && uv in rep && level < |scope.frame| && rep[uv] == scope.frame[level]
    {
      ghost var s := Now();
      GoodOut(s, scope, rep);
      uv := FindUpval(level);
      FoundGood(s, Now(), scope, rep, level, uv);
      rep := rep[uv := scope.frame[level]];
    }

    /** Assigns to an upvalue. */
    method Assign(uv: UpVal, v: Value)
      requires Valid(Now()) && uv in cells
      modifies this`cells, this`stack
      ensures Valid(Now()) && Now() == Written(old(Now()), uv, v)
    {
      OneVariable(Now(), uv, v, uv);
      match cells[uv].place
      case Open(level) =>
        assert uv in openupval;
        stack := stack[level := v];
      case Closed(_) => cells := cells[uv := cells[uv].(place := Closed(v))];
    }

    /** Closes the first upvalue of the list, or frees it if no closure refers to it. */
    method CloseFirst()
      requires Valid(Now()) && openupval != []
      modifies this`openupval, this`cells
      ensures Valid(Now()) && Dropped(old(Now()), Now())
      ensures var u := old(openupval)[0];
        if old(cells)[u].refcount > 0
        then cells == old(cells)[u := Cell(old(cells)[u].refcount, Closed(Read(old(Now()), u)))]
        else cells == old(cells) - {u}
    {
      ghost var s := Now();
      var uv := openupval[0];
      assert IsOpen(s, s.openupval[0]);
      openupval := openupval[1..];
      if cells[uv].refcount == 0 {
        cells := cells - {uv};
      } else {
        cells := cells[uv := cells[uv].(place := Closed(stack[cells[uv].place.level]))];
      }
      FirstClosed(s, Now());
    }

    /** Closes the upvalues from `level` up: one that no closure refers to goes away, the
        others take their value with them. */
    method Close(level: nat)
      requires Valid(Now()) && Counted(cells, Uses(closures))
      modifies this`openupval, this`cells
      ensures Valid(Now()) && Counted(cells, Uses(closures)) && ClosedFrom(old(Now()), Now(), level)
      ensures forall u :: IsOpen(Now(), u) ==> LevelOf(Now(), u) < level
    {
      ghost var s0 := Now();
      while openupval != [] && AtLeast(openupval[0], level)
        invariant Valid(Now()) && ClosedFrom(s0, Now(), level) && Counted(cells, Uses(closures))
        decreases |openupval|
      {
        ghost var s1 := Now();
        CloseFirst();
        ClosedStep(s0, s1, Now(), level);
      }
      RestBelow(Now(), level);
    }

    /** Leaves the variables from `level` up. */
    method Leave(level: nat)
      requires Ok() && level <= |stack|
      modifies this`stack, this`openupval, this`cells, this`scope, this`rep
      ensures Ok() && scope == Meaning(old(scope), Action.Leave(level))
    {
      ghost var s := Now();
      GoodOut(s, scope, rep);
      Close(level);
      ghost var s1 := Now();
      stack := stack[..level];
      LeftGood(s, s1, Now(), scope, rep, level);
      scope, rep := Meaning(scope, Action.Leave(level)), Only(rep, cells);
    }

    method Push(v: Value)
      requires Ok()
      modifies this`stack, this`scope
      ensures Ok() && scope == Meaning(old(scope), Action.Push(v))
    {
      PushedGood(Now(), scope, rep, v);
      stack := stack + [v];
      scope := Meaning(scope, Action.Push(v));
    }

    /** Assigns to a variable of the stack. */
    method SetLocal(level: nat, v: Value)
      requires Ok() && level < |stack|
      modifies this`stack, this`scope
      ensures Ok() && scope == Meaning(old(scope), Action.SetLocal(level, v))
    {
      SetGood(Now(), scope, rep, level, v);
      stack := stack[level := v];
      scope := Meaning(scope, Action.SetLocal(level, v));
    }

    /** Assigns to upvalue `i` of a closure. */
    method SetUpval(c: Closure, i: nat, v: Value)
      requires Ok() && i < Width(closures, c)
      modifies this`cells, this`stack, this`scope
      ensures Ok() && scope == Meaning(old(scope), Action.Set(c, i, v))
    {
      WrittenGood(Now(), scope, rep, c, i, v);
      Assign(closures[c][i], v);
      scope := Meaning(scope, Action.Set(c, i, v));
    }

    // ----- closures -----

    method NewClosure()
      requires Ok()
      modifies this`closures, this`scope
      ensures Ok() && closures == old(closures) + [[]]
      ensures scope == old(scope).(closures := old(scope).closures + [[]])
    {
      NewGood(Now(), scope, rep);
      closures := closures + [[]];
      scope := scope.(closures := scope.closures + [[]]);
    }

    /** The closure made last takes one more upvalue. */
    method Take(uv: UpVal)
      requires Ok() && closures != [] && uv in cells
      modifies this`cells, this`closures, this`scope
      ensures Ok() && closures == Added(old(closures), |old(closures)| - 1, uv)
      ensures uv in rep && |old(scope).closures| == |old(closures)|
      ensures scope == old(scope).(closures := Added(old(scope).closures, |old(closures)| - 1, rep[uv]))
    {
      ghost var s := Now();
      TakenGood(s, scope, rep, uv);
      cells := cells[uv := cells[uv].(refcount := cells[uv].refcount + 1)];
      closures := Added(closures, |closures| - 1, uv);
      scope := scope.(closures := Added(scope.closures, |scope.closures| - 1, rep[uv]));
      assert Now() == Taken(s, uv);
    }

    predicate Fits(outer: Closure, d: Desc)
      reads this
    {
      Known(|stack|, Width(closures, outer), d)
    }

    /** Makes a closure, which takes one upvalue after the other. */
    method PushClosure(outer: Closure, ds: seq<Desc>)
      requires Ok() && forall i :: 0 <= i < |ds| ==> Fits(outer, ds[i])
      modifies this`openupval, this`cells, this`next, this`closures, this`scope, this`rep
      ensures Ok() && scope == Meaning(old(scope), Make(outer, ds))
      ensures |closures| == |old(closures)| + 1 && closures[..|old(closures)|] == old(closures)
    {
      ghost var a := scope;
      Widths(Now(), scope, rep);
      NewClosure();
      assert closures[..|old(closures)|] == old(closures);
      for i := 0 to |ds|
        invariant Ok() && stack == old(stack)
        invariant |closures| == |old(closures)| + 1 && closures[..|old(closures)|] == old(closures)
        invariant scope == a.(closures := a.closures + [Picks(a, outer, ds[..i])])
      {
        assert ds[..i + 1] == ds[..i] + [ds[i]];
        TakeOne(outer, ds[i], a);
      }
      assert ds[..|ds|] == ds;
    }

    /** What one entry of the description gives to the new closure. */
    method TakeOne(outer: Closure, d: Desc, ghost a: Scope)
      requires Ok() && closures != [] && Known(|stack|, Width(closures[..|closures| - 1], outer), d)
      requires scope.frame == a.frame && scope.store == a.store && scope.next == a.next
      requires |scope.closures| == |a.closures| + 1 && scope.closures[..|a.closures|] == a.closures
      modifies this`openupval, this`cells, this`next, this`closures, this`scope, this`rep
      ensures Ok() && |closures| == |old(closures)| && closures[..|closures| - 1] == old(closures)[..|closures| - 1]
      ensures Known(|a.frame|, Width(a.closures, outer), d)
      ensures scope == old(scope).(closures := Added(old(scope).closures, |old(scope).closures| - 1, Pick(a, outer, d)))
    {
      GoodOut(Now(), scope, rep);
      var uv;
      match d {
        case InStack(level) => uv := Find(level);
        case OfOuter(i) =>
          uv := closures[outer][i];
          assert BoundTo(closures[outer], scope.closures[outer], rep);
      }
      Take(uv);
    }

    /** Gives a new closure `n` new closed upvalues that hold nil. */
    method InitUpvals(n: nat)
      requires Ok()
      modifies this`cells, this`next, this`closures, this`scope, this`rep
      ensures Ok() && scope == Meaning(old(scope), Fill(n))
      ensures n == 1 ==> closures == old(closures) + [[old(next)]]
      ensures n == 1 ==> cells == old(cells)[old(next) := Cell(1, Closed(0))]
    {
      NewClosure();
      ghost var a := scope;
      for i := 0 to n
        invariant Ok() && scope.closures != [] && closures != []
        invariant Filled(a, n) == Filled(scope, n - i)
        invariant i == 0 ==> closures == old(closures) + [[]] && cells == old(cells) && next == old(next)
        invariant i == 1 ==> closures == old(closures) + [[old(next)]]
        invariant i == 1 ==> cells == old(cells)[old(next) := Cell(1, Closed(0))]
      {
        AddedLast(old(closures), old(next));
        AddClosed();
      }
    }

    method AddClosed()
      requires Ok() && closures != []
      modifies this`cells, this`next, this`closures, this`scope, this`rep
      ensures Ok() && closures == Added(old(closures), |old(closures)| - 1, old(next)) && old(scope).closures != []
      ensures scope == Filled(old(scope), 1) && next == old(next) + 1
      ensures cells == old(cells)[old(next) := Cell(1, Closed(0))]
    {
      ghost var s := Now();
      ClosedGood(s, scope, rep);
      var uv := next;
      cells, next := cells[uv := Cell(1, Closed(0))], next + 1;
      closures := Added(closures, |closures| - 1, uv);
      rep := rep[uv := scope.next];
      scope := Filled(scope, 1);
      assert Now() == WithClosed(s);
    }

    /** One closure less refers to the upvalue; the last one to refer to a closed upvalue
        frees that. */
    method UpvDecCount(uv: UpVal)
      requires uv in cells && cells[uv].refcount > 0
      modifies this`cells
      ensures cells == Fewer(old(cells), uv)
    {
      var n := cells[uv].refcount - 1;
      if n == 0 && cells[uv].place.Closed? {
        cells := cells - {uv};
      } else {
        cells := cells[uv := cells[uv].(refcount := n)];
      }
    }

    /** Frees a closure. */
    method FreeClosure(c: Closure)
      requires Ok() && c < |closures|
      modifies this`cells, this`closures, this`scope, this`rep
      ensures Ok() && scope == Meaning(old(scope), Free(c))
    {
      ghost var s, a := Now(), scope;
      var ups := closures[c];
      Widths(s, a, rep);
      closures, scope := closures[c := []], Meaning(a, Free(c));
      Halfway(s, Now(), a, rep, c);
      assert ups[0..] == ups;
      for i := 0 to |ups|
        invariant scope == Meaning(a, Free(c)) && Freeing(Now(), scope, rep, multiset(ups[i..]))
      {
        HeadApart(ups, i);
        FreeOne(ups[i], multiset(ups[i + 1..]));
      }
      assert ups[|ups|..] == [];
      Freed(Now(), scope, rep);
    }

    lemma HeadApart(ups: seq<UpVal>, i: nat)
      requires i < |ups|
      ensures multiset(ups[i..]) == multiset{ups[i]} + multiset(ups[i + 1..])
    {
      assert ups[i..] == [ups[i]] + ups[i + 1..];
    }

    method FreeOne(uv: UpVal, ghost rest: multiset<UpVal>)
      requires Freeing(Now(), scope, rep, multiset{uv} + rest)
      modifies this`cells, this`rep
      ensures Freeing(Now(), scope, rep, rest)
    {
      FreeingOne(Now(), scope, rep, uv, rest);
      UpvDecCount(uv);
      rep := Only(rep, cells);
    }

    /** Makes upvalue `i` of closure `c` the upvalue `j` of `from`. When both are one closed
        upvalue with no other user, it is freed before it is taken again, and `ok` is false;
        otherwise the closure holds the other variable from now on. */
    method UpvalueJoin(c: Closure, i: nat, from: Closure, j: nat) returns (ok: bool)
      requires Ok() && i < Width(closures, c) && j < Width(closures, from)
      modifies this`cells, this`closures, this`scope, this`rep
      ensures ok <==> !Alone(old(cells), old(closures)[c][i], old(closures)[from][j])
      ensures ok ==> Ok() && scope == Meaning(old(scope), Join(c, i, from, j))
      ensures !ok ==> closures == old(closures) && closures[c][i] !in cells
    {
      ghost var s := Now();
      var uv1, uv2 := closures[c][i], closures[from][j];
      JoinGood(s, scope, rep, c, i, from, j);
      UpvDecCount(uv1);
      ok := uv2 in cells;
      if ok {
        TakeOver(c, i, uv2);
        scope, rep := Meaning(scope, Join(c, i, from, j)), Only(rep, cells);
        assert Now() == Joined(s, c, i, uv2);
      }
    }

    method TakeOver(c: Closure, i: nat, uv: UpVal)
      requires i < Width(closures, c) && uv in cells
      modifies this`cells, this`closures
      ensures closures == Placed(old(closures), c, i, uv)
      ensures cells == old(cells)[uv := old(cells)[uv].(refcount := old(cells)[uv].refcount + 1)]
    {
      closures := Placed(closures, c, i, uv);
      cells := cells[uv := cells[uv].(refcount := cells[uv].refcount + 1)];
    }

    /** Whether the upvalue stands where a new closure would find its own. */
    predicate SamePlace(u: UpVal, outer: Closure, d: Desc)
      requires u in cells && Fits(outer, d)
      reads this
    {
      match d
      case InStack(level) => cells[u].place == Open(level)
      case OfOuter(k) =>
        var w := closures[outer][k];
        w == u || (w in cells && cells[w].place.Open? && cells[u].place == cells[w].place)
    }

    /** Whether closure `c`, the last one made from a prototype, will do for a new one: it
        does exactly when it holds the variables that the new one would. */
    method GetCached(c: Closure, outer: Closure, ds: seq<Desc>) returns (hit: bool)
      requires Ok() && c < |closures| && |closures[c]| == |ds|
      requires forall i :: 0 <= i < |ds| ==> Fits(outer, ds[i])
      ensures Picked(scope, outer, ds) && |scope.closures| == |closures|
      ensures hit <==> scope.closures[c] == Picks(scope, outer, ds)
    {
      Widths(Now(), scope, rep);
      UpvalsThere(Now(), scope, rep, c);
      for i := 0 to |ds|
        invariant forall k :: 0 <= k < i ==> scope.closures[c][k] == Pick(scope, outer, ds[k])
      {
        PlaceOfVar(c, i, outer, ds[i]);
        if !SamePlace(closures[c][i], outer, ds[i]) {
          return false;
        }
      }
      return true;
    }

    lemma PlaceOfVar(c: Closure, i: nat, outer: Closure, d: Desc)
      requires Ok() && i < Width(closures, c) && Fits(outer, d)
      ensures closures[c][i] in cells && i < Width(scope.closures, c)
      ensures Known(|scope.frame|, Width(scope.closures, outer), d)
      ensures SamePlace(closures[c][i], outer, d) <==> scope.closures[c][i] == Pick(scope, outer, d)
    {
      Widths(Now(), scope, rep);
      GoodOut(Now(), scope, rep);
      var u := closures[c][i];
      assert BoundTo(closures[c], scope.closures[c], rep);
      assert CellHolds(Now(), scope, u, rep[u]);
      if d.OfOuter? {
        var w := closures[outer][d.i];
        assert BoundTo(closures[outer], scope.closures[outer], rep);
        assert CellHolds(Now(), scope, w, rep[w]);
      }
    }

    // ----- runs -----

    predicate MayMake(outer: Closure, ds: seq<Desc>)
      reads this
    {
      forall i :: 0 <= i < |ds| ==> Fits(outer, ds[i])
    }

    /** One action of the program or of the collector. A join that would free what it is
        about to take is left out; it means no change. */
    method Perform(act: Action)
      requires Ok()
      modifies this
      ensures Ok() && scope == Meaning(old(scope), act)
    {
      Widths(Now(), scope, rep);
      match act {
        case Push(v) => Push(v);
        case SetLocal(level, v) => if level < |stack| { SetLocal(level, v); }
        case Leave(level) => if level <= |stack| { Leave(level); }
        case Make(outer, ds) => if MayMake(outer, ds) { PushClosure(outer, ds); }
        case Fill(n) => InitUpvals(n);
        case Set(c, i, v) => if i < Width(closures, c) { SetUpval(c, i, v); }
        case Free(c) => if c < |closures| { FreeClosure(c); }
        case Join(c, i, from, j) =>
          if i < Width(closures, c) && j < Width(closures, from) {
            if Alone(cells, closures[c][i], closures[from][j]) {
              SameJoin(Now(), scope, rep, c, i, from, j);
            } else {
              var _ := UpvalueJoin(c, i, from, j);
            }
          }
      }
    }

    /** In every run a closure reads what was last assigned to the variables it captured,
        through whatever closure or frame, even when the frame is gone; and two closures
        share an upvalue exactly when they share a variable. */
    method Run(acts: seq<Action>)
      requires Ok()
      modifies this
      ensures Ok() && scope == Meanings(old(scope), acts) && Faithful(Now(), scope)
    {
      ghost var a := scope;
      for i := 0 to |acts|
        invariant Ok() && scope == Meanings(a, acts[..i])
      {
        Perform(acts[i]);
        assert acts[..i + 1][..i] == acts[..i];
      }
      assert acts[..|acts|] == acts;
      GoodOut(Now(), scope, rep);
      HoldsFaithful(Now(), scope, rep);
    }
  }

  /** A closure with one closed upvalue that is joined to itself loses it. */
  method JoinExample() returns (g: LuaState)
    ensures g.closures == [[0]] && 0 !in g.cells
  {
    g := new LuaState();
    g.InitUpvals(1);
    var ok := g.UpvalueJoin(0, 0, 0, 0);
  }
}
