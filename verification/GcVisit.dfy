/** Taking an object from a gray list, and what becomes of it after its visit. */
module GcVisit {
  import opened Prelude
  import opened GcHeap
  import opened GcWorld
  import opened GcLimits

  ghost predicate Suffix(a: seq<Obj>, b: seq<Obj>) {
    |a| <= |b| && b[|b| - |a|..] == a
  }

  lemma SuffixTransitive(a: seq<Obj>, b: seq<Obj>, c: seq<Obj>)
    requires Suffix(a, b) && Suffix(b, c)
    ensures Suffix(a, c)
  {
    assert c[|c| - |a|..] == c[|c| - |b|..][|b| - |a|..];
  }

  /** From `w` to `w2` objects were visited: more is marked, entries were emptied,
      and tables were put in front of the lists of tables to be cleared. */
  ghost predicate Advance(w: World, w2: World) {
    && w2 == w.(heap := w2.heap, color := w2.color, gray := w2.gray, grayagain := w2.grayagain,
                weak := w2.weak, ephemeron := w2.ephemeron, allweak := w2.allweak)
    && |Whites(w2.color)| <= |Whites(w.color)| && Work(w2) <= Work(w)
    && forall k :: Key(k) ==> AdvanceKeyed(w, w2)
  }

  ghost predicate AdvanceKeyed(w: World, w2: World) {
    && Tidied(w.heap, w2.heap) && OnlyMarks(w.color, w2.color)
    && Marked(w.color) <= Marked(w2.color)
    && Suffix(w.weak, w2.weak) && Suffix(w.allweak, w2.allweak)
    && (w.phase == Propagate ==> InLists(w, w2))
  }

  /** During the propagation only all-weak tables go to a list of tables to be cleared. */
  ghost predicate InLists(w: World, w2: World) {
    && w2.weak == w.weak && w2.ephemeron == w.ephemeron
    && forall o :: o in w2.allweak ==>
         o in w.allweak || (o in w2.heap.objs && TableMode(w2.heap, o) == AllWeak)
  }

  lemma InListsTransitive(w: World, w1: World, w2: World)
    requires InLists(w, w1) && InLists(w1, w2) && Trimmed(w1.heap, w2.heap)
    ensures InLists(w, w2)
  {
    forall o | o in w2.allweak && o !in w.allweak
      ensures o in w2.heap.objs && TableMode(w2.heap, o) == AllWeak
    {
      if o in w1.allweak { TrimmedParts(w1.heap, w2.heap, iset{}, o); }
    }
  }

  lemma AdvanceOut(w: World, w2: World)
    requires Advance(w, w2)
    ensures AdvanceKeyed(w, w2)
  {
    assert Key(0);
  }

  lemma AdvanceTransitive(w: World, w1: World, w2: World)
    requires Advance(w, w1) && Advance(w1, w2)
    ensures Advance(w, w2)
  {
    AdvanceOut(w, w1);
    AdvanceOut(w1, w2);
    TidiedTransitive(w.heap, w1.heap, w2.heap);
    SuffixTransitive(w.weak, w1.weak, w2.weak);
    SuffixTransitive(w.allweak, w1.allweak, w2.allweak);
    if w.phase == Propagate { InListsTransitive(w, w1, w2); }
  }

  lemma SpreadAdvance(w: World, w2: World)
    requires Spread(w, w2)
    ensures Advance(w, w2)
  {
    SpreadOut(w, w2);
  }

  // ----- the head of the gray list -----

  lemma Popped(w: World, o: Obj, w2: World, todo: seq<Obj>, X: iset<Obj>)
    requires Marking(w, todo, iset{}, X) && w.gray != [] && o == w.gray[0]
    requires w2 == w.(gray := w.gray[1..], color := w.color[o := Black])
    ensures o in w.color && w.color[o] == Gray && !Leaf(w.heap.objs[o].kind)
    ensures Visiting(w2, o, todo, X) && Advance(w, w2) && Work(w2) < Work(w)
  {
    PoppedMarking(w, o, w2, todo, X);
    PoppedAdvance(w, o, w2);
  }

  lemma PoppedMarking(w: World, o: Obj, w2: World, todo: seq<Obj>, X: iset<Obj>)
    requires Marking(w, todo, iset{}, X) && w.gray != [] && o == w.gray[0]
    requires w2 == w.(gray := w.gray[1..], color := w.color[o := Black])
    ensures ListedOk(w, o) && Marking(w2, todo, iset{o}, X) && Listings(w2, todo)[o] == 0
  {
    Unfold(w, todo, iset{}, X);
    PoppedListed(w, o, w2, todo);
    PoppedTricolor(w, o, w2, todo);
    PoppedBlind(w, o, w2, todo);
    PoppedSound(w, o, w2, X);
  }

  lemma PoppedSound(w: World, o: Obj, w2: World, X: iset<Obj>)
    requires Sound(w) && Bounded(w, X) && o in w.color && !w.color[o].White? && StaleWaits(w)
    requires w2 == w.(gray := w2.gray, color := w.color[o := Black])
    ensures Sound(w2) && Bounded(w2, X) && StaleWaits(w2)
  {
    Recolored(w.color, o, w2.color);
    RecoloredSound(w, w2, X);
  }

  lemma PoppedBlind(w: World, o: Obj, w2: World, todo: seq<Obj>)
    requires BlindApart(w, todo, iset{}) && ThreadsGray(w, iset{}) && w.gray != [] && o == w.gray[0]
    requires w2 == w.(gray := w.gray[1..], color := w.color[o := Black])
    ensures BlindApart(w2, todo, iset{o}) && ThreadsGray(w2, iset{o})
  {
    assert forall p :: p in w2.gray ==> p in w.gray;
  }

  lemma Recolored(c: map<Obj, Color>, o: Obj, c2: map<Obj, Color>)
    requires o in c && !c[o].White? && c2.Keys == c.Keys && !c2[o].White?
    requires forall p :: p in c && p != o ==> c2[p] == c[p]
    ensures Marked(c2) == Marked(c) && Whites(c2) == Whites(c)
  {
  }

  lemma RecoloredSound(w: World, w2: World, X: iset<Obj>)
    requires Sound(w) && Bounded(w, X) && w2.heap == w.heap && w2.color.Keys == w.color.Keys
    requires Marked(w2.color) == Marked(w.color) && w2.stale == w.stale && w2.blind == w.blind
    ensures Sound(w2) && Bounded(w2, X)
  {
    assert Allocated(w2.color) == Allocated(w.color);
  }

  lemma PoppedAdvance(w: World, o: Obj, w2: World)
    requires w.gray != [] && o in w.color && !w.color[o].White?
    requires w2 == w.(gray := w.gray[1..], color := w.color[o := Black])
    ensures Advance(w, w2) && Work(w2) < Work(w)
  {
    assert Whites(w2.color) == Whites(w.color);
    assert Marked(w2.color) == Marked(w.color);
    TrimmedSelf(w.heap);
    assert AdvanceKeyed(w, w2);
  }

  lemma PoppedListed(w: World, o: Obj, w2: World, todo: seq<Obj>)
    requires Listed(w, todo) && w.gray != [] && o == w.gray[0]
    requires w2 == w.(gray := w.gray[1..], color := w.color[o := Black])
    ensures Listed(w2, todo) && Listings(w2, todo)[o] == 0 && ListedOk(w, o)
  {
    var L, L2 := Listings(w, todo), Listings(w2, todo);
    assert w.gray == [o] + w.gray[1..];
    assert L == L2 + multiset{o};
    assert L[o] <= 1 && (L[o] == 1 ==> ListedOk(w, o));
    forall p ensures L2[p] <= 1 && (L2[p] == 1 ==> ListedOk(w2, p)) {
      assert L[p] <= 1 && (L[p] == 1 ==> ListedOk(w, p));
    }
  }

  lemma PoppedTricolor(w: World, o: Obj, w2: World, todo: seq<Obj>)
    requires Tricolor(w, todo, iset{}) && GrayListed(w, todo, iset{})
    requires w.gray != [] && o == w.gray[0]
    requires w2 == w.(gray := w.gray[1..], color := w.color[o := Black])
    requires o in w.color && !w.color[o].White?
    ensures Tricolor(w2, todo, iset{o}) && GrayListed(w2, todo, iset{o})
  {
    TrimmedSelf(w.heap);
    assert Marked(w2.color) == Marked(w.color);
    forall p | p in w2.heap.objs && p in w2.color && !w2.color[p].White?
      && p !in iset{o} && !Pending(w2, todo, p)
      ensures Visited(w2, p)
    {
      assert !Pending(w, todo, p);
      VisitedGrows(w, w2, p);
    }
    forall p | w.phase == Propagate && p in w2.color && w2.color[p] == Gray && p !in iset{o}
      && p !in w2.fixedgc && p !in w2.blind
      ensures Pending(w2, todo, p) || Cleared(w2, p)
    {
      assert Pending(w, todo, p) || Cleared(w, p);
    }
  }

  // ----- putting the visited object somewhere -----

  /** `o`, now gray, was put in front of the list of its kind or in none. */
  ghost predicate Links(w: World, o: Obj, w2: World) {
    && w2 == w.(grayagain := w2.grayagain, weak := w2.weak, ephemeron := w2.ephemeron,
                allweak := w2.allweak)
    && var a := w2.grayagain == [o] + w.grayagain;
       var b := w2.weak == [o] + w.weak;
       var c := w2.ephemeron == [o] + w.ephemeron;
       var d := w2.allweak == [o] + w.allweak;
       && (a || w2.grayagain == w.grayagain) && (b || w2.weak == w.weak)
       && (c || w2.ephemeron == w.ephemeron) && (d || w2.allweak == w.allweak)
       && !(a && b) && !(a && c) && !(a && d) && !(b && c) && !(b && d) && !(c && d)
  }

  lemma LinksListed(w: World, o: Obj, w2: World, todo: seq<Obj>)
    requires Links(w, o, w2) && Listed(w, todo) && Listings(w, todo)[o] == 0
    requires o in w.heap.objs && o in w.color && w.color[o] == Gray && !Leaf(w.heap.objs[o].kind)
    requires w2.grayagain == w.grayagain ==> w.heap.objs[o].kind == Table
    ensures Listed(w2, todo)
  {
    LinksListings(w, o, w2, todo);
    NotCleared(w, todo, o);
    var L, L2 := Listings(w, todo), Listings(w2, todo);
    forall p ensures L2[p] <= 1 && (L2[p] == 1 ==> ListedOk(w2, p)) {
      assert L[p] <= 1 && (L[p] == 1 ==> ListedOk(w, p));
      LinksOthers(w, o, w2, p);
      if p != o { assert L2[p] == L[p]; }
    }
  }

  lemma LinksOthers(w: World, o: Obj, w2: World, p: Obj)
    requires Links(w, o, w2)
    ensures p != o ==> (p in w2.grayagain <==> p in w.grayagain) && (p in w2.weak <==> p in w.weak)
    ensures p != o ==> (p in w2.ephemeron <==> p in w.ephemeron) && (p in w2.allweak <==> p in w.allweak)
    ensures w2.grayagain != w.grayagain && Cleared(w2, o) ==> Cleared(w, o)
  {
  }

  lemma LinksListings(w: World, o: Obj, w2: World, todo: seq<Obj>)
    requires Links(w, o, w2)
    ensures Listings(w2, todo) == Listings(w, todo)
      || Listings(w2, todo) == Listings(w, todo) + multiset{o}
  {
    var none := w2.grayagain == w.grayagain && w2.weak == w.weak && w2.ephemeron == w.ephemeron;
    if w2.grayagain == [o] + w.grayagain {
      assert multiset(w2.grayagain) == multiset{o} + multiset(w.grayagain);
    } else if w2.weak == [o] + w.weak {
      assert multiset(w2.weak) == multiset{o} + multiset(w.weak);
    } else if w2.ephemeron == [o] + w.ephemeron {
      assert multiset(w2.ephemeron) == multiset{o} + multiset(w.ephemeron);
    } else if none && w2.allweak == [o] + w.allweak {
      assert multiset(w2.allweak) == multiset{o} + multiset(w.allweak);
    }
  }

  lemma LinksTricolor(w: World, o: Obj, w2: World, todo: seq<Obj>)
    requires Links(w, o, w2) && Tricolor(w, todo, iset{o}) && GrayListed(w, todo, iset{o})
    requires o in w.heap.objs
    requires Pending(w2, todo, o) || Visited(w2, o)
    requires w.phase == Propagate ==> Pending(w2, todo, o) || Cleared(w2, o)
    ensures Tricolor(w2, todo, iset{}) && GrayListed(w2, todo, iset{})
  {
    TrimmedSelf(w.heap);
    forall p | p in w2.heap.objs && p in w2.color && !w2.color[p].White?
      && p !in iset{} && !Pending(w2, todo, p)
      ensures Visited(w2, p)
    {
      LinksOthers(w, o, w2, p);
      if p != o {
        assert !Pending(w, todo, p);
        VisitedGrows(w, w2, p);
      }
    }
    forall p | w.phase == Propagate && p in w2.color && w2.color[p] == Gray && p !in w2.fixedgc && p !in w2.blind
      ensures Pending(w2, todo, p) || Cleared(w2, p)
    {
      LinksOthers(w, o, w2, p);
      if p != o { assert Pending(w, todo, p) || Cleared(w, p); }
    }
  }

  lemma LinksBlind(w: World, o: Obj, w2: World, todo: seq<Obj>)
    requires Links(w, o, w2) && BlindApart(w, todo, iset{o})
    ensures BlindApart(w2, todo, iset{})
  {
    forall p | p in w2.blind ensures !Pending(w2, todo, p) && !Cleared(w2, p) {
      assert p != o;
      LinksOthers(w, o, w2, p);
    }
  }

  lemma Linked(w: World, o: Obj, w2: World, todo: seq<Obj>, X: iset<Obj>)
    requires Visiting(w, o, todo, X) && Links(w, o, w2) && w.color[o] == Gray
    requires !Leaf(w.heap.objs[o].kind)
    requires w2.grayagain == w.grayagain ==> w.heap.objs[o].kind == Table
    requires Pending(w2, todo, o) || Visited(w2, o)
    requires w.phase == Propagate ==> Pending(w2, todo, o) || Cleared(w2, o)
    requires w.phase == Propagate ==> InLists(w, w2)
    ensures Marking(w2, todo, iset{}, X) && Advance(w, w2)
  {
    Unfold(w, todo, iset{o}, X);
    assert Listings(w, todo)[o] == 0 by { assert Key(0); }
    LinksListed(w, o, w2, todo);
    LinksTricolor(w, o, w2, todo);
    LinksBlind(w, o, w2, todo);
    LinkedAdvance(w, o, w2);
    assert MarkingKeyed(w2, todo, iset{}, X);
  }

  lemma LinkedAdvance(w: World, o: Obj, w2: World)
    requires Links(w, o, w2) && Sound(w) && (w.phase == Propagate ==> InLists(w, w2))
    ensures Advance(w, w2) && Sound(w2)
  {
    TrimmedSelf(w.heap);
    SoundTrimmed(w, w2);
    assert AdvanceKeyed(w, w2);
  }

  /** Turning the visited object gray again. */
  lemma Regrayed(w: World, o: Obj, todo: seq<Obj>, X: iset<Obj>)
    requires Visiting(w, o, todo, X)
    ensures var w2 := w.(color := w.color[o := Gray]);
      Visiting(w2, o, todo, X) && Advance(w, w2) && Marked(w2.color) == Marked(w.color)
  {
    var w2 := w.(color := w.color[o := Gray]);
    assert Listings(w, todo)[o] == 0 by { assert Key(0); }
    RegrayedMarking(w, o, w2, todo, X);
    RegrayedAdvance(w, o, w2);
  }

  lemma RegrayedAdvance(w: World, o: Obj, w2: World)
    requires o in w.color && !w.color[o].White? && w2 == w.(color := w.color[o := Gray])
    ensures Advance(w, w2)
  {
    assert Whites(w2.color) == Whites(w.color);
    assert Marked(w2.color) == Marked(w.color);
    TrimmedSelf(w.heap);
    assert AdvanceKeyed(w, w2);
  }

  lemma RegrayedMarking(w: World, o: Obj, w2: World, todo: seq<Obj>, X: iset<Obj>)
    requires Marking(w, todo, iset{o}, X) && o in w.color && !w.color[o].White?
    requires w2 == w.(color := w.color[o := Gray])
    ensures Marking(w2, todo, iset{o}, X) && Listings(w2, todo) == Listings(w, todo)
  {
    Unfold(w, todo, iset{o}, X);
    assert Marked(w2.color) == Marked(w.color);
    RecoloredSound(w, w2, X);
    RegrayedListed(w, o, w2, todo);
    RegrayedTricolor(w, o, w2, todo);
  }

  lemma RegrayedListed(w: World, o: Obj, w2: World, todo: seq<Obj>)
    requires Listed(w, todo) && w2 == w.(color := w.color[o := Gray])
    ensures Listed(w2, todo) && Listings(w2, todo) == Listings(w, todo)
  {
    var L, L2 := Listings(w, todo), Listings(w2, todo);
    assert L2 == L;
    forall p ensures L2[p] <= 1 && (L2[p] == 1 ==> ListedOk(w2, p)) {
      assert L[p] <= 1 && (L[p] == 1 ==> ListedOk(w, p));
    }
  }

  lemma RegrayedTricolor(w: World, o: Obj, w2: World, todo: seq<Obj>)
    requires Tricolor(w, todo, iset{o}) && GrayListed(w, todo, iset{o})
    requires o in w.color && !w.color[o].White? && w2 == w.(color := w.color[o := Gray])
    ensures Tricolor(w2, todo, iset{o}) && GrayListed(w2, todo, iset{o})
  {
    TrimmedSelf(w.heap);
    assert Marked(w2.color) == Marked(w.color);
    forall p | p in w2.heap.objs && p in w2.color && !w2.color[p].White?
      && p !in iset{o} && !Pending(w2, todo, p)
      ensures Visited(w2, p)
    {
      assert !Pending(w, todo, p);
      VisitedGrows(w, w2, p);
    }
    forall p | w.phase == Propagate && p in w2.color && w2.color[p] == Gray && p !in iset{o}
      && p !in w2.fixedgc && p !in w2.blind
      ensures Pending(w2, todo, p) || Cleared(w2, p)
    {
      assert Pending(w, todo, p) || Cleared(w, p);
    }
  }

  // ----- strings -----

  /** Only strings were marked, and entries emptied. */
  ghost predicate Strings(w: World, w2: World) {
    && Spread(w, w2) && w2.gray == w.gray
    && forall k :: Key(k) ==> StringsKeyed(w, w2)
  }

  ghost predicate StringsKeyed(w: World, w2: World) {
    forall o :: o in w.color && o in w.heap.objs && w.color[o].White? && o in Marked(w2.color) ==>
      w.heap.objs[o].kind == Str
  }

  lemma StringsOut(w: World, w2: World)
    requires Strings(w, w2)
    ensures StringsKeyed(w, w2)
  {
    assert Key(0);
  }

  lemma StringsTransitive(w: World, w1: World, w2: World)
    requires Strings(w, w1) && Strings(w1, w2) && w.color.Keys <= w.heap.objs.Keys
    ensures Strings(w, w2)
  {
    SpreadTransitive(w, w1, w2);
    SpreadOut(w, w1);
    SpreadOut(w1, w2);
    StringsOut(w, w1);
    StringsOut(w1, w2);
    forall o | o in w.color && o in w.heap.objs && w.color[o].White? && o in Marked(w2.color)
      ensures w.heap.objs[o].kind == Str
    {
      assert RecordTrimmed(w.heap.objs[o], w1.heap.objs[o]);
    }
  }

  /** An unmarked object that is not a string stays unmarked. */
  lemma StaysWhite(w: World, w2: World, v: Value)
    requires Strings(w, w2) && In(Allocated(w.color), v) && !IsStr(w.heap, v)
    requires w.color.Keys <= w.heap.objs.Keys
    ensures In(Marked(w2.color), v) ==> In(Marked(w.color), v)
  {
    StringsOut(w, w2);
  }

  lemma SameColorStrings(w: World, w2: World)
    requires Spread(w, w2) && w2 == w.(heap := w2.heap)
    ensures Strings(w, w2)
  {
    assert StringsKeyed(w, w2);
  }

  lemma MarkedString(w: World, o: Obj, todo: seq<Obj>, busy: iset<Obj>, X: iset<Obj>)
    requires Marking(w, todo, busy, X) && o in w.color && w.color[o].White? && o in X
    requires w.heap.objs[o].kind == Str
    ensures var w2 := w.(color := w.color[o := Black]);
      Marking(w2, todo, busy, X) && Strings(w, w2)
  {
    MarkedBlack(w, o, todo, busy, X);
    assert StringsKeyed(w, w.(color := w.color[o := Black]));
  }

  // ----- ephemeron entries -----

  /** Marking more strings cannot make this entry due again. */
  ghost predicate Settled(h: Heap, M: iset<Obj>, n: Node) {
    n.val != Nil ==> (IsStr(h, n.key) ==> In(M, n.key)) && (In(M, n.key) ==> In(M, n.val))
  }

  ghost predicate AllSettled(h: Heap, M: iset<Obj>, s: seq<Node>) {
    forall i :: 0 <= i < |s| ==> Settled(h, M, s[i])
  }

  lemma SettledStep(w: World, w2: World, o: Obj, i: nat, todo: seq<Obj>, X: iset<Obj>)
    requires Visiting(w, o, todo, X) && EntryStep(w, w2, o, i) && Strings(w, w2)
    requires AllSettled(w.heap, Marked(w.color), NodesOf(w, o)[..i])
    requires Settled(w2.heap, Marked(w2.color), NodesOf(w2, o)[i])
    ensures AllSettled(w2.heap, Marked(w2.color), NodesOf(w2, o)[..i + 1])
  {
    var t := NodesOf(w2, o)[..i + 1];
    InBound(w, o, todo, iset{o}, X);
    forall k | 0 <= k < |t| ensures Settled(w2.heap, Marked(w2.color), t[k]) {
      if k < i {
        assert t[k] == NodesOf(w, o)[..i][k] == NodesOf(w, o)[k];
        SettledKept(w, w2, t[k]);
      }
    }
  }

  lemma SettledKept(w: World, w2: World, n: Node)
    requires Strings(w, w2) && Settled(w.heap, Marked(w.color), n)
    requires In(Allocated(w.color), n.key) && w.color.Keys <= w.heap.objs.Keys
    ensures Settled(w2.heap, Marked(w2.color), n)
  {
    SpreadOut(w, w2);
    SameStr(w.heap, w2.heap, n.key);
    if !IsStr(w.heap, n.key) { StaysWhite(w, w2, n.key); }
  }

  /** The references of a table that are strong in every mode. */
  ghost predicate HeadIn(w: World, o: Obj)
    requires o in w.heap.objs
  {
    var r := w.heap.objs[o];
    r.kind == Table && In(Marked(w.color), r.meta) && r.cache == Nil && r.ups == []
  }

  lemma HeadKept(w: World, w2: World, o: Obj)
    requires Spread(w, w2) && o in w.heap.objs && HeadIn(w, o)
    ensures o in w2.heap.objs && HeadIn(w2, o) && TableMode(w2.heap, o) == TableMode(w.heap, o)
  {
    SpreadOut(w, w2);
    assert RecordTrimmed(w.heap.objs[o], w2.heap.objs[o]);
    TrimmedParts(w.heap, w2.heap, iset{}, o);
  }

  lemma Unlisted(w: World, o: Obj, todo: seq<Obj>, X: iset<Obj>)
    requires Visiting(w, o, todo, X)
    ensures !Cleared(w, o) && !Pending(w, todo, o)
  {
    assert Key(0);
    NotCleared(w, todo, o);
  }

  /** The visited object has to be visited again. */
  lemma LinkedAgain(w: World, o: Obj, todo: seq<Obj>, X: iset<Obj>)
    requires Visiting(w, o, todo, X) && w.color[o] == Gray && !Leaf(w.heap.objs[o].kind)
    requires w.phase != InsideAtomic
    ensures var w2 := w.(grayagain := [o] + w.grayagain);
      Marking(w2, todo, iset{}, X) && Advance(w, w2)
  {
    var w2 := w.(grayagain := [o] + w.grayagain);
    assert Again(w2)[0] == o;
    Linked(w, o, w2, todo, X);
  }

  lemma LinkedWeak(w: World, o: Obj, todo: seq<Obj>, X: iset<Obj>)
    requires Visiting(w, o, todo, X) && w.color[o] == Gray
    requires HeadIn(w, o) && TableMode(w.heap, o) == WeakValues && w.phase != Propagate
    requires KeysIn(Marked(w.color), NodesOf(w, o))
    ensures var w2 := w.(weak := [o] + w.weak);
      Marking(w2, todo, iset{}, X) && Advance(w, w2)
  {
    var w2 := w.(weak := [o] + w.weak);
    Unlisted(w, o, todo, X);
    assert w2.weak[0] == o;
    Linked(w, o, w2, todo, X);
  }

  lemma LinkedEphemeron(w: World, o: Obj, todo: seq<Obj>, X: iset<Obj>)
    requires Visiting(w, o, todo, X) && w.color[o] == Gray
    requires HeadIn(w, o) && TableMode(w.heap, o) == Ephemeron && w.phase != Propagate
    requires SlotsIn(Marked(w.color), SlotsOf(w, o))
    ensures var w2 := w.(ephemeron := [o] + w.ephemeron);
      Marking(w2, todo, iset{}, X) && Advance(w, w2)
  {
    var w2 := w.(ephemeron := [o] + w.ephemeron);
    Unlisted(w, o, todo, X);
    assert w2.ephemeron[0] == o;
    Linked(w, o, w2, todo, X);
  }

  lemma LinkedAllweak(w: World, o: Obj, todo: seq<Obj>, X: iset<Obj>)
    requires Visiting(w, o, todo, X) && w.color[o] == Gray && HeadIn(w, o)
    requires TableMode(w.heap, o) == AllWeak ||
      (w.phase != Propagate && TableMode(w.heap, o) == Ephemeron
       && SlotsIn(Marked(w.color), SlotsOf(w, o)) && ValsIn(Marked(w.color), NodesOf(w, o)))
    ensures var w2 := w.(allweak := [o] + w.allweak);
      Marking(w2, todo, iset{}, X) && Advance(w, w2)
  {
    var w2 := w.(allweak := [o] + w.allweak);
    Unlisted(w, o, todo, X);
    assert w2.allweak[0] == o;
    Linked(w, o, w2, todo, X);
  }

  /** A weak table without anything to clear needs no list in the atomic step. */
  lemma LinkedNowhere(w: World, o: Obj, todo: seq<Obj>, X: iset<Obj>)
    requires Visiting(w, o, todo, X) && w.color[o] == Gray && w.phase != Propagate
    requires HeadIn(w, o) && SlotsIn(Marked(w.color), SlotsOf(w, o))
    requires KeysIn(Marked(w.color), NodesOf(w, o)) && ValsIn(Marked(w.color), NodesOf(w, o))
    ensures Marking(w, todo, iset{}, X) && Advance(w, w)
  {
    Unlisted(w, o, todo, X);
    Linked(w, o, w, todo, X);
  }

  lemma EphemeronBound(w: World, o: Obj, i: nat, todo: seq<Obj>, X: iset<Obj>)
    requires Visiting(w, o, todo, X) && i < |NodesOf(w, o)| && TableMode(w.heap, o) == Ephemeron
    requires NodesOf(w, o)[i].val != Nil
    ensures var n := NodesOf(w, o)[i];
      WeakIn(w.heap, X, n.key, true) && (In(Marked(w.color), n.key) ==> In(X, n.val))
  {
    EntryBound(w, o, i, todo, X);
    Unfold(w, todo, iset{o}, X);
  }

  lemma AllSettledKept(w: World, w2: World, o: Obj)
    requires Strings(w, w2) && Sound(w) && o in w.heap.objs
    requires AllSettled(w.heap, Marked(w.color), NodesOf(w, o))
    ensures AllSettled(w2.heap, Marked(w2.color), NodesOf(w2, o))
  {
    SpreadOut(w, w2);
    var r, r2 := w.heap.objs[o], w2.heap.objs[o];
    assert RecordTrimmed(r, r2);
    assert RefsIn(w.heap, Allocated(w.color), o);
    forall i | 0 <= i < |r2.nodes| ensures Settled(w2.heap, Marked(w2.color), r2.nodes[i]) {
      assert NodeTrimmed(r.nodes[i], r2.nodes[i]);
      if r2.nodes[i] == r.nodes[i] { SettledKept(w, w2, r.nodes[i]); }
    }
  }

  /** `w2` but for the lists tables are linked into. */
  ghost function Unlinked(w2: World, w: World): World {
    w2.(grayagain := w.grayagain, weak := w.weak, ephemeron := w.ephemeron, allweak := w.allweak)
  }

  lemma NoStrings(w: World)
    ensures Strings(w, w)
  {
    NoSpread(w);
  }

  /** A thread goes to `grayagain` before its stack is marked. */
  lemma ThreadLinked(w: World, o: Obj, todo: seq<Obj>, X: iset<Obj>)
    requires Visiting(w, o, todo, X) && w.heap.objs[o].kind == Thread && w.color[o] == Gray
    ensures var w2 := w.(grayagain := [o] + w.grayagain);
      Marking(w2, todo, iset{o}, X) && Advance(w, w2)
  {
    var w2 := w.(grayagain := [o] + w.grayagain);
    Unfold(w, todo, iset{o}, X);
    assert Listings(w, todo)[o] == 0 by { assert Key(0); }
    LinksListed(w, o, w2, todo);
    AgainTricolor(w, o, w2, todo);
    AgainBlind(w, o, w2, todo);
    SoundSame(w, w2);
    assert MarkingKeyed(w2, todo, iset{o}, X);
    TrimmedSelf(w.heap);
    assert AdvanceKeyed(w, w2);
  }

  lemma AgainBlind(w: World, o: Obj, w2: World, todo: seq<Obj>)
    requires BlindApart(w, todo, iset{o}) && w2 == w.(grayagain := [o] + w.grayagain)
    ensures BlindApart(w2, todo, iset{o})
  {
  }

  lemma SoundSame(w: World, w2: World)
    requires Sound(w) && w2.heap == w.heap && w2.color == w.color
    ensures Sound(w2)
  {
  }

  lemma AgainTricolor(w: World, o: Obj, w2: World, todo: seq<Obj>)
    requires Tricolor(w, todo, iset{o}) && GrayListed(w, todo, iset{o})
    requires w2 == w.(grayagain := [o] + w.grayagain)
    ensures Tricolor(w2, todo, iset{o}) && GrayListed(w2, todo, iset{o})
  {
    TrimmedSelf(w.heap);
    forall p | p in w2.heap.objs && p in w2.color && !w2.color[p].White?
      && p !in iset{o} && !Pending(w2, todo, p)
      ensures Visited(w2, p)
    {
      assert !Pending(w, todo, p);
      VisitedGrows(w, w2, p);
    }
    forall p | w.phase == Propagate && p in w2.color && w2.color[p] == Gray && p !in iset{o}
      && p !in w2.fixedgc && p !in w2.blind
      ensures Pending(w2, todo, p) || Cleared(w2, p)
    {
      assert Pending(w, todo, p) || Cleared(w, p);
    }
  }

  lemma ThreadDone(w: World, o: Obj, todo: seq<Obj>, X: iset<Obj>)
    requires Marking(w, todo, iset{o}, X) && o in w.heap.objs && w.heap.objs[o].kind == Thread
    requires o in w.grayagain && SlotsIn(Marked(w.color), SlotsOf(w, o))
    requires o in w.color && w.color[o] == Gray
    ensures Marking(w, todo, iset{}, X)
  {
    Unfold(w, todo, iset{o}, X);
    SimpleVisited(w, o, todo);
    assert MarkingKeyed(w, todo, iset{}, X);
  }

  lemma SimpleVisited(w: World, o: Obj, todo: seq<Obj>)
    requires Sound(w) && Listed(w, todo) && o in w.heap.objs
    requires w.heap.objs[o].kind != Table && w.heap.objs[o].kind != Udata
    requires SlotsIn(Marked(w.color), SlotsOf(w, o)) && In(Marked(w.color), w.heap.objs[o].cache)
    requires UpsIn(w.heap, Marked(w.color), w.heap.objs[o].ups)
    ensures Visited(w, o)
  {
    assert Shaped(w.heap.objs[o]);
    assert Listings(w, todo)[o] <= 1 && (Listings(w, todo)[o] == 1 ==> ListedOk(w, o));
    if Listings(w, todo)[o] == 0 { NotCleared(w, todo, o); }
  }

  /** A closure or prototype is black for good once everything it holds is marked. */
  lemma SimpleDone(w: World, o: Obj, todo: seq<Obj>, X: iset<Obj>)
    requires Visiting(w, o, todo, X) && w.color[o] == Black && w.heap.objs[o].kind != Thread
    requires w.heap.objs[o].kind != Table && w.heap.objs[o].kind != Udata
    requires SlotsIn(Marked(w.color), SlotsOf(w, o)) && In(Marked(w.color), w.heap.objs[o].cache)
    requires UpsIn(w.heap, Marked(w.color), w.heap.objs[o].ups)
    ensures Marking(w, todo, iset{}, X)
  {
    Unfold(w, todo, iset{o}, X);
    SimpleVisited(w, o, todo);
    assert iset{} + iset{o} == iset{o};
    Done(w, o, todo, iset{}, X);
  }

  lemma UpsStep(w: World, w2: World, us: seq<UpVal>, i: nat)
    requires i < |us| && Spread(w, w2) && w2.heap == w.heap
    requires UpsIn(w.heap, Marked(w.color), us[..i]) && In(Marked(w2.color), Up(w.heap, us[i]))
    ensures UpsIn(w2.heap, Marked(w2.color), us[..i + 1])
  {
    SpreadOut(w, w2);
    var t := us[..i + 1];
    forall k | 0 <= k < |t| ensures In(Marked(w2.color), Up(w2.heap, t[k])) {
      if k < i { assert t[k] == us[..i][k]; }
    }
  }

  lemma UpBound(w: World, o: Obj, i: nat, todo: seq<Obj>, X: iset<Obj>)
    requires Visiting(w, o, todo, X) && i < |w.heap.objs[o].ups|
    ensures In(X, Up(w.heap, w.heap.objs[o].ups[i]))
    ensures In(Allocated(w.color), Up(w.heap, w.heap.objs[o].ups[i]))
  {
    VisitBound(w, o, todo, X);
  }

  lemma CacheEmptied(w: World, o: Obj, todo: seq<Obj>, X: iset<Obj>)
    requires Visiting(w, o, todo, X)
    ensures var w2 := w.(heap := SetCache(w.heap, o, Nil)); Visiting(w2, o, todo, X) && Spread(w, w2)
  {
    var w2 := w.(heap := SetCache(w.heap, o, Nil));
    assert Trimmed(w.heap, w2.heap) && Tidied(w.heap, w2.heap);
    VisitBound(w, o, todo, X);
    TrimMarking(w, w2, todo, iset{o}, X);
    VisitingSpread(w, w2, o, todo, X);
  }

  // ----- the ephemeron list -----

  /** `o` is a marked ephemeron table whose entries may still have something to mark. */
  ghost predicate Waits(w: World, o: Obj) {
    o in w.heap.objs && HeadIn(w, o) && TableMode(w.heap, o) == Ephemeron
  }

  ghost predicate AllWait(w: World, s: seq<Obj>) {
    forall o :: o in s ==> Waits(w, o)
  }

  ghost predicate EphemeronsSettled(w: World) {
    forall o :: o in w.ephemeron ==> AllSettled(w.heap, Marked(w.color), NodesOf(w, o))
  }

  /** Taking the whole ephemeron list off for another round. */
  lemma RoundStarts(w: World, X: iset<Obj>)
    requires Marking(w, [], iset{}, X) && w.phase == InsideAtomic && w.gray == []
    ensures var w2 := w.(ephemeron := []);
      Marking(w2, w.ephemeron, iset{}, X) && Advance(w, w2) && AllWait(w2, w.ephemeron)
  {
    var w2 := w.(ephemeron := []);
    Unfold(w, [], iset{}, X);
    RoundListed(w, w2);
    RoundTricolor(w, w2);
    SoundSame(w, w2);
    assert MarkingKeyed(w2, w.ephemeron, iset{}, X);
    TrimmedSelf(w.heap);
    assert AdvanceKeyed(w, w2);
    RoundWaits(w, X);
  }

  lemma RoundListed(w: World, w2: World)
    requires Listed(w, []) && w2 == w.(ephemeron := [])
    ensures Listed(w2, w.ephemeron)
  {
    var L, L2 := Listings(w, []), Listings(w2, w.ephemeron);
    assert L2 == L;
    forall p ensures L2[p] <= 1 && (L2[p] == 1 ==> ListedOk(w2, p)) {
      assert L[p] <= 1 && (L[p] == 1 ==> ListedOk(w, p));
    }
  }

  lemma RoundTricolor(w: World, w2: World)
    requires Tricolor(w, [], iset{}) && w2 == w.(ephemeron := [])
    ensures Tricolor(w2, w.ephemeron, iset{})
  {
    TrimmedSelf(w.heap);
    forall p | p in w2.heap.objs && p in w2.color && !w2.color[p].White?
      && p !in iset{} && !Pending(w2, w.ephemeron, p)
      ensures Visited(w2, p)
    {
      assert !Pending(w, [], p);
      VisitedGrows(w, w2, p);
    }
  }

  lemma RoundWaits(w: World, X: iset<Obj>)
    requires Marking(w, [], iset{}, X) && w.phase == InsideAtomic && w.gray == []
    ensures AllWait(w.(ephemeron := []), w.ephemeron)
  {
    Unfold(w, [], iset{}, X);
    forall o | o in w.ephemeron ensures Waits(w.(ephemeron := []), o) {
      var L := Listings(w, []);
      assert L[o] >= 1;
      assert L[o] <= 1 && (L[o] == 1 ==> ListedOk(w, o));
      assert !Pending(w, [], o) && Visited(w, o);
      assert Shaped(w.heap.objs[o]);
    }
  }

  lemma NextTaken(w: World, o: Obj, rest: seq<Obj>, X: iset<Obj>)
    requires Marking(w, [o] + rest, iset{}, X)
    ensures o in w.color && w.color[o] == Gray && Visiting(w, o, rest, X)
  {
    var todo := [o] + rest;
    Unfold(w, todo, iset{}, X);
    var L, L2 := Listings(w, todo), Listings(w, rest);
    assert multiset(todo) == multiset{o} + multiset(rest);
    assert L == L2 + multiset{o};
    assert L[o] <= 1 && (L[o] == 1 ==> ListedOk(w, o));
    assert L2[o] == 0;
    forall p ensures L2[p] <= 1 && (L2[p] == 1 ==> ListedOk(w, p)) {
      assert L[p] <= 1 && (L[p] == 1 ==> ListedOk(w, p));
    }
    NextTricolor(w, o, rest);
    assert MarkingKeyed(w, rest, iset{o}, X);
  }

  lemma NextTricolor(w: World, o: Obj, rest: seq<Obj>)
    requires Tricolor(w, [o] + rest, iset{}) && GrayListed(w, [o] + rest, iset{})
    ensures Tricolor(w, rest, iset{o}) && GrayListed(w, rest, iset{o})
  {
    forall p | p in w.heap.objs && p in w.color && !w.color[p].White? && p !in iset{o}
      && !Pending(w, rest, p)
      ensures Visited(w, p)
    {
      assert !Pending(w, [o] + rest, p);
    }
    forall p | w.phase == Propagate && p in w.color && w.color[p] == Gray && p !in iset{o}
      && p !in w.fixedgc && p !in w.blind
      ensures Pending(w, rest, p) || Cleared(w, p)
    {
      assert Pending(w, [o] + rest, p) || Cleared(w, p);
    }
  }

  lemma AllWaitKept(w: World, w2: World, s: seq<Obj>)
    requires Advance(w, w2) && AllWait(w, s)
    ensures AllWait(w2, s)
  {
    AdvanceOut(w, w2);
    forall o | o in s ensures Waits(w2, o) {
      assert Waits(w, o);
      assert RecordTrimmed(w.heap.objs[o], w2.heap.objs[o]);
      TrimmedParts(w.heap, w2.heap, iset{}, o);
    }
  }

  /** A visit that marked no value leaves the tables visited before settled. */
  lemma RoundSettled(w: World, o: Obj, w2: World, todo: seq<Obj>, busy: iset<Obj>, X: iset<Obj>)
    requires Marking(w, todo, busy, X) && EphemeronsSettled(w)
    requires Strings(w, Unlinked(w2, w))
    requires AllSettled(w2.heap, Marked(w2.color), NodesOf(w2, o))
    requires w2.ephemeron == w.ephemeron || w2.ephemeron == [o] + w.ephemeron
    ensures EphemeronsSettled(w2)
  {
    Unfold(w, todo, busy, X);
    forall p | p in w2.ephemeron ensures AllSettled(w2.heap, Marked(w2.color), NodesOf(w2, p)) {
      if p != o {
        assert p in w.ephemeron;
        InListed(w, p, todo);
        AllSettledKept(w, Unlinked(w2, w), p);
      }
    }
  }

  lemma InListed(w: World, p: Obj, todo: seq<Obj>)
    requires Listed(w, todo) && Cleared(w, p)
    ensures ListedOk(w, p)
  {
    var L := Listings(w, todo);
    assert L[p] >= 1;
    assert L[p] <= 1 && (L[p] == 1 ==> ListedOk(w, p));
  }

  /** Closed, but for what a missed object or a stale table keeps; the metatable of a
      stale table counts. */
  ghost predicate ClosedApart(w: World, S: iset<Obj>) {
    forall o :: o in w.heap.objs && o in S && o !in w.blind ==>
      if o in w.stale then In(S, w.heap.objs[o].meta) else StrongIn(w.heap, S, o, false)
  }

  /** The metatables that came too late have been marked all the same. */
  ghost predicate StaleMarked(w: World) {
    forall t :: t in w.stale && t in w.heap.objs ==> In(Marked(w.color), w.heap.objs[t].meta)
  }

  /** Once nothing is left to visit, the marked objects are closed: with an object
      everything it refers to strongly is marked, and with the key of an ephemeron
      entry its value. */
  lemma MarkedClosed(w: World, X: iset<Obj>)
    requires Marking(w, [], iset{}, X) && w.phase == InsideAtomic && w.gray == []
    requires EphemeronsSettled(w)
    ensures StaleMarked(w) ==> ClosedApart(w, Marked(w.color))
  {
    Unfold(w, [], iset{}, X);
    forall o | o in w.heap.objs && o in Marked(w.color) && o !in w.blind && o !in w.stale
      ensures StrongIn(w.heap, Marked(w.color), o, false)
    {
      assert !Pending(w, [], o) && Visited(w, o);
      var L := Listings(w, []);
      assert L[o] <= 1 && (L[o] == 1 ==> ListedOk(w, o));
      if o in w.weak || o in w.ephemeron || o in w.allweak { OneList(w, o); }
      VisitedClosed(w, o, Marked(w.color), false);
    }
  }

  lemma OneList(w: World, o: Obj)
    requires Listings(w, [])[o] <= 1
    ensures o in w.weak ==> o !in w.ephemeron && o !in w.allweak
    ensures o in w.ephemeron ==> o !in w.weak && o !in w.allweak
  {
  }

  /** `S` holds the marked objects, and all strings if strings count. */
  lemma VisitedClosed(w: World, o: Obj, S: iset<Obj>, strs: bool)
    requires o in w.heap.objs && VisitedFully(w, o) && EphemeronsSettled(w)
    requires Cleared(w, o) ==> w.heap.objs[o].kind == Table
    requires o in w.weak ==> o !in w.ephemeron && o !in w.allweak
    requires o in w.ephemeron ==> o !in w.weak && o !in w.allweak
    requires Marked(w.color) <= S
    requires forall p :: p in S && p !in Marked(w.color) ==> strs && IsStr(w.heap, Ref(p))
    requires strs ==> forall p :: IsStr(w.heap, Ref(p)) ==> p in S
    ensures StrongIn(w.heap, S, o, strs)
  {
    var M, r, m := Marked(w.color), w.heap.objs[o], TableMode(w.heap, o);
    PartsGrow(w.heap, M, S, r);
    forall i | 0 <= i < |r.nodes| ensures EntryIn(w.heap, S, m, r.nodes[i], strs) {
      if o in w.ephemeron {
        assert Settled(w.heap, M, NodesOf(w, o)[i]);
      } else if KeysIn(M, r.nodes) {
        assert In(M, r.nodes[i].key);
      }
      if ValsIn(M, r.nodes) { assert In(M, r.nodes[i].val); }
    }
  }
}
