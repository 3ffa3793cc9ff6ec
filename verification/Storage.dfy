/** How an arena stores a model: each context of the model has a slot, whose tree holds the
    context's counts and whose nodes are the slots of the contexts one byte longer.  Which
    slot a context has depends on the order of creation, which differs between the encoder
    and the decoder; the stored model does not. */
module Storage {
  import opened Words
  import opened Contexts
  import opened Ppm
  import opened SymbolTrees
  import opened ContextWalks
  import opened Rescaling

  datatype Layout = Layout(index: map<History, int>, trees: map<History, Tree>)

  /** The context `h` of the model, in its slot. */
  ghost predicate ContextAt(s: Arena, l: Layout, m: Table, h: History)
    requires h in m && h in l.index && h in l.trees && |m[h].counts| == VALUES
  {
    && var c, t := l.index[h], l.trees[h];
    && t.counts == m[h].counts
    && Holds(s, c, t)
    && s[c].escapes == m[h].escapes
    && s[c].total == Total(m[h], MinimumOf(h))
    && (forall v: uint8 {:trigger t.at[v]} {:trigger Then(h, v)} :: v in t.at ==>
          Then(h, v) in l.index && l.index[Then(h, v)] == t.at[v])
  }

  /** Every context has a slot of its own below `top`, the root has the first. */
  ghost predicate Slots(top: int, l: Layout, m: Table) {
    && |m| == top <= SLOTS
    && l.index.Keys == m.Keys && l.trees.Keys == m.Keys
    && Root in m && l.index[Root] == 0
    && (forall h {:trigger l.index[h]} :: h in m ==> 0 <= l.index[h] < top)
    && (forall h, k {:trigger l.index[h], l.index[k]} :: h in m && k in m && h != k ==> l.index[h] != l.index[k])
    && (forall h {:trigger m[h]} :: h in m ==> |m[h].counts| == VALUES)
  }

  ghost predicate Stored(s: Arena, top: int, l: Layout, m: Table) {
    && |s| == SLOTS
    && Slots(top, l, m)
    && (forall h {:trigger ContextAt(s, l, m, h)} :: h in m ==> ContextAt(s, l, m, h))
  }

  /** Every slot points to the slot of the next lower order, except those still `pending`. */
  ghost predicate Parents(s: Arena, l: Layout, pending: set<History>) {
    forall h {:trigger l.index[h]} :: h in l.index && h.Then? && h !in pending && 0 <= l.index[h] < |s| ==>
      Shorter(h) in l.index && s[l.index[h]].parent == l.index[Shorter(h)]
  }

  /** From `s0` to `s`, only the tree nodes and the statistics of context `c` changed, and slot `top`. */
  ghost predicate Touched(s0: Arena, s: Arena, c: int, t: Tree, top: int) {
    && |s| == |s0|
    && (forall i :: 0 <= i < |s| && i != top ==> s[i].value == s0[i].value)
    && (forall i :: 0 <= i < |s| && i != top && !IsNode(s0, t, i) ==> SameNode(s0[i], s[i]))
    && (forall i :: 0 <= i < |s| && i != top && i != c ==> SameStatistics(s0[i], s[i]))
  }

  /** A slot of another context is no node of this context's tree. */
  lemma NotItsNode(s: Arena, top: int, l: Layout, m: Table, h: History, k: History)
    requires Stored(s, top, l, m) && h in m && k in m && (k.Root? || k.context != h)
    ensures 0 <= l.index[k] < |s| && !IsNode(s, l.trees[h], l.index[k])
  {
    assert ContextAt(s, l, m, h);
    hide Holds;
  }

  /** Another context's tree is where it was. */
  lemma OtherContext(s0: Arena, s: Arena, top: int, l: Layout, m: Table, h: History, k: History)
    requires Stored(s0, top, l, m) && h in m && k in m && k != h && Touched(s0, s, l.index[h], l.trees[h], top)
    ensures Holds(s, l.index[k], l.trees[k])
    ensures s[l.index[k]].escapes == s0[l.index[k]].escapes && s[l.index[k]].total == s0[l.index[k]].total
  {
    assert ContextAt(s0, l, m, k);
    var t := l.trees[k];
    assert l.index[k] != l.index[h];
    hide Holds;
    forall v | v in t.at && 0 <= t.at[v] < |s0| ensures SameNode(s0[t.at[v]], s[t.at[v]]) {
      ShapeRangeOf(s0, l.index[k], t, v);
      assert l.index[Then(k, v)] == t.at[v];
      ThenStored(s0, top, l, m, k, v);
      NotItsNode(s0, top, l, m, h, Then(k, v));
    }
    hide Stored;
    HoldsFramed(s0, s, l.index[k], t);
  }

  lemma ShapeRangeOf(s: Arena, c: int, t: Tree, v: int)
    requires Holds(s, c, t) && v in t.at
    ensures 0 <= v < VALUES
  {
    ShapeRange(t);
  }

  lemma ThenStored(s: Arena, top: int, l: Layout, m: Table, k: History, v: uint8)
    requires Stored(s, top, l, m) && k in m && v in l.trees[k].at
    ensures Then(k, v) in m && l.index[Then(k, v)] == l.trees[k].at[v] < top
  {
    assert ContextAt(s, l, m, k);
    hide Holds;
  }

  // ----- one context learns one value -----

  function LearnedOne(m: Table, h: History, v: uint8): Table
    requires h in m && |m[h].counts| == VALUES
  {
    (if Then(h, v) in m then m else m[Then(h, v) := EmptyContext()])[h := Adapted(m[h], MinimumOf(h), v)]
  }

  ghost function LaidOut(l: Layout, m: Table, h: History, v: uint8, t: Tree, top: int): Layout {
    if Then(h, v) in m then l.(trees := l.trees[h := t])
    else Layout(l.index[Then(h, v) := top], l.trees[Then(h, v) := NoTree()][h := t])
  }

  /** The slots after context `h` learned `v`: `h` holds the tree `t`, and a new value's node
      is an empty context of its own. */
  ghost predicate Relaid(s0: Arena, s: Arena, top: int, l: Layout, m: Table, h: History, v: uint8, t: Tree)
    requires h in m && h in l.index && h in l.trees && |m[h].counts| == VALUES
  {
    var c := l.index[h];
    var a := Adapted(m[h], MinimumOf(h), v);
    && 0 <= c < |s0| && Touched(s0, s, c, l.trees[h], top)
    && Holds(s, c, t) && t.counts == a.counts
    && s[c].escapes == a.escapes && s[c].total == Total(a, MinimumOf(h))
    && (Then(h, v) in m ==> t.at == l.trees[h].at)
    && (Then(h, v) !in m ==>
          t.at == l.trees[h].at[v := top] && 0 <= top < |s|
          && s[top].symbols == 0 && s[top].escapes == 0 && s[top].total == 0 && s[top].parent == 0)
  }

  lemma OneLearned(s0: Arena, s: Arena, top: int, l: Layout, m: Table, h: History, v: uint8, t: Tree)
    requires Stored(s0, top, l, m) && h in m && top < SLOTS && Then(h, v) != h
    requires Then(h, v) in m <==> m[h].counts[v] > 0
    requires Relaid(s0, s, top, l, m, h, v, t)
    ensures Stored(s, if Then(h, v) in m then top else top + 1, LaidOut(l, m, h, v, t, top), LearnedOne(m, h, v))
  {
    var l1, m1 := LaidOut(l, m, h, v, t, top), LearnedOne(m, h, v);
    assert |s| == SLOTS;
    SlotsLearned(top, l, m, h, v, t);
    hide ContextAt, Relaid, LaidOut, LearnedOne, Slots;
    forall k {:trigger ContextAt(s, l1, m1, k)} | k in m1 ensures ContextAt(s, l1, m1, k) {
      if k == h {
        LearnedHere(s0, s, top, l, m, h, v, t);
      } else if k == Then(h, v) && k !in m {
        LearnedNew(s0, s, top, l, m, h, v, t);
      } else {
        LearnedElsewhere(s0, s, top, l, m, h, v, t, k);
      }
    }
  }

  lemma SlotsLearned(top: int, l: Layout, m: Table, h: History, v: uint8, t: Tree)
    requires Slots(top, l, m) && h in m && top < SLOTS && Then(h, v) != h
    ensures Slots(if Then(h, v) in m then top else top + 1, LaidOut(l, m, h, v, t, top), LearnedOne(m, h, v))
    ensures forall k :: k in LearnedOne(m, h, v) <==> k in m || k == Then(h, v)
  {
    NoCountsSize();
    hide Adapted, EmptyContext, NoTree;
    var a := Adapted(m[h], MinimumOf(h), v);
    if Then(h, v) in m {
      SlotsChanged(top, l, m, h, a, t);
    } else {
      var m1 := m[Then(h, v) := EmptyContext()];
      var l1 := Layout(l.index[Then(h, v) := top], l.trees[Then(h, v) := NoTree()]);
      SlotsAdded(top, l, m, Then(h, v), EmptyContext(), NoTree());
      SlotsChanged(top + 1, l1, m1, h, a, t);
    }
  }

  lemma SlotsChanged(top: int, l: Layout, m: Table, h: History, c: Context, t: Tree)
    requires Slots(top, l, m) && h in m && |c.counts| == VALUES
    ensures Slots(top, l.(trees := l.trees[h := t]), m[h := c])
  {
    var m1, l1 := m[h := c], l.(trees := l.trees[h := t]);
    assert m1.Keys == m.Keys && l1.trees.Keys == m.Keys && |m1| == |m1.Keys|;
    forall k {:trigger m1[k]} | k in m1 ensures |m1[k].counts| == VALUES {
      var _ := m[k];
    }
  }

  lemma SlotsAdded(top: int, l: Layout, m: Table, k: History, c: Context, t: Tree)
    requires Slots(top, l, m) && k !in m && top < SLOTS && |c.counts| == VALUES
    ensures Slots(top + 1, Layout(l.index[k := top], l.trees[k := t]), m[k := c])
  {
    MapGrows(m, k, c);
    var m1, index1 := m[k := c], l.index[k := top];
    assert forall h {:trigger index1[h]} :: h in m1 ==> if h == k then index1[h] == top else index1[h] == l.index[h];
  }

  lemma MapGrows(m: Table, k: History, c: Context)
    requires k !in m
    ensures |m[k := c]| == |m| + 1
  {
    assert m[k := c].Keys == m.Keys + {k};
  }

  /** What the update leaves alone. */
  lemma LaidOutKeeps(top: int, l: Layout, m: Table, h: History, v: uint8, t: Tree, k: History)
    requires Slots(top, l, m) && h in m && k in m && k != h
    ensures k in LearnedOne(m, h, v) && LearnedOne(m, h, v)[k] == m[k]
    ensures var l1 := LaidOut(l, m, h, v, t, top);
      && k in l1.trees && l1.trees[k] == l.trees[k]
      && forall j :: j in m ==> j in l1.index && l1.index[j] == l.index[j]
  {
    hide Adapted, EmptyContext, NoTree;
  }

  lemma ContextKept(s0: Arena, s: Arena, l: Layout, l1: Layout, m: Table, m1: Table, k: History)
    requires k in m && k in m1 && m1[k] == m[k] && |m[k].counts| == VALUES
    requires k in l.index && k in l.trees && k in l1.trees && l1.trees[k] == l.trees[k]
    requires forall j :: j in l.index ==> j in l1.index && l1.index[j] == l.index[j]
    requires ContextAt(s0, l, m, k) && Holds(s, l.index[k], l.trees[k])
    requires s[l.index[k]].escapes == s0[l.index[k]].escapes && s[l.index[k]].total == s0[l.index[k]].total
    ensures ContextAt(s, l1, m1, k)
  {
    hide ShapeOk, NodeOk, Total;
  }

  lemma NoCountsSize()
    ensures |EmptyContext().counts| == VALUES
  {
  }

  lemma LearnedHere(s0: Arena, s: Arena, top: int, l: Layout, m: Table, h: History, v: uint8, t: Tree)
    requires Slots(top, l, m) && h in m && ContextAt(s0, l, m, h) && Relaid(s0, s, top, l, m, h, v, t)
    requires Then(h, v) != h
    requires Slots(if Then(h, v) in m then top else top + 1, LaidOut(l, m, h, v, t, top), LearnedOne(m, h, v))
    ensures ContextAt(s, LaidOut(l, m, h, v, t, top), LearnedOne(m, h, v), h)
  {
    hide *;
    LaidOutHere(top, l, m, h, v, t);
    var l1, m1 := LaidOut(l, m, h, v, t, top), LearnedOne(m, h, v);
    LaidOutIndex(l, m, h, v, t, top);
    RelaidFacts(s0, s, top, l, m, h, v, t);
    ContextIndexed(s0, l, m, h);
    NodesIndexed(l.index, l1.index, l.trees[h].at, t.at, h, v, top);
    ContextIs(s, l1, m1, h);
  }

  lemma LaidOutHere(top: int, l: Layout, m: Table, h: History, v: uint8, t: Tree)
    requires Slots(top, l, m) && h in m && Then(h, v) != h
    ensures l.index.Keys == m.Keys && h in l.index && h in l.trees && |m[h].counts| == VALUES
    ensures var l1, m1 := LaidOut(l, m, h, v, t, top), LearnedOne(m, h, v);
      && h in m1 && m1[h] == Adapted(m[h], MinimumOf(h), v) && |m1[h].counts| == VALUES
      && h in l1.index && h in l1.trees && l1.trees[h] == t
  {
    hide Adapted, EmptyContext, NoTree;
  }

  lemma RelaidFacts(s0: Arena, s: Arena, top: int, l: Layout, m: Table, h: History, v: uint8, t: Tree)
    requires h in m && h in l.index && h in l.trees && |m[h].counts| == VALUES && Relaid(s0, s, top, l, m, h, v, t)
    ensures var c, a := l.index[h], Adapted(m[h], MinimumOf(h), v);
      && 0 <= c < |s| && Holds(s, c, t) && t.counts == a.counts
      && s[c].escapes == a.escapes && s[c].total == Total(a, MinimumOf(h))
      && (Then(h, v) in m ==> t.at == l.trees[h].at)
      && (Then(h, v) !in m ==> t.at == l.trees[h].at[v := top])
  {
    hide Holds, Adapted, Total;
  }

  lemma ContextIndexed(s: Arena, l: Layout, m: Table, h: History)
    requires h in m && h in l.index && h in l.trees && |m[h].counts| == VALUES && ContextAt(s, l, m, h)
    ensures forall v: uint8 {:trigger l.trees[h].at[v]} {:trigger Then(h, v)} :: v in l.trees[h].at ==>
      Then(h, v) in l.index && l.index[Then(h, v)] == l.trees[h].at[v]
  {
    hide Holds, Total;
  }

  lemma ContextIs(s: Arena, l: Layout, m: Table, h: History)
    requires h in m && h in l.index && h in l.trees && |m[h].counts| == VALUES
    requires var c, t := l.index[h], l.trees[h];
      && 0 <= c < |s| && Holds(s, c, t) && t.counts == m[h].counts
      && s[c].escapes == m[h].escapes && s[c].total == Total(m[h], MinimumOf(h))
    requires forall v: uint8 {:trigger l.trees[h].at[v]} {:trigger Then(h, v)} :: v in l.trees[h].at ==>
      Then(h, v) in l.index && l.index[Then(h, v)] == l.trees[h].at[v]
    ensures ContextAt(s, l, m, h)
  {
    hide Holds, Total;
  }

  lemma NodesIndexed(index: map<History, int>, index1: map<History, int>, at: map<int, int>, at1: map<int, int>,
                     h: History, v: uint8, top: int)
    requires forall w: uint8 {:trigger at[w]} {:trigger Then(h, w)} :: w in at ==>
      Then(h, w) in index && index[Then(h, w)] == at[w]
    requires forall k :: k in index ==> k in index1 && index1[k] == index[k]
    requires at1 == at || (at1 == at[v := top] && Then(h, v) in index1 && index1[Then(h, v)] == top)
    ensures forall w: uint8 {:trigger at1[w]} {:trigger Then(h, w)} :: w in at1 ==>
      Then(h, w) in index1 && index1[Then(h, w)] == at1[w]
  {
  }

  lemma LearnedElsewhere(s0: Arena, s: Arena, top: int, l: Layout, m: Table, h: History, v: uint8, t: Tree, k: History)
    requires Stored(s0, top, l, m) && h in m && Relaid(s0, s, top, l, m, h, v, t) && k in m && k != h
    requires Slots(if Then(h, v) in m then top else top + 1, LaidOut(l, m, h, v, t, top), LearnedOne(m, h, v))
    ensures ContextAt(s, LaidOut(l, m, h, v, t, top), LearnedOne(m, h, v), k)
  {
    hide Holds, Adapted, EmptyContext, NoTree, Total, LaidOut, LearnedOne, Touched;
    OtherContext(s0, s, top, l, m, h, k);
    LaidOutKeeps(top, l, m, h, v, t, k);
    assert ContextAt(s0, l, m, k);
    hide ContextAt, Relaid;
    ContextKept(s0, s, l, LaidOut(l, m, h, v, t, top), m, LearnedOne(m, h, v), k);
  }

  lemma LearnedNew(s0: Arena, s: Arena, top: int, l: Layout, m: Table, h: History, v: uint8, t: Tree)
    requires Slots(top, l, m) && h in m && Relaid(s0, s, top, l, m, h, v, t) && Then(h, v) !in m && Then(h, v) != h
    requires Slots(top + 1, LaidOut(l, m, h, v, t, top), LearnedOne(m, h, v))
    ensures ContextAt(s, LaidOut(l, m, h, v, t, top), LearnedOne(m, h, v), Then(h, v))
  {
    NoTreeHolds(s, top);
    hide Holds, Adapted, Touched, EmptyContext, NoTree, Total;
    var l1, m1 := LaidOut(l, m, h, v, t, top), LearnedOne(m, h, v);
    assert m1[Then(h, v)] == EmptyContext() && l1.trees[Then(h, v)] == NoTree() && l1.index[Then(h, v)] == top;
    hide Slots, Relaid, LaidOut, LearnedOne;
  }

  lemma NoTreeHolds(s: Arena, c: int)
    requires 0 <= c < |s| && s[c].symbols == 0
    ensures Holds(s, c, NoTree()) && Total(EmptyContext(), 0) == 0 && EmptyContext().escapes == 0
    ensures NoTree().counts == EmptyContext().counts && NoTree().at == map[]
  {
    SumOfZeros(NoTree().counts, 0, |NoTree().counts|);
  }

  // ----- parents -----

  /** From `s0` to `s`, the only parent written is that of slot `at`, to `symbol`; slot `top` is new. */
  ghost predicate ParentSet(s0: Arena, s: Arena, top: int, at: int, symbol: int) {
    && |s| == |s0|
    && (forall i :: 0 <= i < |s| && i != top ==> s[i].parent == if i == at then symbol else s0[i].parent)
  }

  /** The parent to be written next is that of `p`, in slot `at`, which is to be the slot of
      `target`; a negative `at` means that no symbol waits. */
  ghost predicate Awaited(l: Layout, pending: set<History>, p: History, at: int, target: History) {
    && pending <= {p}
    && (at < 0 ==> pending == {})
    && (0 <= at ==> p in l.index && at == l.index[p] && p.Then? && Shorter(p) == target)
  }

  /** One more context on the chain: the symbol before it now points to its symbol, whose
      own parent is still to come if it is new and not in the root. */
  lemma ParentsLearned(s0: Arena, s: Arena, top: int, l: Layout, m: Table, h: History, v: uint8, t: Tree,
                       pending: set<History>, p: History, at: int, symbol: int)
    requires Slots(top, l, m) && h in m && |s0| == SLOTS && top < SLOTS && Then(h, v) != h
    requires Parents(s0, l, pending) && ParentSet(s0, s, top, at, symbol)
    requires symbol == (if Then(h, v) in m then l.index[Then(h, v)] else top)
    requires Then(h, v) !in m ==> s[top].parent == 0
    requires Awaited(l, pending, p, at, Then(h, v))
    ensures var l1 := LaidOut(l, m, h, v, t, top);
      Parents(s, l1, if Then(h, v) in m || h.Root? then {} else {Then(h, v)})
  {
    var l1 := LaidOut(l, m, h, v, t, top);
    LaidOutIndex(l, m, h, v, t, top);
    assert Root in m && l.index[Root] == 0;
    hide LaidOut, Slots, Parents, ParentSet;
    forall k {:trigger l1.index[k]} | k in l1.index && k.Then? && 0 <= l1.index[k] < |s|
      && k !in (if Then(h, v) in m || h.Root? then {} else {Then(h, v)})
      ensures Shorter(k) in l1.index && s[l1.index[k]].parent == l1.index[Shorter(k)]
    {
      ParentLearned(s0, s, top, l, m, h, v, l1, pending, p, at, symbol, k);
    }
    NewParents(s, l1, if Then(h, v) in m || h.Root? then {} else {Then(h, v)});
  }

  lemma NewParents(s: Arena, l: Layout, pending: set<History>)
    requires forall h {:trigger l.index[h]} :: h in l.index && h.Then? && 0 <= l.index[h] < |s| && h !in pending ==>
      Shorter(h) in l.index && s[l.index[h]].parent == l.index[Shorter(h)]
    ensures Parents(s, l, pending)
  {
  }

  lemma ParentLearned(s0: Arena, s: Arena, top: int, l: Layout, m: Table, h: History, v: uint8, l1: Layout,
                      pending: set<History>, p: History, at: int, symbol: int, k: History)
    requires Slots(top, l, m) && |s0| == SLOTS && top < SLOTS && k.Then? && k in l1.index
    requires Parents(s0, l, pending) && ParentSet(s0, s, top, at, symbol)
    requires symbol == (if Then(h, v) in m then l.index[Then(h, v)] else top)
    requires Then(h, v) !in m ==> s[top].parent == 0
    requires Awaited(l, pending, p, at, Then(h, v))
    requires l1.index.Keys == m.Keys + {Then(h, v)} && (forall j :: j in m ==> l1.index[j] == l.index[j])
    requires Then(h, v) !in m ==> l1.index[Then(h, v)] == top
    requires k !in (if Then(h, v) in m || h.Root? then {} else {Then(h, v)})
    ensures Shorter(k) in l1.index && s[l1.index[k]].parent == l1.index[Shorter(k)]
  {
    if k in m {
      assert 0 <= l.index[k] < top;
      if k != p && 0 <= at {
        assert l.index[k] != l.index[p];
      }
    } else {
      assert k == Then(Root, v) && l1.index[k] == top;
      assert Shorter(k) == Root;
    }
  }

  lemma LaidOutIndex(l: Layout, m: Table, h: History, v: uint8, t: Tree, top: int)
    requires l.index.Keys == m.Keys && h in m
    ensures var l1 := LaidOut(l, m, h, v, t, top);
      && l1.index.Keys == m.Keys + {Then(h, v)}
      && (forall k :: k in m ==> l1.index[k] == l.index[k])
      && (Then(h, v) !in m ==> l1.index[Then(h, v)] == top)
  {
    hide NoTree;
  }

  // ----- learning along a chain -----

  lemma LearnedOneMore(m: Table, seen: set<History>, h: History, v: uint8)
    requires ValidContexts(m) && seen <= m.Keys && h in m && h !in seen
    ensures h in Learn(m, seen, v) && Learn(m, seen, v)[h] == m[h]
    ensures Then(h, v) in Learn(m, seen, v) <==> m[h].counts[v] > 0
    ensures LearnedOne(Learn(m, seen, v), h, v) == Learn(m, seen + {h}, v)
  {
    NewIfUncounted(m, seen, h, v);
    LearnedAt(m, seen, v, h);
    OneMoreKeys(m, seen, h, v);
    hide ValidContexts;
    forall k | k in Learn(m, seen + {h}, v)
      ensures LearnedOne(Learn(m, seen, v), h, v)[k] == Learn(m, seen + {h}, v)[k]
    {
      LearnedAgrees(m, seen, h, v, k);
    }
    hide Learn, LearnedOne;
  }

  lemma NewIfUncounted(m: Table, seen: set<History>, h: History, v: uint8)
    requires ValidContexts(m) && seen <= m.Keys && h in m && h !in seen
    ensures forall j :: j in m ==> |m[j].counts| == VALUES
    ensures h in Learn(m, seen, v) && (Then(h, v) in Learn(m, seen, v) <==> m[h].counts[v] > 0)
  {
    LearnedKeys(m, seen, v);
    hide Learn, ValidContext;
    assert ValidContext(m[h], MinimumOf(h));
    CountsSized(m);
  }

  lemma CountsSized(m: Table)
    requires ValidContexts(m)
    ensures forall j :: j in m ==> |m[j].counts| == VALUES
  {
  }

  lemma OneMoreKeys(m: Table, seen: set<History>, h: History, v: uint8)
    requires ValidContexts(m) && seen <= m.Keys && h in m && h !in seen
    requires h in Learn(m, seen, v) && |Learn(m, seen, v)[h].counts| == VALUES
    ensures forall j :: j in m ==> |m[j].counts| == VALUES
    ensures forall k :: k in LearnedOne(Learn(m, seen, v), h, v) <==> k in Learn(m, seen + {h}, v)
  {
    CountsSized(m);
    LearnedKeys(m, seen, v);
    LearnedKeys(m, seen + {h}, v);
    hide ValidContexts, Learn;
    OneKey(Learn(m, seen, v), h, v);
    hide LearnedOne;
  }

  lemma OneKey(m: Table, h: History, v: uint8)
    requires h in m && |m[h].counts| == VALUES
    ensures forall k :: k in LearnedOne(m, h, v) <==> k in m || k == Then(h, v)
  {
    hide Adapted, EmptyContext;
  }

  lemma LearnedAgrees(m: Table, seen: set<History>, h: History, v: uint8, k: History)
    requires forall j :: j in m ==> |m[j].counts| == VALUES
    requires h in m && h !in seen && h in Learn(m, seen, v) && |Learn(m, seen, v)[h].counts| == VALUES
    requires k in Learn(m, seen + {h}, v) && k in LearnedOne(Learn(m, seen, v), h, v)
    ensures LearnedOne(Learn(m, seen, v), h, v)[k] == Learn(m, seen + {h}, v)[k]
  {
    hide Adapted, EmptyContext;
  }

  lemma LearnedAt(m: Table, seen: set<History>, v: uint8, k: History)
    requires forall h :: h in m ==> |m[h].counts| == VALUES
    requires k in Learn(m, seen, v)
    ensures Learn(m, seen, v)[k]
         == if k !in m then EmptyContext() else if k in seen then Adapted(m[k], MinimumOf(k), v) else m[k]
  {
    hide Adapted, EmptyContext;
  }

  // ----- the parts of one update -----

  /** From `s0` to `s`, only counts and sums of `t`'s nodes and the escapes and total of `c` changed. */
  ghost predicate Reworked(s0: Arena, s: Arena, c: int, t: Tree) {
    && |s| == |s0|
    && (forall i :: 0 <= i < |s| ==>
         s[i].value == s0[i].value && s[i].parent == s0[i].parent && s[i].symbols == s0[i].symbols)
    && (forall i :: 0 <= i < |s| && !IsNode(s0, t, i) ==> SameNode(s0[i], s[i]))
    && (forall i :: 0 <= i < |s| && i != c ==> SameContext(s0[i], s[i]))
  }

  lemma StatisticsSet(s0: Arena, s: Arena, c: int, escapes: uint16, total: uint16, t: Tree)
    requires Holds(s0, c, t) && s == s0[c := s0[c].(escapes := escapes, total := total)]
    ensures Holds(s, c, t) && Reworked(s0, s, c, t)
  {
    HoldsFramed(s0, s, c, t);
    hide Holds;
  }

  lemma ReworkedTwice(s0: Arena, s1: Arena, s2: Arena, c: int, t: Tree, t1: Tree)
    requires Reworked(s0, s1, c, t) && Reworked(s1, s2, c, t1) && t1.at == t.at
    ensures Reworked(s0, s2, c, t)
  {
    forall i | 0 <= i < |s0| ensures IsNode(s1, t1, i) == IsNode(s0, t, i) {
    }
  }

  /** A parent written, the rest as it was. */
  lemma ParentWritten(s0: Arena, s: Arena, c: int, t: Tree, at: int, symbol: uint16)
    requires Holds(s0, c, t) && 0 <= at < |s0| && s == s0[at := s0[at].(parent := symbol)]
    ensures Holds(s, c, t)
  {
    HoldsFramed(s0, s, c, t);
    hide Holds;
  }

  /** The three parts of one update of context `c`, which stood at the statistics `x`:
      counting `v` took `s0` to `s1`, writing a parent `s1` to `s2`, and adapting `s2` to `s3`. */
  ghost predicate Updated(s0: Arena, s1: Arena, s2: Arena, s3: Arena, top: int, c: int, t: Tree, x: Context,
                          minimum: Minimum, v: uint8, update: uint8, at: int, symbol: int, t1: Tree, t3: Tree) {
    && |t.counts| == |x.counts| == VALUES && 0 <= c < |s0| == |s1|
    && Counts(s0, s1, c, t, t1, v, update, top, symbol)
    && (0 <= at ==> at < top && at < |s1| && 0 <= symbol < TWO_16 && s2 == s1[at := s1[at].(parent := symbol)])
    && (at < 0 ==> s2 == s1)
    && Reworked(s2, s3, c, t1) && Holds(s3, c, t3) && t3.at == t1.at
    && var a := Adapted(x, minimum, v);
    t3.counts == a.counts && s3[c].escapes == a.escapes && s3[c].total == Total(a, minimum)
  }

  /** Counting a value, writing a parent and updating the statistics, together. */
  lemma Assembled(s0: Arena, s1: Arena, s2: Arena, s3: Arena, top: int, l: Layout, m: Table, h: History, v: uint8,
                  update: uint8, at: int, symbol: int, t1: Tree, t3: Tree)
    requires Slots(top, l, m) && h in m && ContextAt(s0, l, m, h) && |s0| == SLOTS && top < SLOTS
    requires Then(h, v) in m <==> m[h].counts[v] > 0
    requires Updated(s0, s1, s2, s3, top, l.index[h], l.trees[h], m[h], MinimumOf(h), v, update, at, symbol, t1, t3)
    ensures Relaid(s0, s3, top, l, m, h, v, t3)
    ensures ParentSet(s0, s3, top, at, symbol)
    ensures symbol == (if Then(h, v) in m then l.index[Then(h, v)] else top)
    ensures Then(h, v) !in m ==> s3[top].parent == 0
  {
    hide Holds, Adapted, Total;
    assert v in l.trees[h].at <==> Then(h, v) in m by { CountedInTree(s0, l, m, h, v); }
    assert 0 <= l.index[h] < top;
    TouchedBy(s0, s1, s2, s3, l.index[h], l.trees[h], t1, v, update, top, at, symbol);
    hide Slots, Touched, ParentSet, Reworked;
  }

  /** One update, seen on the whole arena. */
  lemma TableStep(s0: Arena, s1: Arena, s2: Arena, s3: Arena, top: int, l: Layout, m: Table, h: History, v: uint8,
                  update: uint8, pending: set<History>, p: History, at: int, symbol: int, t1: Tree, t3: Tree)
    requires Stored(s0, top, l, m) && Parents(s0, l, pending) && h in m && top < SLOTS
    requires Then(h, v) in m <==> m[h].counts[v] > 0
    requires Updated(s0, s1, s2, s3, top, l.index[h], l.trees[h], m[h], MinimumOf(h), v, update, at, symbol, t1, t3)
    requires Awaited(l, pending, p, at, Then(h, v))
    ensures Stored(s3, if Then(h, v) in m then top else top + 1, LaidOut(l, m, h, v, t3, top), LearnedOne(m, h, v))
    ensures Parents(s3, LaidOut(l, m, h, v, t3, top), if Then(h, v) in m || h.Root? then {} else {Then(h, v)})
    ensures symbol == (if Then(h, v) in m then l.index[Then(h, v)] else top)
  {
    ThenDiffers(h, v);
    assert Slots(top, l, m) && ContextAt(s0, l, m, h) && |s0| == SLOTS;
    hide Updated, Awaited, Parents, ContextAt, Relaid, ParentSet, Slots, LaidOut, LearnedOne;
    Assembled(s0, s1, s2, s3, top, l, m, h, v, update, at, symbol, t1, t3);
    OneLearned(s0, s3, top, l, m, h, v, t3);
    hide Stored;
    ParentsLearned(s0, s3, top, l, m, h, v, t3, pending, p, at, symbol);
  }

  lemma ThenDiffers(h: History, v: uint8)
    ensures Then(h, v) != h
  {
    assert Len(Then(h, v)) == Len(h) + 1;
  }

  lemma CountedInTree(s: Arena, l: Layout, m: Table, h: History, v: uint8)
    requires h in m && h in l.index && h in l.trees && |m[h].counts| == VALUES && ContextAt(s, l, m, h)
    ensures v in l.trees[h].at <==> m[h].counts[v] > 0
  {
    hide NodeOk;
  }

  lemma TouchedBy(s0: Arena, s1: Arena, s2: Arena, s3: Arena, c: int, t: Tree, t1: Tree, v: uint8, update: uint8,
                  top: int, at: int, symbol: int)
    requires |t.counts| == VALUES && Counts(s0, s1, c, t, t1, v, update, top, symbol)
    requires if 0 <= at then at < top && 0 <= symbol < TWO_16 && at < |s1| && s2 == s1[at := s1[at].(parent := symbol)]
      else s2 == s1
    requires Reworked(s2, s3, c, t1) && 0 <= c < top < |s0|
    ensures Touched(s0, s3, c, t, top) && ParentSet(s0, s3, top, at, symbol)
    ensures v !in t.at ==> s3[top].symbols == 0 && s3[top].escapes == 0 && s3[top].total == 0 && s3[top].parent == 0
  {
    hide Holds;
    forall i | 0 <= i < |s0| && i != top ensures IsNode(s2, t1, i) == IsNode(s0, t, i) {
    }
    hide IsNode;
  }

  lemma HalvedReworked(s0: Arena, s: Arena, c: int, t: Tree)
    requires Holds(s0, c, t) && HalvedIn(s0, s, t, 0, VALUES)
    ensures Reworked(s0, s, c, t) && s[c].escapes == s0[c].escapes && s[c].symbols == s0[c].symbols
  {
    HalvedKeeps(s0, s, t, 0, VALUES);
    hide Holds, HalvedIn;
  }

  lemma NothingReworked(s: Arena, c: int, t: Tree)
    ensures Reworked(s, s, c, t)
  {
  }

  lemma RescaledTotal(m: Context, minimum: Minimum)
    requires |m.counts| == VALUES
    ensures Rescaled(m).counts == HalveAll(m.counts) && Rescaled(m).escapes == Halve(m.escapes)
    ensures Total(Rescaled(m), minimum)
         == Sum(HalveAll(m.counts), 0, |m.counts|) + Halve(m.escapes) + (if minimum == 1 then 256 else 0)
    ensures Total(Rescaled(m), minimum) <= Total(m, minimum)
    ensures Sum(m.counts, 0, |m.counts|) <= Total(m, minimum)
  {
    HalvedNoLarger(m.counts, 0, |m.counts|);
  }

  /** After counting and writing a parent, the context's statistics are still the old ones. */
  lemma CountedThenWritten(s0: Arena, s1: Arena, s2: Arena, top: int, c: int, t: Tree, t1: Tree, v: uint8,
                           update: uint8,
                           at: int, symbol: int)
    requires |t.counts| == VALUES && 0 <= c < top < |s0| && Counts(s0, s1, c, t, t1, v, update, top, symbol)
    requires 0 <= at ==> at < |s1| && 0 <= symbol < 0x1_0000 && s2 == s1[at := s1[at].(parent := symbol)]
    requires at < 0 ==> s2 == s1
    ensures |s1| == |s2| == |s0| && Holds(s2, c, t1) && t1.counts == t.counts[v := t.counts[v] + update]
    ensures s2[c].escapes == s0[c].escapes && s2[c].total == s0[c].total
  {
    hide NodeOk, ShapeOk;
    if 0 <= at {
      ParentWritten(s1, s2, c, t1, at, symbol);
    }
    hide Holds;
  }

  lemma UpdatedIs(s0: Arena, s1: Arena, s2: Arena, s3: Arena, top: int, c: int, t: Tree, x: Context,
                  minimum: Minimum, v: uint8, update: uint8, at: int, symbol: int, t1: Tree, t3: Tree)
    requires |t.counts| == |x.counts| == VALUES && 0 <= c < |s0| == |s1| == |s3|
    requires Counts(s0, s1, c, t, t1, v, update, top, symbol)
    requires 0 <= at ==> at < top && at < |s1| && 0 <= symbol < 0x1_0000 && s2 == s1[at := s1[at].(parent := symbol)]
    requires at < 0 ==> s2 == s1
    requires Reworked(s2, s3, c, t1) && Holds(s3, c, t3) && t3.at == t1.at
    requires t3.counts == Adapted(x, minimum, v).counts
    requires s3[c].escapes == Adapted(x, minimum, v).escapes && s3[c].total == Total(Adapted(x, minimum, v), minimum)
    ensures Updated(s0, s1, s2, s3, top, c, t, x, minimum, v, update, at, symbol, t1, t3)
  {
    hide Counts, Reworked, Holds, Adapted, Total;
  }
}
