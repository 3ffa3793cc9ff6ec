/** The arena while a byte is being learned: some contexts of the chain have seen it, and the
    newest symbol may still wait for its parent.  The encoder goes down the chain, the
    decoder starts at its end; both are sequences of the step proved here. */
module Learning {
  import opened Words
  import opened Contexts
  import opened Ppm
  import opened SymbolTrees
  import opened ContextWalks
  import opened Storage

  ghost predicate Learned(s: Arena, top: int, l: Layout, m: Model, v: uint8, seen: set<History>,
                          pending: set<History>) {
    && ValidModel(m) && seen <= m.contexts.Keys
    && Stored(s, top, l, Learn(m.contexts, seen, v))
    && Parents(s, l, pending)
  }

  /** The arena holds the model, and every parent is in place. */
  ghost predicate Rests(s: Arena, top: int, l: Layout, m: Model) {
    ValidModel(m) && Stored(s, top, l, m.contexts) && Parents(s, l, {})
  }

  lemma LearningStarts(s: Arena, top: int, l: Layout, m: Model, v: uint8)
    requires Rests(s, top, l, m)
    ensures Learned(s, top, l, m, v, {}, {})
  {
    hide ContextAt, Slots, Parents, Adapted, EmptyContext;
    CountsSized(m.contexts);
    var none := Learn(m.contexts, {}, v);
    assert none.Keys == m.contexts.Keys;
    assert none == m.contexts;
  }

  /** What counting `v` in context `h` may rely on. */
  lemma ReadyToCount(s: Arena, top: int, l: Layout, m: Model, v: uint8, seen: set<History>, pending: set<History>,
                     h: History)
    requires Learned(s, top, l, m, v, seen, pending) && h in m.contexts && h !in seen && top < SLOTS
    ensures h in l.index && h in l.trees && ValidContext(m.contexts[h], MinimumOf(h))
    ensures l.trees[h].counts == m.contexts[h].counts
    ensures 0 <= l.index[h] < top && Room(s, l.index[h], l.trees[h], Delta(MinimumOf(h)), top)
    ensures s[l.index[h]].escapes == m.contexts[h].escapes
    ensures s[l.index[h]].total == Total(m.contexts[h], MinimumOf(h))
    ensures v in l.trees[h].at <==> m.contexts[h].counts[v] > 0
  {
    var t := Learn(m.contexts, seen, v);
    LearnedOneMore(m.contexts, seen, h, v);
    assert ValidContext(m.contexts[h], MinimumOf(h));
    assert Stored(s, top, l, t);
    hide Learn, Learned, ValidModel, ValidContexts;
    TreeBelow(s, top, l, t, h);
    assert ContextAt(s, l, t, h);
    CountedInTree(s, l, t, h, v);
    hide Stored, ContextAt;
    RoomThere(s, l.index[h], l.trees[h], m.contexts[h], MinimumOf(h), top);
  }

  lemma RoomThere(s: Arena, c: int, t: Tree, x: Context, minimum: Minimum, top: int)
    requires Holds(s, c, t) && ValidContext(x, minimum) && t.counts == x.counts && |s| == SLOTS && c < top < SLOTS
    requires forall u {:trigger t.at[u]} :: u in t.at ==> t.at[u] < top
    ensures Room(s, c, t, Delta(minimum), top)
  {
    hide Holds;
  }

  lemma TreeBelow(s: Arena, top: int, l: Layout, m: Table, h: History)
    requires Stored(s, top, l, m) && h in m
    ensures h in l.trees && forall u {:trigger l.trees[h].at[u]} :: u in l.trees[h].at ==> l.trees[h].at[u] < top
  {
    assert ContextAt(s, l, m, h);
    forall u | u in l.trees[h].at ensures l.trees[h].at[u] < top {
      ShapeRangeOf(s, l.index[h], l.trees[h], u);
      ThenStored(s, top, l, m, h, u);
    }
  }

  /** One context of the chain has seen `v`. */
  lemma LearnStep(s0: Arena, s1: Arena, s2: Arena, s3: Arena, top: int, l: Layout, m: Model, v: uint8,
                  seen: set<History>, pending: set<History>, h: History, update: uint8,
                  p: History, at: int, symbol: int, t1: Tree, t3: Tree)
    returns (l1: Layout, pending1: set<History>)
    requires Learned(s0, top, l, m, v, seen, pending) && h in m.contexts && h !in seen && top < SLOTS
    requires h in l.index && h in l.trees && |m.contexts[h].counts| == VALUES
    requires v in l.trees[h].at <==> m.contexts[h].counts[v] > 0
    requires Awaited(l, pending, p, at, Then(h, v))
    requires Updated(s0, s1, s2, s3, top, l.index[h], l.trees[h], m.contexts[h], MinimumOf(h), v, update, at, symbol,
                     t1, t3)
    ensures Learned(s3, if v in l.trees[h].at then top else top + 1, l1, m, v, seen + {h}, pending1)
    ensures Then(h, v) in l1.index && l1.index[Then(h, v)] == symbol
    ensures pending1 == if v in l.trees[h].at || h.Root? then {} else {Then(h, v)}
    ensures forall k :: k in l.index ==> k in l1.index && l1.index[k] == l.index[k]
  {
    hide *;
    LearnedParts(s0, top, l, m, v, seen, pending, h);
    var t := Learn(m.contexts, seen, v);
    TableStep(s0, s1, s2, s3, top, l, t, h, v, update, pending, p, at, symbol, t1, t3);
    l1 := LaidOut(l, t, h, v, t3, top);
    pending1 := if v in l.trees[h].at || h.Root? then {} else {Then(h, v)};
    IndexGrows(s0, top, l, t, h, v, t3);
    LearnedIs(s3, if v in l.trees[h].at then top else top + 1, l1, m, v, seen + {h}, pending1);
  }

  lemma LearnedParts(s: Arena, top: int, l: Layout, m: Model, v: uint8, seen: set<History>, pending: set<History>,
                     h: History)
    requires Learned(s, top, l, m, v, seen, pending) && h in m.contexts && h !in seen
    ensures ValidModel(m) && seen <= m.contexts.Keys && Parents(s, l, pending)
    ensures forall k :: k in m.contexts ==> |m.contexts[k].counts| == VALUES
    ensures var t := Learn(m.contexts, seen, v);
      && Stored(s, top, l, t)
      && h in t && t[h] == m.contexts[h]
      && (Then(h, v) in t <==> m.contexts[h].counts[v] > 0)
      && LearnedOne(t, h, v) == Learn(m.contexts, seen + {h}, v)
  {
    LearnedOneMore(m.contexts, seen, h, v);
    CountsSized(m.contexts);
    hide Stored, Learn, LearnedOne, Parents;
  }

  lemma LearnedIs(s: Arena, top: int, l: Layout, m: Model, v: uint8, seen: set<History>, pending: set<History>)
    requires ValidModel(m) && seen <= m.contexts.Keys
    requires forall k :: k in m.contexts ==> |m.contexts[k].counts| == VALUES
    requires Stored(s, top, l, Learn(m.contexts, seen, v)) && Parents(s, l, pending)
    ensures Learned(s, top, l, m, v, seen, pending)
  {
    hide Stored, Learn, Parents, ValidModel;
  }

  lemma IndexGrows(s: Arena, top: int, l: Layout, m: Table, h: History, v: uint8, t: Tree)
    requires Stored(s, top, l, m) && h in m
    ensures var l1 := LaidOut(l, m, h, v, t, top);
      && (forall k :: k in l.index ==> k in l1.index && l1.index[k] == l.index[k])
      && Then(h, v) in l1.index
      && l1.index[Then(h, v)] == (if Then(h, v) in m then l.index[Then(h, v)] else top)
  {
    LaidOutIndex(l, m, h, v, t, top);
    hide LaidOut;
  }

  /** The slot a parent is written to is in use. */
  lemma AwaitedSlot(s: Arena, top: int, l: Layout, m: Model, v: uint8, seen: set<History>, pending: set<History>,
                    p: History, at: int, target: History)
    requires Learned(s, top, l, m, v, seen, pending) && Awaited(l, pending, p, at, target)
    ensures at < top && |s| == SLOTS && top <= SLOTS == 0x1000
  {
    hide ValidModel, Learn, Parents, ContextAt;
  }

  /** Encoder and decoder create their symbols in different orders, so that their arenas are
      not equal.  But arenas at rest with one model are equal up to the renaming of slots that
      takes each context's slot to its slot in the other arena. */
  lemma InStep(s1: Arena, top1: int, l1: Layout, s2: Arena, top2: int, l2: Layout, m: Model)
    requires Rests(s1, top1, l1, m) && Rests(s2, top2, l2, m)
    ensures top1 == top2 && l1.index.Keys == l2.index.Keys == m.contexts.Keys
    ensures forall h {:trigger l1.index[h]} {:trigger l2.index[h]} :: h in m.contexts ==> (
      && 0 <= l1.index[h] < top1 && 0 <= l2.index[h] < top1
      && var a, b := s1[l1.index[h]], s2[l2.index[h]];
      && a.escapes == b.escapes && a.total == b.total
      && (h.Then? ==> a.value == b.value == h.value && a.count == b.count)
      && (h.Then? ==> Shorter(h) in m.contexts && a.parent == l1.index[Shorter(h)] && b.parent == l2.index[Shorter(h)]))
    ensures forall h, k {:trigger l1.index[h], l1.index[k]} :: h in m.contexts && k in m.contexts ==>
      (l1.index[h] == l1.index[k] <==> l2.index[h] == l2.index[k])
  {
    SlotsApart(s1, top1, l1, m);
    SlotsApart(s2, top2, l2, m);
    hide Rests;
    forall h | h in m.contexts
      ensures 0 <= l1.index[h] < top1 && 0 <= l2.index[h] < top1
      ensures var a, b := s1[l1.index[h]], s2[l2.index[h]];
        && a.escapes == b.escapes && a.total == b.total
        && (h.Then? ==> a.value == b.value == h.value && a.count == b.count)
        && (h.Then? ==>
              Shorter(h) in m.contexts && a.parent == l1.index[Shorter(h)] && b.parent == l2.index[Shorter(h)])
    {
      SlotContents(s1, top1, l1, m, h);
      SlotContents(s2, top2, l2, m, h);
    }
  }

  lemma SlotsApart(s: Arena, top: int, l: Layout, m: Model)
    requires Rests(s, top, l, m)
    ensures top == |m.contexts| && l.index.Keys == m.contexts.Keys
    ensures forall h, k {:trigger l.index[h], l.index[k]} :: h in m.contexts && k in m.contexts && h != k ==>
      l.index[h] != l.index[k]
  {
    hide ContextAt, ValidModel, Parents;
  }

  /** A slot holds its context's statistics, and the count of its last byte in the context before. */
  lemma SlotContents(s: Arena, top: int, l: Layout, m: Model, h: History)
    requires Rests(s, top, l, m) && h in m.contexts
    ensures h in l.index && 0 <= l.index[h] < top == |m.contexts| <= |s| && |m.contexts[h].counts| == VALUES
    ensures s[l.index[h]].escapes == m.contexts[h].escapes && s[l.index[h]].total == Total(m.contexts[h], MinimumOf(h))
    ensures h.Then? ==>
      && h.context in m.contexts && |m.contexts[h.context].counts| == VALUES
      && s[l.index[h]].value == h.value && s[l.index[h]].count == m.contexts[h.context].counts[h.value]
      && Shorter(h) in m.contexts && Shorter(h) in l.index && s[l.index[h]].parent == l.index[Shorter(h)]
  {
    var t := m.contexts;
    assert ContextAt(s, l, t, h);
    if h.Then? {
      LowerOrders(t, h);
      assert ContextAt(s, l, t, h.context);
      hide ContextAt, ValidContexts, Total;
      StoredNode(s, l, t, h);
    }
    hide ContextAt, ValidContexts, Total;
  }

  lemma LowerOrders(t: Table, h: History)
    requires ValidContexts(t) && h in t && h.Then?
    ensures h.context in t && Shorter(h) in t
    ensures |t[h.context].counts| == VALUES && t[h.context].counts[h.value] > 0
  {
    var c, v := h.context, h.value;
    assert h == Then(c, v);
    assert ValidContext(t[c], MinimumOf(c));
  }

  lemma StoredNode(s: Arena, l: Layout, t: Table, h: History)
    requires h.Then? && h.context in t && h.context in l.index && h.context in l.trees
    requires |t[h.context].counts| == VALUES
    requires ContextAt(s, l, t, h.context) && t[h.context].counts[h.value] > 0
    ensures h in l.index && 0 <= l.index[h] < |s|
    ensures s[l.index[h]].value == h.value && s[l.index[h]].count == t[h.context].counts[h.value]
  {
    var tree, v := l.trees[h.context], h.value;
    assert v in tree.at;
    assert h == Then(h.context, v);
    assert NodeOk(s, tree, v);
    hide Linked, NoneCounted, Apart;
  }
}
