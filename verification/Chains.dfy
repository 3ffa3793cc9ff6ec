/** Walking the chain of contexts that learn one byte: which contexts have been visited, which
    symbol still waits for its parent, and how the walk starts, goes on and ends. */
module Chains {
  import opened Words
  import opened Contexts
  import opened Ppm
  import opened Compression
  import opened SymbolTrees
  import opened ContextWalks
  import opened Storage
  import opened Learning
  import opened ChainSteps

  /** `f` is a context to stop at: on the chain, and either the root or one that knows the byte. */
  ghost predicate StopsAt(w: Work, f: History)
    requires ValidModel(w.model)
  {
    && f in w.model.contexts && f in Chain(w.model.predicted, f)
    && (f.Root? || (|w.model.contexts[f].counts| == VALUES && w.model.contexts[f].counts[w.value] > 0))
  }

  /** The walk to `f` stands before context `cur`: `visited` are the contexts above it, `base`
      those that learned the byte before the walk began, nothing in the encoder and `f` itself
      in the decoder; the newest symbol is that of `p`, in slot `at` (none if negative), and
      `next` is the slot of the context the byte leads to. */
  ghost predicate OnChain(w: Work, f: History, base: set<History>, visited: set<History>, cur: History, p: History,
                          at: int, next: int)
  {
    && ValidModel(w.model) && StopsAt(w, f)
    && cur in w.model.contexts && cur in w.layout.index
    && w.seen == visited + base
    && visited + Chain(cur, f) == Chain(w.model.predicted, f) && f in Chain(cur, f)
    && (if base == {} then Found(w.model.contexts, cur, w.value) == f else base == {f})
    && cur !in visited && |visited| + Len(cur) <= Len(w.model.predicted)
    && (forall k :: k in visited ==> Len(cur) < Len(k))
    && Awaited(w.layout, w.pending, p, at, Then(cur, w.value))
    && (if visited == {} then at < 0 && cur == w.model.predicted
        else at >= 0 && Then(w.model.predicted, w.value) in w.layout.index
             && next == w.layout.index[Then(w.model.predicted, w.value)])
  }

  /** Every context of the chain down to `f` has learned the byte. */
  ghost predicate Visited(s: Arena, w: Work, f: History, next: int) {
    && AtWork(s, w) && ValidModel(w.model) && w.pending == {} && StopsAt(w, f)
    && w.seen == Chain(w.model.predicted, f)
    && Then(w.model.predicted, w.value) in w.layout.index
    && next == w.layout.index[Then(w.model.predicted, w.value)]
  }

  lemma ChainStarts(s: Arena, top: nat, l: Layout, m: Model, v: uint8, next: int) returns (w: Work)
    requires Rests(s, top, l, m)
    ensures w == Work(top, l, m, v, {}, {}) && AtWork(s, w)
    ensures ValidModel(m) && OnChain(w, Found(m.contexts, m.predicted, v), {}, {}, m.predicted, Root, -1, next)
  {
    hide Rests, Learned, ValidContexts, Chain, Found, Shorter, Len;
    w := Work(top, l, m, v, {}, {});
    LearningStarts(s, top, l, m, v);
    RestsIndexed(s, top, l, m);
    FoundStops(m, v);
  }

  lemma FoundStops(m: Model, v: uint8)
    requires ValidModel(m)
    ensures var f := Found(m.contexts, m.predicted, v);
      f in m.contexts && f in Chain(m.predicted, f) && |m.contexts[f].counts| == VALUES
      && (f.Root? || m.contexts[f].counts[v] > 0)
  {
    FoundOnChain(m.contexts, m.predicted, v);
    hide Chain, Found, Shorter, Len;
    ContextsValid(m.contexts, Found(m.contexts, m.predicted, v));
  }

  lemma RestsIndexed(s: Arena, top: nat, l: Layout, m: Model)
    requires Rests(s, top, l, m)
    ensures ValidModel(m) && ValidContexts(m.contexts) && m.predicted in m.contexts && m.predicted in l.index
    ensures Root in m.contexts && Root in l.index && l.index[Root] == 0
    ensures |s| == 0x1000 && 0 < top == |m.contexts| < 0x1000
    ensures forall h {:trigger l.index[h]} :: h in m.contexts ==> h in l.index && 0 <= l.index[h] < top
  {
    hide ContextAt, ValidContexts, Parents;
    assert ValidContexts(m.contexts);
    assert m.contexts != map[];
  }

  /** The root is the context in slot 0. */
  lemma AtRoot(s: Arena, w: Work, h: History)
    requires AtWork(s, w) && h in w.model.contexts && h in w.layout.index
    ensures h.Root? <==> w.layout.index[h] == 0
  {
    LearnedHas(w, h);
    assert Slots(w.top, w.layout, Learn(w.model.contexts, w.seen, w.value));
    hide Learned, Stored, Learn, ValidModel;
    assert Root in w.layout.index;
    assert h.Root? ==> h == Root;
  }

  lemma LearnedHas(w: Work, h: History)
    requires ValidModel(w.model) && h in w.model.contexts && w.seen <= w.model.contexts.Keys
    ensures forall k :: k in w.model.contexts ==> |w.model.contexts[k].counts| == VALUES
    ensures h in Learn(w.model.contexts, w.seen, w.value)
  {
    CountsSized(w.model.contexts);
    LearnedKeys(w.model.contexts, w.seen, w.value);
    hide ValidModel, Learn;
  }

  /** The arena never overflows: before a context is visited there is a free slot. */
  lemma StillRoom(s: Arena, w: Work, extra: set<History>, visited: set<History>, cur: History)
    requires AtWork(s, w) && w.seen == visited + extra && |extra| <= 1
    requires |visited| + Len(cur) <= Len(w.model.predicted) && (extra == {} || cur.Then?)
    ensures w.top < SLOTS == 0x1000
  {
    LearnedSizes(s, w);
    assert |visited + extra| <= |visited| + |extra|;
    hide Learned;
  }

  lemma LearnedSizes(s: Arena, w: Work)
    requires AtWork(s, w)
    ensures ValidModel(w.model)
    ensures forall h :: h in w.model.contexts ==> |w.model.contexts[h].counts| == VALUES
    ensures w.top == |Learn(w.model.contexts, w.seen, w.value)| <= |w.model.contexts| + |w.seen|
    ensures |w.model.contexts| < 4094 && Len(w.model.predicted) <= 2
  {
    CountsSized(w.model.contexts);
    LearnedSize(w.model.contexts, w.seen, w.value);
    hide Learn, ValidContexts, ContextAt, Parents;
  }

  /** The lower orders' slots are the parents. */
  lemma ParentOf(s: Arena, w: Work, h: History)
    requires AtWork(s, w) && h in w.model.contexts && h.Then? && h in w.layout.index && h !in w.pending
    ensures Shorter(h) in w.model.contexts && Shorter(h) in w.layout.index
    ensures 0 <= w.layout.index[h] < |s| && s[w.layout.index[h]].parent == w.layout.index[Shorter(h)]
  {
    LearnedHas(w, h);
    assert ValidContexts(w.model.contexts);
    hide Learn, ContextAt;
  }

  /** A context above `f` was visited: the walk goes on to the next lower order. */
  lemma ChainGoesOn(s: Arena, w: Work, w1: Work, f: History, base: set<History>, visited: set<History>, cur: History,
                    p: History, at: int, next: int, symbol: int)
    requires OnChain(w, f, base, visited, cur, p, at, next) && AtWork(s, w1) && cur != f
    requires |w.model.contexts[cur].counts| == VALUES && Advances(w, w1, cur, symbol) && symbol >= 0
    ensures cur.Then? && cur in w1.layout.index && w1.layout.index[cur] == w.layout.index[cur]
    ensures 0 <= w1.layout.index[cur] < |s| && Shorter(cur) in w1.layout.index && Len(Shorter(cur)) < Len(cur)
    ensures s[w1.layout.index[cur]].parent == w1.layout.index[Shorter(cur)]
    ensures w1.model == w.model && w1.value == w.value
    ensures forall k :: k in w.layout.index ==> k in w1.layout.index && w1.layout.index[k] == w.layout.index[k]
    ensures OnChain(w1, f, base, visited + {cur}, Shorter(cur), Then(cur, w.value), symbol, if at < 0 then symbol
      else next)
  {
    hide *;
    ChainFacts(w, f, base, visited, cur, p, at, next);
    ChainBelow(w.model.contexts, cur, f, w.value);
    AdvancedTo(w, w1, cur, symbol);
    ThenDiffers(cur, w.value);
    ParentOf(s, w1, cur);
    VisitedOneMore(visited, cur, Shorter(cur), Chain(cur, f), Chain(Shorter(cur), f));
    SeenMore(w.seen, w1.seen, visited, base, cur);
    LowerChain(w, w1, f, base, visited + {cur}, Shorter(cur), Then(cur, w.value), symbol, if at < 0 then symbol
      else next);
  }

  lemma SeenMore(seen: set<History>, seen1: set<History>, visited: set<History>, base: set<History>, cur: History)
    requires seen == visited + base && seen1 == seen + {cur}
    ensures seen1 == (visited + {cur}) + base && visited + {cur} != {}
  {
  }

  lemma ChainFacts(w: Work, f: History, base: set<History>, visited: set<History>, cur: History, p: History, at: int,
                   next: int)
    requires OnChain(w, f, base, visited, cur, p, at, next)
    ensures ValidModel(w.model) && ValidContexts(w.model.contexts) && StopsAt(w, f)
    ensures cur in w.model.contexts && cur in w.layout.index
    ensures w.seen == visited + base
    ensures visited + Chain(cur, f) == Chain(w.model.predicted, f) && f in Chain(cur, f)
    ensures if base == {} then Found(w.model.contexts, cur, w.value) == f else base == {f}
    ensures cur !in visited && |visited| + Len(cur) <= Len(w.model.predicted)
    ensures forall k :: k in visited ==> Len(cur) < Len(k)
    ensures var longer := Then(w.model.predicted, w.value);
      if at < 0 then cur == w.model.predicted else longer in w.layout.index && next == w.layout.index[longer]
    ensures cur.Then? ==> Len(Shorter(cur)) == Len(cur) - 1
  {
    hide Chain, Found, Len, Shorter, Awaited, ValidContexts, StopsAt;
  }

  lemma LowerChain(w: Work, w1: Work, f: History, base: set<History>, visited: set<History>, cur: History, p: History,
                   at: int, next: int)
    requires ValidModel(w.model) && StopsAt(w, f) && w1.model == w.model && w1.value == w.value
    requires ValidContexts(w.model.contexts) && cur in w.model.contexts && cur in w1.layout.index
    requires w1.seen == visited + base
    requires visited + Chain(cur, f) == Chain(w.model.predicted, f) && f in Chain(cur, f)
    requires if base == {} then Found(w.model.contexts, cur, w.value) == f else base == {f}
    requires cur !in visited && |visited| + Len(cur) <= Len(w.model.predicted) && visited != {} && 0 <= at
    requires forall k :: k in visited ==> Len(cur) < Len(k)
    requires Awaited(w1.layout, w1.pending, p, at, Then(cur, w.value))
    requires Then(w.model.predicted, w.value) in w1.layout.index
    requires next == w1.layout.index[Then(w.model.predicted, w.value)]
    ensures OnChain(w1, f, base, visited, cur, p, at, next)
  {
    hide Chain, Found, Len, Shorter, Awaited, ValidModel, ValidContexts;
  }

  /** What a visit leaves behind. */
  lemma AdvancedTo(w: Work, w1: Work, cur: History, symbol: int)
    requires ValidModel(w.model) && cur in w.model.contexts && cur in w.layout.index
    requires |w.model.contexts[cur].counts| == VALUES && Advances(w, w1, cur, symbol) && symbol >= 0 && cur.Then?
    ensures w1.model == w.model && w1.value == w.value && w1.seen == w.seen + {cur}
    ensures w1.pending <= {Then(cur, w.value)}
    ensures Awaited(w1.layout, w1.pending, Then(cur, w.value), symbol, Then(Shorter(cur), w.value))
    ensures Then(cur, w.value) in w1.layout.index && w1.layout.index[Then(cur, w.value)] == symbol
    ensures forall k :: k in w.layout.index ==> k in w1.layout.index && w1.layout.index[k] == w.layout.index[k]
  {
    ShorterThen(cur, w.value);
    hide ValidModel, Shorter;
  }

  lemma ChainBelow(t: Table, h: History, f: History, v: uint8)
    requires ValidContexts(t) && h in t && h != f && f in Chain(h, f)
    ensures h.Then? && Shorter(h) in t
    ensures Chain(h, f) == {h} + Chain(Shorter(h), f) && f in Chain(Shorter(h), f)
    ensures Found(t, h, v) == f ==> Found(t, Shorter(h), v) == f
  {
    hide ValidContexts;
    ContextsValid(t, h);
  }

  lemma VisitedOneMore(visited: set<History>, cur: History, next: History, below: set<History>, below1: set<History>)
    requires cur !in visited && below == {cur} + below1 && Len(next) < Len(cur)
    requires forall k :: k in visited ==> Len(cur) < Len(k)
    ensures (visited + {cur}) + below1 == visited + below
    ensures next !in visited + {cur} && |visited + {cur}| == |visited| + 1
    ensures forall k :: k in visited + {cur} ==> Len(next) < Len(k)
  {
    hide Len;
  }

  lemma ShorterThen(h: History, v: uint8)
    requires h.Then?
    ensures Shorter(Then(h, v)) == Then(Shorter(h), v)
  {
  }

  /** The last context was visited. */
  lemma ChainEnds(s: Arena, w: Work, w1: Work, f: History, visited: set<History>, p: History, at: int, next: int,
                  symbol: int)
    requires OnChain(w, f, {}, visited, f, p, at, next) && AtWork(s, w1)
    requires |w.model.contexts[f].counts| == VALUES && Advances(w, w1, f, symbol)
    ensures w1.model == w.model && w1.value == w.value
    ensures Visited(s, w1, f, if at < 0 then symbol else next)
  {
    hide AtWork, ValidModel;
    assert Chain(f, f) == {f};
    assert w1.seen == visited + Chain(f, f);
  }

  /** Where the encoder stops is where the byte is known, or the root. */
  lemma StopsHere(w: Work, f: History, visited: set<History>, cur: History, p: History, at: int, next: int)
    requires OnChain(w, f, {}, visited, cur, p, at, next) && |w.model.contexts[cur].counts| == VALUES
    ensures cur == f <==> cur.Root? || w.model.contexts[cur].counts[w.value] > 0
  {
    hide Chain, Len, Shorter, Awaited;
  }

  /** What visiting the next context of the walk may rely on. */
  lemma VisitReady(s: Arena, w: Work, f: History, visited: set<History>, cur: History, p: History, at: int, next: int)
    requires AtWork(s, w) && OnChain(w, f, {}, visited, cur, p, at, next)
    ensures ValidModel(w.model) && cur in w.model.contexts && cur !in w.seen && cur in w.layout.index
    ensures w.top < SLOTS == 0x1000 && 0 <= w.layout.index[cur] < w.top
    ensures Awaited(w.layout, w.pending, p, at, Then(cur, w.value))
    ensures |w.model.contexts[cur].counts| == VALUES == 0x100 && ValidContext(w.model.contexts[cur], MinimumOf(cur))
    ensures cur.Root? <==> w.layout.index[cur] == 0
    ensures MinimumOf(cur) == if cur.Root? then 1 else 0
    ensures cur.Then? ==> Len(Shorter(cur)) < Len(cur)
  {
    hide AtWork, ValidContexts, Found, Chain, Len, Shorter, Awaited;
    AtRoot(s, w, cur);
    StillRoom(s, w, {}, visited, cur);
    WorkReady(s, w, cur, p, at);
  }

  /** The decoder found the byte in `f`: patching starts at the longest context. */
  lemma PatchStarts(s: Arena, w0: Work, w: Work, f: History, symbol: int, next: int)
    requires w0.seen == {} && w0.pending == {} && AtWork(s, w) && ValidModel(w0.model) && StopsAt(w0, f)
    requires |w0.model.contexts[f].counts| == VALUES && Advances(w0, w, f, symbol)
    requires w0.model.predicted in w0.layout.index
    ensures OnChain(w, f, {f}, {}, w0.model.predicted, Root, -1, next)
    ensures Then(f, w0.value) in w.layout.index && w.layout.index[Then(f, w0.value)] == symbol
    ensures w0.model.predicted in w.layout.index
    ensures w.layout.index[w0.model.predicted] == w0.layout.index[w0.model.predicted]
    ensures w.model == w0.model && w.value == w0.value
  {
    hide AtWork, ValidContexts, Found, Chain, Len, Shorter;
    assert {} + Chain(w0.model.predicted, f) == Chain(w0.model.predicted, f);
  }

  lemma PatchReady(s: Arena, w: Work, f: History, visited: set<History>, cur: History, p: History, at: int, next: int)
    requires AtWork(s, w) && OnChain(w, f, {f}, visited, cur, p, at, next) && f in w.layout.index
    ensures ValidModel(w.model) && cur in w.model.contexts && cur in w.layout.index && |s| == SLOTS == 0x1000
    ensures w.layout.index[cur] == w.layout.index[f] <==> cur == f
    ensures 0 <= w.layout.index[cur] && at < w.top <= 0x1000
    ensures cur != f ==> cur !in w.seen && cur.Then? && w.top < SLOTS
    ensures Awaited(w.layout, w.pending, p, at, Then(cur, w.value))
  {
    hide AtWork, ValidContexts, Found, Chain, Len, Shorter, Awaited;
    SlotsDiffer(s, w, cur, f);
    AwaitedInUse(s, w, p, at, Then(cur, w.value));
    if cur != f {
      ChainBelow(w.model.contexts, cur, f, w.value);
      StillRoom(s, w, {f}, visited, cur);
    }
  }

  lemma AwaitedInUse(s: Arena, w: Work, p: History, at: int, target: History)
    requires AtWork(s, w) && Awaited(w.layout, w.pending, p, at, target)
    ensures at < w.top <= 0x1000 && |s| == SLOTS == 0x1000
  {
    hide Learned, Awaited;
    AwaitedSlot(s, w.top, w.layout, w.model, w.value, w.seen, w.pending, p, at, target);
  }

  lemma SlotsDiffer(s: Arena, w: Work, h: History, k: History)
    requires AtWork(s, w) && h in w.model.contexts && k in w.model.contexts && h in w.layout.index
    requires k in w.layout.index
    ensures w.layout.index[h] == w.layout.index[k] <==> h == k
    ensures 0 <= w.layout.index[h]
  {
    LearnedHas(w, h);
    LearnedHas(w, k);
    hide Learn, ContextAt, ValidModel, Parents;
  }

  /** The last symbol's parent is the one in `f`, which was there first. */
  lemma PatchEnds(s0: Arena, s: Arena, w: Work, f: History, visited: set<History>, p: History, at: int, next: int,
                  bottom: uint16)
    returns (w1: Work)
    requires AtWork(s0, w) && OnChain(w, f, {f}, visited, f, p, at, next)
    requires Then(f, w.value) in w.layout.index && bottom == w.layout.index[Then(f, w.value)]
    requires 0 <= at ==> at < |s0| && s == s0[at := s0[at].(parent := bottom)]
    requires at < 0 ==> s == s0
    ensures w1.model == w.model && w1.value == w.value && w1.top == w.top
    ensures Visited(s, w1, f, if at < 0 then bottom else next)
  {
    hide AtWork, ValidContexts, Found, Len, Shorter, Awaited;
    w1 := w.(pending := {});
    LastParent(s0, s, w, p, at, Then(f, w.value), bottom);
    assert Chain(f, f) == {f};
  }

  lemma LastParent(s0: Arena, s: Arena, w: Work, p: History, at: int, target: History, bottom: uint16)
    requires AtWork(s0, w) && Awaited(w.layout, w.pending, p, at, target)
    requires target in w.layout.index && bottom == w.layout.index[target]
    requires 0 <= at ==> at < |s0| && s == s0[at := s0[at].(parent := bottom)]
    requires at < 0 ==> s == s0
    ensures AtWork(s, w.(pending := {}))
  {
    hide Learn, ValidModel, Stored, Awaited, Parents;
    if 0 <= at {
      LearnedSizes(s0, w);
      var t := Learn(w.model.contexts, w.seen, w.value);
      IndexApart(s0, w.top, w.layout, t);
      StoredFramed(s0, s, w.top, w.layout, t, at, bottom);
      ParentsFilled(s0, s, w.layout, w.pending, p, at, target, bottom);
    } else {
      NothingAwaited(w.layout, w.pending, p, at, target);
    }
  }

  lemma NothingAwaited(l: Layout, pending: set<History>, p: History, at: int, target: History)
    requires Awaited(l, pending, p, at, target) && at < 0
    ensures pending == {}
  {
  }

  lemma ParentsFilled(s0: Arena, s: Arena, l: Layout, pending: set<History>, p: History, at: int, target: History,
                      bottom: uint16)
    requires Parents(s0, l, pending) && Awaited(l, pending, p, at, target) && 0 <= at < |s0|
    requires target in l.index && bottom == l.index[target] && s == s0[at := s0[at].(parent := bottom)]
    requires forall h, k {:trigger l.index[h], l.index[k]} :: h in l.index && k in l.index && h != k ==>
      l.index[h] != l.index[k]
    ensures Parents(s, l, {})
  {
    hide Shorter;
  }

  lemma IndexApart(s: Arena, top: int, l: Layout, m: Table)
    requires Stored(s, top, l, m)
    ensures forall h, k {:trigger l.index[h], l.index[k]} :: h in l.index && k in l.index && h != k ==>
      l.index[h] != l.index[k]
  {
    hide ContextAt;
  }

  lemma StoredFramed(s0: Arena, s: Arena, top: int, l: Layout, m: Table, at: nat, parent: uint16)
    requires Stored(s0, top, l, m) && at < |s0| && s == s0[at := s0[at].(parent := parent)]
    ensures Stored(s, top, l, m)
  {
    forall h {:trigger ContextAt(s, l, m, h)} | h in m ensures ContextAt(s, l, m, h) {
      assert ContextAt(s0, l, m, h);
      ParentWritten(s0, s, l.index[h], l.trees[h], at, parent);
      hide Holds;
    }
    hide ContextAt;
  }
}
