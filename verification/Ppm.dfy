/** The adaptive order-2 model: which contexts exist, what coding a byte does to them, and
    the compressed form of a byte sequence.  Contexts are named by the bytes they follow,
    so that the model does not depend on where a coder stores them. */
module Ppm {
  import opened Words
  import opened Contexts

  const ORDER := 2
  const ARENA := 4096

  // ----- histories -----

  /** The bytes a context follows, oldest innermost; `Root` follows nothing. */
  datatype History = Root | Then(context: History, value: uint8)

  function Len(h: History): nat {
    match h case Root => 0 case Then(c, _) => 1 + Len(c)
  }

  /** The history without its oldest byte: the next lower order. */
  function Shorter(h: History): (s: History)
    requires h.Then?
    ensures Len(s) == Len(h) - 1
  {
    if h.context.Root? then Root else Then(Shorter(h.context), h.value)
  }

  /** The contexts tried from `h` down to `last`. */
  function Chain(h: History, last: History): set<History>
    decreases Len(h)
  {
    if h == last || h.Root? then {h} else {h} + Chain(Shorter(h), last)
  }

  lemma {:induction false} ChainLengths(h: History, last: History)
    ensures forall k :: k in Chain(h, last) ==> Len(k) <= Len(h) && (Len(k) == Len(h) ==> k == h)
    ensures |Chain(h, last)| <= Len(h) + 1
    decreases Len(h)
  {
    if !(h == last || h.Root?) {
      ChainLengths(Shorter(h), last);
    }
  }

  // ----- the model -----

  type Table = map<History, Context>

  datatype Model = Model(contexts: Table, predicted: History)

  const Fresh := Model(map[Root := FreshRoot()], Root)

  function MinimumOf(h: History): Minimum { if h.Root? then 1 else 0 }

  /** Every context is usable and has its lower orders below it. */
  ghost predicate ValidContexts(m: Table) {
    && Root in m
    && (forall h :: h in m ==> ValidContext(m[h], MinimumOf(h)))
    && (forall h {:trigger h.context} :: h in m && h.Then? ==> h.context in m)
    && (forall h {:trigger Shorter(h)} :: h in m && h.Then? ==> Shorter(h) in m)
    && (forall h, v: uint8 {:trigger m[h].counts[v]} {:trigger Then(h, v)} ::
          h in m ==> (m[h].counts[v] > 0 <==> Then(h, v) in m))
  }

  ghost predicate ValidModel(m: Model) {
    && ValidContexts(m.contexts)
    && m.predicted in m.contexts
    && Len(m.predicted) <= ORDER
    && |m.contexts| < ARENA - ORDER
  }

  /** Where coding `v` from `h` stops: the highest order that has seen it, else the root. */
  function Found(m: Table, h: History, v: uint8): (f: History)
    requires ValidContexts(m) && h in m
    ensures f in m && f in Chain(h, f)
    ensures f.Root? || m[f].counts[v] > 0
    decreases Len(h)
  {
    if h.Root? || m[h].counts[v] > 0 then h else Found(m, Shorter(h), v)
  }

  /** The intervals coded for `v`: escapes down to where it is found, then its own. */
  function Intervals(m: Table, h: History, v: uint8): (ivs: seq<Interval>)
    requires ValidContexts(m) && h in m
    ensures forall i :: 0 <= i < |ivs| ==> ValidInterval(ivs[i])
    ensures ivs != []
    decreases Len(h)
  {
    var c := m[h];
    if h.Root? || c.counts[v] > 0 then (
      SymbolIntervalValid(c, MinimumOf(h), v);
      [SymbolInterval(c, MinimumOf(h), v)])
    else (
      (if 0 < c.escapes < Total(c, 0) then [EscapeInterval(c, 0)] else []) + Intervals(m, Shorter(h), v))
  }

  /** The contexts in `seen` see `v`; where it is new, the context that follows it is created. */
  function Learn(m: Table, seen: set<History>, v: uint8): Table
    requires forall h :: h in m ==> |m[h].counts| == VALUES
  {
    map h | h in m.Keys + (set k | k in seen :: Then(k, v)) ::
      if h !in m then EmptyContext()
      else if h in seen then Adapted(m[h], MinimumOf(h), v)
      else m[h]
  }

  /** The model after `v` was coded with its symbol in context `found`. */
  function Advance(m: Model, found: History, v: uint8): Model
    requires forall h :: h in m.contexts ==> |m.contexts[h].counts| == VALUES
  {
    var learned := Learn(m.contexts, Chain(m.predicted, found), v);
    var longer := Then(m.predicted, v);
    if |learned| >= ARENA - ORDER then Fresh
    else Model(learned, if Len(m.predicted) >= ORDER then Shorter(longer) else longer)
  }

  lemma FreshValid()
    ensures ValidModel(Fresh)
  {
    SumOfZeros(NoCounts(), 0, |NoCounts()|);
    assert forall h :: h in Fresh.contexts <==> h == Root;
  }

  // ----- the model stays valid -----

  lemma LearnedKeys(m: Table, seen: set<History>, v: uint8)
    requires ValidContexts(m) && seen <= m.Keys
    ensures forall h :: h in Learn(m, seen, v) <==> h in m || (h.Then? && h.value == v && h.context in seen)
  {
  }

  lemma LearnedContexts(m: Table, seen: set<History>, v: uint8)
    requires ValidContexts(m) && seen <= m.Keys
    ensures var l := Learn(m, seen, v);
      forall h :: h in l ==> (
        && ValidContext(l[h], MinimumOf(h))
        && forall w: uint8 :: l[h].counts[w] > 0 <==> Then(h, w) in l)
  {
    var l := Learn(m, seen, v);
    LearnedKeys(m, seen, v);
    SumOfZeros(NoCounts(), 0, |NoCounts()|);
    forall h | h in l
      ensures ValidContext(l[h], MinimumOf(h))
      ensures forall w: uint8 :: l[h].counts[w] > 0 <==> Then(h, w) in l
    {
      if h in seen {
        AdaptedValid(m[h], MinimumOf(h), v);
      } else if h !in m {
        forall w: uint8 ensures Then(h, w) !in l {
        }
      }
    }
  }

  lemma {:induction false} ChainInside(m: Table, h: History, last: History)
    requires ValidContexts(m) && h in m
    ensures Chain(h, last) <= m.Keys
    ensures forall k :: k in Chain(h, last) && k != last && k.Then? ==> Shorter(k) in Chain(h, last)
    ensures h in Chain(h, last)
    decreases Len(h)
  {
    if !(h == last || h.Root?) {
      ChainInside(m, Shorter(h), last);
    }
  }

  /** A chain that stops where `v` is known, or at the root, creates no context without
      its lower orders. */
  lemma LearnValid(m: Table, h: History, found: History, v: uint8)
    requires ValidContexts(m) && h in m && found in m
    requires found.Root? || m[found].counts[v] > 0
    ensures ValidContexts(Learn(m, Chain(h, found), v))
  {
    var seen := Chain(h, found);
    ChainInside(m, h, found);
    LearnedKeys(m, seen, v);
    LearnedContexts(m, seen, v);
    var l := Learn(m, seen, v);
    forall k | k in l && k.Then? ensures k.context in l && Shorter(k) in l {
      if k !in m && k.context.Then? {
        assert k.context in seen && k.context != found;
        assert Shorter(k) == Then(Shorter(k.context), v);
      }
    }
  }

  lemma LearnedSize(m: Table, seen: set<History>, v: uint8)
    requires ValidContexts(m)
    ensures |Learn(m, seen, v)| <= |m| + |seen|
  {
    var created := set k | k in seen :: Then(k, v);
    MappedSize(seen, v);
    assert Learn(m, seen, v).Keys == m.Keys + created;
    assert |m.Keys + created| <= |m.Keys| + |created|;
  }

  lemma {:induction false} MappedSize(seen: set<History>, v: uint8)
    ensures |set k | k in seen :: Then(k, v)| == |seen|
  {
    if seen != {} {
      var one :| one in seen;
      MappedSize(seen - {one}, v);
      assert (set k | k in seen :: Then(k, v)) == (set k | k in seen - {one} :: Then(k, v)) + {Then(one, v)};
    }
  }

  /** One coding step keeps the model valid, never creates more than 4096 contexts, and
      restarts from a fresh model before the next step could. */
  lemma AdvanceValid(m: Model, found: History, v: uint8)
    requires ValidModel(m) && found in m.contexts && found in Chain(m.predicted, found)
    requires found.Root? || m.contexts[found].counts[v] > 0
    ensures ValidModel(Advance(m, found, v))
    ensures |Learn(m.contexts, Chain(m.predicted, found), v)| <= ARENA
  {
    hide Learn, Chain, Found, ValidContext, NoCounts, FreshRoot;
    FreshValid();
    LearnValid(m.contexts, m.predicted, found, v);
    ChainInside(m.contexts, m.predicted, found);
    ChainLengths(m.predicted, found);
    LearnedKeys(m.contexts, Chain(m.predicted, found), v);
    LearnedSize(m.contexts, Chain(m.predicted, found), v);
  }
}
