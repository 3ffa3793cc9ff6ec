/** One context of the chain, as the encoder visits it and as the decoder patches it. */
module ChainSteps {
  import opened Words
  import opened Contexts
  import opened Carryless
  import opened Ppm
  import opened Compression
  import opened RangeCoding
  import opened SymbolTrees
  import opened ContextWalks
  import opened Storage
  import opened Learning
  import opened SymbolArenas

  /** What the encoder codes in a context: the value if it has been counted, else an escape
      if the context can escape. */
  function CodedHere(c: Context, minimum: Minimum, v: uint8): (ivs: seq<Interval>)
    requires ValidContext(c, minimum)
    ensures forall i :: 0 <= i < |ivs| ==> ValidInterval(ivs[i])
    ensures |ivs| <= 1
  {
    if c.counts[v] + minimum > 0 then (SymbolIntervalValid(c, minimum, v); [SymbolInterval(c, minimum, v)])
    else if 0 < c.escapes < Total(c, minimum) then [EscapeInterval(c, minimum)]
    else []
  }

  /** How far learning `v` has come: the arena, the contexts that have seen it, the symbol
      that still waits for its parent. */
  datatype Work = Work(top: nat, layout: Layout, model: Model, value: uint8, seen: set<History>, pending: set<History>)

  ghost predicate AtWork(s: Arena, w: Work) {
    Learned(s, w.top, w.layout, w.model, w.value, w.seen, w.pending)
  }

  /** The work after context `h` was done and `symbol` counted there. */
  ghost predicate Advances(w: Work, w1: Work, h: History, symbol: int)
    requires h in w.model.contexts && |w.model.contexts[h].counts| == VALUES
  {
    var known := w.model.contexts[h].counts[w.value] > 0;
    && w1.model == w.model && w1.value == w.value && w1.seen == w.seen + {h}
    && w1.pending == (if known || h.Root? then {} else {Then(h, w.value)})
    && w1.top == (if known then w.top else w.top + 1)
    && Then(h, w.value) in w1.layout.index && w1.layout.index[Then(h, w.value)] == symbol
    && (forall k :: k in w.layout.index ==> k in w1.layout.index && w1.layout.index[k] == w.layout.index[k])
  }

  /** Counts the byte in one context and hands its symbol to the one before it as parent. */
  method CountIn(rc: RangeCoder, context: nat, minimum: Minimum, value: uint8, at: int,
                 ghost w: Work, ghost h: History, ghost p: History)
    returns (symbol: uint16, under: nat, count: nat, ghost s1: Arena, ghost t1: Tree)
    requires rc.symbols.Length == SLOTS && AtWork(rc.symbols[..], w) && w.value == value
    requires w.top == rc.nextSymbol < SLOTS
    requires h in w.model.contexts && h !in w.seen && h in w.layout.index && context == w.layout.index[h]
    requires minimum == MinimumOf(h) && Awaited(w.layout, w.pending, p, at, Then(h, value))
    modifies rc.symbols, rc`nextSymbol
    ensures h in w.layout.trees && |w.layout.trees[h].counts| == |w.model.contexts[h].counts| == VALUES == 0x100
    ensures Counts(old(rc.symbols[..]), s1, context, w.layout.trees[h], t1, value, Delta(minimum), w.top, symbol)
    ensures |s1| == SLOTS && at < w.top <= SLOTS && context < w.top
    ensures 0 <= at ==> rc.symbols[..] == s1[at := s1[at].(parent := symbol)]
    ensures at < 0 ==> rc.symbols[..] == s1
    ensures rc.nextSymbol == w.top + (if w.model.contexts[h].counts[value] > 0 then 0 else 1)
    ensures under == Under(w.model.contexts[h].counts, minimum, value)
    ensures count == w.model.contexts[h].counts[value] + minimum
    ensures ValidContext(w.model.contexts[h], minimum) && Holds(rc.symbols[..], context, t1)
    ensures t1.counts == w.model.contexts[h].counts[value := w.model.contexts[h].counts[value] + Delta(minimum)]
    ensures rc.symbols[context].escapes == w.model.contexts[h].escapes
    ensures rc.symbols[context].total == Total(w.model.contexts[h], minimum)
    ensures value in w.layout.trees[h].at <==> w.model.contexts[h].counts[value] > 0
  {
    hide *;
    ghost var s0 := rc.symbols[..];
    WorkReady(s0, w, h, p, at);
    var found;
    found, under, count, t1 := rc.ContextEncode(context, value, Delta(minimum), minimum, w.layout.trees[h]);
    s1 := rc.symbols[..];
    SymbolBounded(s0, s1, context, w.layout.trees[h], t1, value, Delta(minimum), w.top, found);
    symbol := found;
    if at >= 0 {
      rc.WriteParent(at, symbol);
    }
    CountedThenWritten(s0, s1, rc.symbols[..], w.top, context, w.layout.trees[h], t1, value, Delta(minimum), at,
                       symbol);
  }

  lemma WorkReady(s: Arena, w: Work, h: History, p: History, at: int)
    requires AtWork(s, w) && h in w.model.contexts && h !in w.seen && w.top < SLOTS
    requires Awaited(w.layout, w.pending, p, at, Then(h, w.value))
    ensures |s| == SLOTS == 0x1000 && h in w.layout.index && h in w.layout.trees && 0 <= w.layout.index[h] < w.top
    ensures at < w.top
    ensures var x, t, c := w.model.contexts[h], w.layout.trees[h], w.layout.index[h];
      && |x.counts| == VALUES == 0x100 && t.counts == x.counts && ValidContext(x, MinimumOf(h))
      && Room(s, c, t, Delta(MinimumOf(h)), w.top)
      && s[c].escapes == x.escapes && s[c].total == Total(x, MinimumOf(h))
      && (w.value in t.at <==> x.counts[w.value] > 0)
    ensures 0 < Delta(MinimumOf(h)) < 0x100
  {
    hide Learned, Room, Awaited, Total;
    ReadyToCount(s, w.top, w.layout, w.model, w.value, w.seen, w.pending, h);
    AwaitedSlot(s, w.top, w.layout, w.model, w.value, w.seen, w.pending, p, at, Then(h, w.value));
    hide ValidModel;
  }

  lemma SymbolBounded(s0: Arena, s1: Arena, c: int, t: Tree, t1: Tree, v: uint8, update: uint8, slot: int, symbol: int)
    requires |t.counts| == VALUES && Counts(s0, s1, c, t, t1, v, update, slot, symbol) && |s0| == SLOTS
    requires 0 <= slot < SLOTS
    ensures 0 <= symbol < SLOTS == 0x1000
  {
    if v in t.at {
      assert Holds(s1, c, t1);
      NodeFacts(s1, c, t1, v);
    }
  }

  /** The last part of a visit: adapting the statistics completes the step. */
  method FinishVisit(rc: RangeCoder, context: nat, minimum: Minimum, value: uint8, at: int, symbol: uint16, count: nat,
                     ghost w: Work, ghost h: History, ghost p: History, ghost s0: Arena, ghost s1: Arena,
                         ghost t1: Tree)
    returns (ghost w1: Work)
    requires rc.symbols.Length == SLOTS && AtWork(s0, w) && w.value == value && w.top < SLOTS
    requires h in w.model.contexts && h !in w.seen && h in w.layout.index && h in w.layout.trees
    requires context == w.layout.index[h] && minimum == MinimumOf(h) && context < w.top && at < w.top
    requires Awaited(w.layout, w.pending, p, at, Then(h, value))
    requires |s0| == SLOTS && |w.layout.trees[h].counts| == |w.model.contexts[h].counts| == VALUES
    requires Counts(s0, s1, context, w.layout.trees[h], t1, value, Delta(minimum), w.top, symbol) && |s1| == SLOTS
    requires 0 <= at ==> rc.symbols[..] == s1[at := s1[at].(parent := symbol)]
    requires at < 0 ==> rc.symbols[..] == s1
    requires rc.nextSymbol == w.top + (if w.model.contexts[h].counts[value] > 0 then 0 else 1)
    requires count == w.model.contexts[h].counts[value] + minimum && ValidContext(w.model.contexts[h], minimum)
    requires value in w.layout.trees[h].at <==> w.model.contexts[h].counts[value] > 0
    modifies rc.symbols
    ensures AtWork(rc.symbols[..], w1) && w1.top == rc.nextSymbol && Advances(w, w1, h, symbol)
  {
    hide *;
    ghost var s2 := rc.symbols[..];
    WorkReady(s0, w, h, p, at);
    CountedThenWritten(s0, s1, s2, w.top, context, w.layout.trees[h], t1, value, Delta(minimum), at, symbol);
    ghost var t3 := rc.AdaptContext(context, count, minimum, w.model.contexts[h], value, t1);
    ghost var s3 := rc.symbols[..];
    UpdatedIs(s0, s1, s2, s3, w.top, context, w.layout.trees[h], w.model.contexts[h], minimum, value,
              Delta(minimum), at, symbol, t1, t3);
    w1 := WorkDone(s0, s1, s2, s3, w, h, Delta(minimum), p, at, symbol, t1, t3);
  }

  lemma WorkDone(s0: Arena, s1: Arena, s2: Arena, s3: Arena, w: Work, h: History, update: uint8,
                 p: History, at: int, symbol: int, t1: Tree, t3: Tree)
    returns (w1: Work)
    requires AtWork(s0, w) && h in w.model.contexts && h !in w.seen && w.top < SLOTS
    requires h in w.layout.index && h in w.layout.trees && |w.model.contexts[h].counts| == VALUES
    requires w.value in w.layout.trees[h].at <==> w.model.contexts[h].counts[w.value] > 0
    requires Awaited(w.layout, w.pending, p, at, Then(h, w.value))
    requires Updated(s0, s1, s2, s3, w.top, w.layout.index[h], w.layout.trees[h], w.model.contexts[h], MinimumOf(h),
                     w.value, update, at, symbol, t1, t3)
    ensures AtWork(s3, w1) && Advances(w, w1, h, symbol)
    ensures w1.top == w.top + (if w.model.contexts[h].counts[w.value] > 0 then 0 else 1)
  {
    hide Learned, Updated, Awaited, MinimumOf;
    var l1, pending1 := LearnStep(s0, s1, s2, s3, w.top, w.layout, w.model, w.value, w.seen, w.pending, h, update,
                                  p, at, symbol, t1, t3);
    var known := w.model.contexts[h].counts[w.value] > 0;
    w1 := Work(if known then w.top else w.top + 1, l1, w.model, w.value, w.seen + {h}, pending1);
  }

  /** The encoder in one context: count the byte, code it or an escape, adapt. */
  method EncodeContext(rc: RangeCoder, context: nat, minimum: Minimum, value: uint8, at: int,
                       encodeLow: uint32, encodeRange: uint32, outData: array<uint8>, outPos: nat, outLimit: nat,
                       ghost w: Work, ghost h: History, ghost p: History)
    returns (ok: bool, symbol: uint16, count: nat, low: uint32, range: uint32, pos: nat, ghost w1: Work)
    requires rc.symbols.Length == SLOTS && AtWork(rc.symbols[..], w) && w.value == value
    requires w.top == rc.nextSymbol < SLOTS
    requires h in w.model.contexts && h !in w.seen && h in w.layout.index && context == w.layout.index[h]
    requires minimum == MinimumOf(h) && Awaited(w.layout, w.pending, p, at, Then(h, value))
    requires Ready(Coder(encodeLow, encodeRange)) && outPos <= outLimit <= outData.Length
    modifies rc.symbols, rc`nextSymbol, outData
    ensures |w.model.contexts[h].counts| == VALUES == 0x100 && ValidContext(w.model.contexts[h], minimum)
    ensures count == w.model.contexts[h].counts[value] + minimum
    ensures var ivs := CodedHere(w.model.contexts[h], minimum, value);
      && ok == (outPos + |CodedAllBytes(Coder(encodeLow, encodeRange), ivs)| <= outLimit)
      && (ok ==> Coder(low, range) == CodedAll(Coder(encodeLow, encodeRange), ivs))
      && (ok ==> pos == outPos + |CodedAllBytes(Coder(encodeLow, encodeRange), ivs)|)
      && (ok ==> Sent(old(outData[..]), outData[..], outPos, CodedAllBytes(Coder(encodeLow, encodeRange), ivs),
                      outLimit))
    ensures outData[outLimit..] == old(outData[outLimit..])
    ensures ok ==> AtWork(rc.symbols[..], w1) && w1.top == rc.nextSymbol && Advances(w, w1, h, symbol)
  {
    hide *;
    ghost var s0 := rc.symbols[..];
    WorkReady(s0, w, h, p, at);
    var under;
    ghost var s1, t1;
    symbol, under, count, s1, t1 := CountIn(rc, context, minimum, value, at, w, h, p);
    var escapes, total := rc.symbols[context].escapes, rc.symbols[context].total;
    ghost var x := w.model.contexts[h];
    CodedHereCases(x, minimum, value, Coder(encodeLow, encodeRange));
    if count > 0 {
      ok, low, range, pos :=
        RangeEncode(encodeLow, encodeRange, Interval(escapes + under, count, total), outData, outPos, outLimit);
    } else if escapes > 0 && escapes < total {
      ok, low, range, pos :=
        RangeEncode(encodeLow, encodeRange, Interval(0, escapes, total), outData, outPos, outLimit);
    } else {
      SentNothing(outData[..], outPos, outLimit);
      ok, low, range, pos := true, encodeLow, encodeRange, outPos;
    }
    if ok {
      w1 := FinishVisit(rc, context, minimum, value, at, symbol, count, w, h, p, s0, s1, t1);
    } else {
      w1 := w;
    }
  }

  lemma CodedHereCases(x: Context, minimum: Minimum, v: uint8, c: Coder)
    requires ValidContext(x, minimum) && Ready(c)
    ensures |x.counts| == 0x100
    ensures var ivs, count, total := CodedHere(x, minimum, v), x.counts[v] + minimum, Total(x, minimum);
      && (count > 0 ==>
            var iv := Interval(x.escapes + Under(x.counts, minimum, v), count, total);
            ValidInterval(iv) && CodedAll(c, ivs) == Coded(c, iv) && CodedAllBytes(c, ivs) == CodedBytes(c, iv))
      && (count <= 0 && 0 < x.escapes < total ==>
            var iv := Interval(0, x.escapes, total);
            ValidInterval(iv) && CodedAll(c, ivs) == Coded(c, iv) && CodedAllBytes(c, ivs) == CodedBytes(c, iv))
      && (count <= 0 && !(0 < x.escapes < total) ==> CodedAll(c, ivs) == c && CodedAllBytes(c, ivs) == [])
  {
    var ivs := CodedHere(x, minimum, v);
    if ivs != [] {
      assert ivs == [ivs[0]];
      CodedAllOne(c, ivs[0]);
    }
    hide Coded, CodedBytes;
  }

  /** The decoder in a context above the one that held the byte: count it, adapt. */
  method PatchContext(rc: RangeCoder, context: nat, value: uint8, at: int, ghost w: Work, ghost h: History,
                      ghost p: History)
    returns (symbol: uint16, ghost w1: Work)
    requires rc.symbols.Length == SLOTS && AtWork(rc.symbols[..], w) && w.value == value
    requires w.top == rc.nextSymbol < SLOTS
    requires h in w.model.contexts && h !in w.seen && h in w.layout.index && context == w.layout.index[h] && h.Then?
    requires Awaited(w.layout, w.pending, p, at, Then(h, value))
    modifies rc.symbols, rc`nextSymbol
    ensures |w.model.contexts[h].counts| == VALUES == 0x100
    ensures AtWork(rc.symbols[..], w1) && w1.top == rc.nextSymbol && Advances(w, w1, h, symbol)
  {
    assert MinimumOf(h) == 0;
    hide *;
    ghost var s0 := rc.symbols[..];
    WorkReady(s0, w, h, p, at);
    var under, count;
    ghost var s1, t1;
    symbol, under, count, s1, t1 := CountIn(rc, context, 0, value, at, w, h, p);
    w1 := FinishVisit(rc, context, 0, value, at, symbol, count, w, h, p, s0, s1, t1);
  }
}
