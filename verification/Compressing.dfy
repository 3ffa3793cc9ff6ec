/** The compressor: one pass over the input buffers, a byte at a time. */
module Compressing {
  import opened Words
  import opened Contexts
  import opened Carryless
  import opened Ppm
  import opened Compression
  import opened RangeCoding
  import opened SymbolTrees
  import opened ContextWalks
  import opened Storage
  import opened Learning
  import opened SymbolArenas
  import opened ChainSteps
  import opened Chains

  // ----- restarting -----

  function RootSymbol(): Symbol { SymbolTrees.Symbol.Symbol(0, 0, 0, 0, 0, 0, ROOT_ESCAPES, ROOT_ESCAPES + 256, 0) }

  function FreshLayout(): Layout { Layout(map[Root := 0], map[Root := NoTree()]) }

  lemma FreshRests(s: Arena)
    requires |s| == SLOTS && s[0] == RootSymbol()
    ensures Rests(s, 1, FreshLayout(), Fresh) && FreshLayout().index[Root] == 0 && Fresh.predicted == Root
  {
    FreshContextAt(s);
    FreshSlots();
    hide ContextAt, Slots, FreshRoot, NoTree, ValidContexts;
    FreshValid();
    assert forall h :: h in Fresh.contexts ==> h == Root;
  }

  lemma FreshContextAt(s: Arena)
    requires |s| == SLOTS && s[0] == RootSymbol()
    ensures |Fresh.contexts[Root].counts| == VALUES && ContextAt(s, FreshLayout(), Fresh.contexts, Root)
  {
    var l, m := FreshLayout(), Fresh.contexts;
    assert m[Root] == FreshRoot() && l.index[Root] == 0 && l.trees[Root] == NoTree();
    NoTreeHolds(s, 0);
    FreshTotal();
    hide Holds, NoCounts, NoTree, FreshRoot, Total, EmptyContext, Fresh, FreshLayout;
  }

  lemma FreshTotal()
    ensures |FreshRoot().counts| == VALUES && Total(FreshRoot(), 1) == ROOT_ESCAPES + 256
    ensures FreshRoot().escapes == ROOT_ESCAPES && FreshRoot().counts == EmptyContext().counts
  {
  }

  lemma FreshSlots()
    ensures Slots(1, FreshLayout(), Fresh.contexts)
  {
    FreshTotal();
    hide FreshRoot, NoTree;
    var l, m := FreshLayout(), Fresh.contexts;
    assert m.Keys == {Root};
    assert |m| == 1;
  }

  /** Drops every context but a fresh root. */
  method Restart(rc: RangeCoder)
    requires rc.symbols.Length == SLOTS
    modifies rc.symbols, rc`nextSymbol
    ensures rc.nextSymbol == 1 && Rests(rc.symbols[..], 1, FreshLayout(), Fresh)
    ensures Root in FreshLayout().index && FreshLayout().index[Root] == 0 && Fresh.predicted == Root
  {
    rc.nextSymbol := 0;
    var root := rc.CreateSymbol(0, 0);
    rc.symbols[root] := rc.symbols[root].(escapes := ROOT_ESCAPES, total := ROOT_ESCAPES + 256);
    rc.symbols[root] := rc.symbols[root].(symbols := 0);
    FreshRests(rc.symbols[..]);
  }

  // ----- one byte -----

  /** The intervals still to be coded give the same registers and bytes as all those of the byte. */
  ghost predicate Remaining(m: Model, v: uint8, cur: History, c: Coder, now: Coder, sent: seq<uint8>)
    requires ValidModel(m) && cur in m.contexts
  {
    && Ready(c) && Ready(now)
    && var all, rest := Intervals(m.contexts, m.predicted, v), Intervals(m.contexts, cur, v);
    && CodedAll(now, rest) == CodedAll(c, all)
    && sent + CodedAllBytes(now, rest) == CodedAllBytes(c, all)
  }

  lemma RemainingStarts(m: Model, v: uint8, c: Coder)
    requires ValidModel(m) && Ready(c)
    ensures m.predicted in m.contexts && Remaining(m, v, m.predicted, c, c, [])
  {
    hide Intervals, CodedAll, CodedAllBytes, ValidContexts;
  }

  /** One context's part of the intervals. */
  lemma RemainingStep(m: Model, v: uint8, cur: History, c: Coder, now: Coder, sent: seq<uint8>)
    requires ValidModel(m) && cur in m.contexts && Remaining(m, v, cur, c, now, sent)
    requires |m.contexts[cur].counts| == VALUES && ValidContext(m.contexts[cur], MinimumOf(cur))
    ensures var ivs := CodedHere(m.contexts[cur], MinimumOf(cur), v);
      var now1, sent1 := CodedAll(now, ivs), sent + CodedAllBytes(now, ivs);
      && |sent1| <= |CodedAllBytes(c, Intervals(m.contexts, m.predicted, v))|
      && (if cur.Root? || m.contexts[cur].counts[v] > 0
          then now1 == CodedAll(c, Intervals(m.contexts, m.predicted, v))
            && sent1 == CodedAllBytes(c, Intervals(m.contexts, m.predicted, v))
          else Shorter(cur) in m.contexts && Remaining(m, v, Shorter(cur), c, now1, sent1))
  {
    hide CodedHere, Intervals, ValidContexts, ValidContext, ValidInterval, Ready, CodedAll, CodedAllBytes, MinimumOf,
      Shorter;
    var t := m.contexts;
    var x := t[cur];
    var ivs := CodedHere(x, MinimumOf(cur), v);
    IntervalsSplit(t, cur, v);
    if !(cur.Root? || x.counts[v] > 0) {
      var rest := Intervals(t, Shorter(cur), v);
      CodedAllAppend(now, ivs, rest);
      SentMore(sent, CodedAllBytes(now, ivs), CodedAllBytes(CodedAll(now, ivs), rest));
    }
  }

  lemma SentMore(a: seq<uint8>, b: seq<uint8>, c: seq<uint8>)
    ensures (a + b) + c == a + (b + c) && |a + b| <= |a + (b + c)|
  {
  }

  lemma IntervalsSplit(t: Table, h: History, v: uint8)
    requires ValidContexts(t) && h in t && |t[h].counts| == VALUES && ValidContext(t[h], MinimumOf(h))
    ensures if h.Root? || t[h].counts[v] > 0 then Intervals(t, h, v) == CodedHere(t[h], MinimumOf(h), v)
      else Shorter(h) in t && Intervals(t, h, v) == CodedHere(t[h], MinimumOf(h), v) + Intervals(t, Shorter(h), v)
  {
    ContextsValid(t, h);
    hide ValidContexts;
  }

  lemma {:induction false} CodedAllAppend(c: Coder, a: seq<Interval>, b: seq<Interval>)
    requires Ready(c) && (forall i :: 0 <= i < |a| ==> ValidInterval(a[i]))
    requires (forall i :: 0 <= i < |b| ==> ValidInterval(b[i]))
    ensures CodedAll(c, a + b) == CodedAll(CodedAll(c, a), b)
    ensures CodedAllBytes(c, a + b) == CodedAllBytes(c, a) + CodedAllBytes(CodedAll(c, a), b)
    decreases |a|
  {
    hide Coded, CodedBytes, ValidInterval, Ready;
    if a == [] {
      assert a + b == b;
    } else {
      assert (a + b)[0] == a[0] && (a + b)[1..] == a[1..] + b;
      CodedAllAppend(Coded(c, a[0]), a[1..], b);
    }
  }

  /** Codes one byte from the longest context that predicts it, and counts it in every context tried. */
  method EncodeByte(rc: RangeCoder, predicted: nat, value: uint8, encodeLow: uint32, encodeRange: uint32,
                    outData: array<uint8>, outPos: nat, outLimit: nat, ghost l: Layout, ghost m: Model)
    returns (ok: bool, next: nat, low: uint32, range: uint32, pos: nat, ghost w: Work)
    requires rc.symbols.Length == SLOTS && Rests(rc.symbols[..], rc.nextSymbol, l, m)
    requires m.predicted in l.index && predicted == l.index[m.predicted]
    requires Ready(Coder(encodeLow, encodeRange)) && outPos <= outLimit <= outData.Length
    modifies rc.symbols, rc`nextSymbol, outData
    ensures ValidModel(m) && ValidContexts(m.contexts) && m.predicted in m.contexts
    ensures var c, ivs := Coder(encodeLow, encodeRange), Intervals(m.contexts, m.predicted, value);
      && ok == (outPos + |CodedAllBytes(c, ivs)| <= outLimit)
      && (ok ==> Coder(low, range) == CodedAll(c, ivs))
      && (ok ==> pos == outPos + |CodedAllBytes(c, ivs)|)
      && (ok ==> Sent(old(outData[..]), outData[..], outPos, CodedAllBytes(c, ivs), outLimit))
    ensures outData[outLimit..] == old(outData[outLimit..])
    ensures ok ==> Visited(rc.symbols[..], w, Found(m.contexts, m.predicted, value),
                           next) && w.top == rc.nextSymbol && w.model == m && w.value == value
  {
    hide *;
    ghost var s0, c := outData[..], Coder(encodeLow, encodeRange);
    RestsIndexed(rc.symbols[..], rc.nextSymbol, l, m);
    w := ChainStarts(rc.symbols[..], rc.nextSymbol, l, m, value, predicted);
    RemainingStarts(m, value, c);
    SentNothing(s0, outPos, outLimit);
    var subcontext, at: int := predicted, -1;
    ghost var f := Found(m.contexts, m.predicted, value);
    ghost var cur, p, visited: set<History>, sent: seq<uint8> := m.predicted, Root, {}, [];
    next, low, range, pos := predicted, encodeLow, encodeRange, outPos;
    while subcontext != 0
      invariant AtWork(rc.symbols[..], w) && w.top == rc.nextSymbol && w.model == m && w.value == value
      invariant OnChain(w, f, {}, visited, cur, p, at, next)
      invariant cur in m.contexts && cur in w.layout.index && subcontext == w.layout.index[cur]
      invariant Remaining(m, value, cur, c, Coder(low, range), sent) && Ready(Coder(low, range))
      invariant Sent(s0, outData[..], outPos, sent, outLimit) && pos == outPos + |sent| <= outLimit
      decreases Len(cur)
    {
      VisitReady(rc.symbols[..], w, f, visited, cur, p, at, next);
      StopsHere(w, f, visited, cur, p, at, next);
      RemainingStep(m, value, cur, c, Coder(low, range), sent);
      ghost var here := CodedAllBytes(Coder(low, range), CodedHere(m.contexts[cur], 0, value));
      ghost var s, w0 := outData[..], w;
      SentTail(s0, s, outPos, sent, outLimit);
      var symbol, count;
      ok, symbol, count, low, range, pos, w :=
        EncodeContext(rc, subcontext, 0, value, at, low, range, outData, pos, outLimit, w, cur, p);
      if !ok {
        return;
      }
      SentTwice(s0, s, outData[..], outPos, sent, here, outLimit);
      SentTail(s0, outData[..], outPos, sent + here, outLimit);
      if count > 0 {
        ChainEnds(rc.symbols[..], w0, w, f, visited, p, at, next, symbol);
        if at < 0 { next := symbol; }
        return;
      }
      ChainGoesOn(rc.symbols[..], w0, w, f, {}, visited, cur, p, at, next, symbol);
      if at < 0 { next := symbol; }
      at := symbol;
      subcontext := rc.symbols[subcontext].parent;
      visited, p, sent := visited + {cur}, Then(cur, value), sent + here;
      cur := Shorter(cur);
    }
    VisitReady(rc.symbols[..], w, f, visited, cur, p, at, next);
    StopsHere(w, f, visited, cur, p, at, next);
    RemainingStep(m, value, cur, c, Coder(low, range), sent);
    ghost var here := CodedAllBytes(Coder(low, range), CodedHere(m.contexts[cur], 1, value));
    ghost var s, w0 := outData[..], w;
    SentTail(s0, s, outPos, sent, outLimit);
    var symbol, count;
    ok, symbol, count, low, range, pos, w :=
      EncodeContext(rc, 0, 1, value, at, low, range, outData, pos, outLimit, w, cur, p);
    if ok {
      SentTwice(s0, s, outData[..], outPos, sent, here, outLimit);
      ChainEnds(rc.symbols[..], w0, w, f, visited, p, at, next, symbol);
      if at < 0 { next := symbol; }
    }
  }

  // ----- between two bytes -----

  /** After its chain has learned a byte the arena holds the next model, unless it is so full
      that the next model is a fresh one. */
  lemma ByteLearned(s: Arena, w: Work, f: History, next: int)
    requires Visited(s, w, f, next)
    ensures ValidModel(w.model) && |s| == 0x1000 && 0 <= next < |s| && ORDER == 2
    ensures forall h :: h in w.model.contexts ==> |w.model.contexts[h].counts| == VALUES
    ensures w.top >= ARENA - ORDER ==> Advance(w.model, f, w.value) == Fresh
    ensures w.top < ARENA - ORDER ==>
      var n := Advance(w.model, f, w.value);
      && Rests(s, w.top, w.layout, n) && n.predicted in w.layout.index
      && w.layout.index[n.predicted] == (if Len(w.model.predicted) >= ORDER then s[next].parent else next)
      && Len(n.predicted) == (if Len(w.model.predicted) >= ORDER then Len(w.model.predicted)
           else Len(w.model.predicted) + 1)
  {
    hide AtWork, ValidModel, Found, Chain, Learn, Shorter, Len, ValidContexts;
    LearnedSizes(s, w);
    StoredWhole(s, w);
    LongerStored(s, w, Then(w.model.predicted, w.value));
    LongerLength(w.model.predicted, w.value);
    StepValid(w, f);
    hide Visited;
  }

  lemma StepValid(w: Work, f: History)
    requires ValidModel(w.model) && StopsAt(w, f)
    ensures forall h :: h in w.model.contexts ==> |w.model.contexts[h].counts| == VALUES
    ensures ValidModel(Advance(w.model, f, w.value))
  {
    CountsSized(w.model.contexts);
    AdvanceValid(w.model, f, w.value);
    hide Advance, Chain;
  }

  lemma StoredWhole(s: Arena, w: Work)
    requires AtWork(s, w) && w.pending == {}
    requires forall h :: h in w.model.contexts ==> |w.model.contexts[h].counts| == VALUES
    ensures |s| == 0x1000
    ensures ValidModel(w.model)
    ensures var learned := Learn(w.model.contexts, w.seen, w.value);
      forall p :: ValidModel(Model(learned, p)) ==> Rests(s, w.top, w.layout, Model(learned, p))
    ensures forall k {:trigger w.layout.index[k]} :: k in w.layout.index ==> 0 <= w.layout.index[k] < |s|
  {
    hide Learn, ValidModel, ContextAt, Parents;
  }

  lemma LongerStored(s: Arena, w: Work, longer: History)
    requires AtWork(s, w) && w.pending == {} && longer.Then? && longer in w.layout.index
    ensures 0 <= w.layout.index[longer] < |s| && Shorter(longer) in w.layout.index
    ensures s[w.layout.index[longer]].parent == w.layout.index[Shorter(longer)]
  {
    LearnedSizes(s, w);
    hide Learn, ContextAt, ValidModel;
  }

  lemma LongerLength(h: History, v: uint8)
    ensures Len(Then(h, v)) == Len(h) + 1 && Len(Shorter(Then(h, v))) == Len(h)
  {
  }

  /** Moves on to the context that predicts the next byte; starts over when the arena is nearly full. */
  method NextInput(rc: RangeCoder, next: nat, oldOrder: nat, ghost w: Work, ghost f: History)
    returns (predicted: nat, order: nat, ghost l: Layout)
    requires rc.symbols.Length == SLOTS && Visited(rc.symbols[..], w, f, next) && w.top == rc.nextSymbol
    requires oldOrder == Len(w.model.predicted)
    modifies rc.symbols, rc`nextSymbol
    ensures ValidModel(w.model) && forall h :: h in w.model.contexts ==> |w.model.contexts[h].counts| == VALUES
    ensures var n := Advance(w.model, f, w.value);
      && Rests(rc.symbols[..], rc.nextSymbol, l, n) && n.predicted in l.index
      && predicted == l.index[n.predicted] && order == Len(n.predicted)
  {
    hide *;
    LenRoot();
    ByteLearned(rc.symbols[..], w, f, next);
    predicted, order, l := next, oldOrder, w.layout;
    if order >= ORDER {
      predicted := rc.symbols[predicted].parent;
    } else {
      order := order + 1;
    }
    if rc.nextSymbol >= rc.symbols.Length - ORDER {
      Restart(rc);
      l := FreshLayout();
      predicted, order := 0, 0;
    }
  }

  // ----- all bytes -----

  function Concat(buffers: seq<seq<uint8>>): seq<uint8>
    decreases |buffers|
  {
    if buffers == [] then [] else buffers[0] + Concat(buffers[1..])
  }

  lemma EncodedFirst(m: Model, c: Coder, input: seq<uint8>)
    requires ValidModel(m) && Ready(c) && input != []
    ensures ValidContexts(m.contexts) && m.predicted in m.contexts
    ensures forall h :: h in m.contexts ==> |m.contexts[h].counts| == VALUES
    ensures ValidModel(Next(m, input[0]))
    ensures Next(m, input[0]) == Advance(m, Found(m.contexts, m.predicted, input[0]), input[0])
    ensures var ivs := Intervals(m.contexts, m.predicted, input[0]);
      Encoded(m, c, input) == CodedAllBytes(c, ivs) + Encoded(Next(m, input[0]), CodedAll(c, ivs), input[1..])
  {
    CountsSized(m.contexts);
    hide Intervals, CodedAll, CodedAllBytes, ValidContexts, Advance, Found;
  }

  lemma EncodedNone(m: Model, c: Coder)
    requires ValidModel(m) && Ready(c)
    ensures c.low < TWO_32 && Encoded(m, c, []) == Flushed(c.low)
  {
  }

  lemma CompressedIs(input: seq<uint8>)
    ensures ValidModel(Fresh) && Start == Coder(0, 0xFFFF_FFFF) && Ready(Start)
    ensures Compressed(input) == Encoded(Fresh, Start, input)
  {
    FreshValid();
  }

  /** What is left of the current buffer and the buffers after it. */
  function Left(inData: seq<uint8>, i: nat, inBuffers: seq<seq<uint8>>, b: nat): seq<uint8>
    requires i <= |inData| && b <= |inBuffers|
  {
    inData[i..] + Concat(inBuffers[b..])
  }

  lemma LeftBuffer(inData: seq<uint8>, inBuffers: seq<seq<uint8>>, b: nat)
    requires b < |inBuffers|
    ensures Left(inData, |inData|, inBuffers, b) == Left(inBuffers[b], 0, inBuffers, b + 1)
  {
  }

  lemma LeftByte(inData: seq<uint8>, i: nat, inBuffers: seq<seq<uint8>>, b: nat)
    requires i < |inData| && b <= |inBuffers|
    ensures var left := Left(inData, i, inBuffers, b);
      left != [] && left[0] == inData[i] && left[1..] == Left(inData, i + 1, inBuffers, b)
  {
    assert inData[i..] == [inData[i]] + inData[i + 1..];
  }

  lemma LeftAll(inBuffers: seq<seq<uint8>>)
    requires inBuffers != []
    ensures Left(inBuffers[0], 0, inBuffers, 1) == Concat(inBuffers)
  {
  }

  lemma LeftNothing(inData: seq<uint8>, inBuffers: seq<seq<uint8>>)
    ensures Left(inData, |inData|, inBuffers, |inBuffers|) == []
  {
  }

  /** Compresses the buffers into `outData`; returns the number of bytes written, or 0 when
      there is nothing to compress or the result does not fit. */
  method Compress(rc: RangeCoder, inBuffers: seq<seq<uint8>>, inLimit: nat, outData: array<uint8>, outLimit: nat)
    returns (n: nat)
    requires rc.symbols.Length == SLOTS && outLimit <= outData.Length
    requires forall k :: 1 <= k < |inBuffers| ==> inBuffers[k] != []
    modifies rc.symbols, rc`nextSymbol, outData
    ensures inBuffers == [] || inLimit == 0 ==> n == 0 && outData[..] == old(outData[..])
    ensures inBuffers != [] && inLimit > 0 ==>
      var s := Compressed(Concat(inBuffers));
      if |s| <= outLimit then n == |s| && outData[..n] == s else n == 0
    ensures outData[outLimit..] == old(outData[outLimit..])
  {
    hide *;
    ghost var s0 := outData[..];
    if |inBuffers| <= 0 || inLimit <= 0 {
      return 0;
    }
    var low: uint32, range: uint32, predicted, order, pos := 0, 0xFFFF_FFFF, 0, 0, 0;
    var inData, i, b := inBuffers[0], 0, 1;
    Restart(rc);
    ghost var m, l, sent: seq<uint8> := Fresh, FreshLayout(), [];
    ghost var input := Concat(inBuffers);
    LeftAll(inBuffers);
    CompressedIs(input);
    LenRoot();
    SentNothing(s0, 0, outLimit);
    while true
      invariant Rests(rc.symbols[..], rc.nextSymbol, l, m) && ValidModel(m)
      invariant m.predicted in l.index && predicted == l.index[m.predicted] && order == Len(m.predicted)
      invariant i <= |inData| && 1 <= b <= |inBuffers| && Ready(Coder(low, range))
      invariant sent + Encoded(m, Coder(low, range), Left(inData, i, inBuffers, b)) == Compressed(input)
      invariant Sent(s0, outData[..], 0, sent, outLimit) && pos == |sent| <= outLimit
      decreases |Left(inData, i, inBuffers, b)|
    {
      if i >= |inData| {
        if b >= |inBuffers| {
          break;
        }
        LeftBuffer(inData, inBuffers, b);
        inData, i, b := inBuffers[b], 0, b + 1;
      }
      var value := inData[i];
      ghost var c, left, s := Coder(low, range), Left(inData, i, inBuffers, b), outData[..];
      LeftByte(inData, i, inBuffers, b);
      EncodedFirst(m, c, left);
      SentTail(s0, s, 0, sent, outLimit);
      i := i + 1;
      var ok, next;
      ghost var w;
      ok, next, low, range, pos, w := EncodeByte(rc, predicted, value, low, range, outData, pos, outLimit, l, m);
      ghost var here := CodedAllBytes(c, Intervals(m.contexts, m.predicted, value));
      SentMore(sent, here, Encoded(Next(m, value), CodedAll(c, Intervals(m.contexts, m.predicted, value)), left[1..]));
      if !ok {
        return 0;
      }
      SentTwice(s0, s, outData[..], 0, sent, here, outLimit);
      SentTail(s0, outData[..], 0, sent + here, outLimit);
      sent := sent + here;
      predicted, order, l := NextInput(rc, next, order, w, Found(m.contexts, m.predicted, value));
      m := Next(m, value);
    }
    LeftNothing(inData, inBuffers);
    EncodedNone(m, Coder(low, range));
    ghost var s := outData[..];
    SentTail(s0, s, 0, sent, outLimit);
    var ok;
    ok, pos := Flush(low, outData, pos, outLimit);
    if !ok {
      return 0;
    }
    SentTwice(s0, s, outData[..], 0, sent, Flushed(low), outLimit);
    SentTail(s0, outData[..], 0, sent + Flushed(low), outLimit);
    SentAll(s0, outData[..], sent + Flushed(low), outLimit);
    return pos;
  }

  lemma SentAll(s0: seq<uint8>, s: seq<uint8>, sent: seq<uint8>, limit: nat)
    requires Sent(s0, s, 0, sent, limit)
    ensures |sent| <= |s| && s[..|sent|] == sent
  {
  }

  lemma LenRoot()
    ensures Len(Root) == 0 && SLOTS == ARENA
  {
  }
}
