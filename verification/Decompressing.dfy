/** The decompressor: it finds each byte in the highest order that codes it, and then lets
    the longer contexts learn it. */
module Decompressing {
  import opened Words
  import opened Contexts
  import opened Carryless
  import opened Ppm
  import opened Compression
  import opened RangeCoding
  import opened SymbolTrees
  import opened ContextWalks
  import opened Storage
  import opened Learning
  import opened SymbolArenas
  import opened ChainSteps
  import opened Chains
  import opened Compressing

  // ----- what one context decides -----

  /** What `Chosen` does in a context, by the code read there. */
  lemma ChosenCases(t: Table, h: History, d: Decoder)
    requires ValidContexts(t) && h in t && Ready(d.coder)
    requires |t[h].counts| == VALUES && ValidContext(t[h], MinimumOf(h))
    ensures h.Then? ==> Shorter(h) in t
    ensures var c, total := t[h], Total(t[h], MinimumOf(h));
      if h.Then? && (c.escapes <= 0 || c.escapes >= total) then Chosen(t, h, d) == Chosen(t, Shorter(h), d)
      else (
        && 0 < c.escapes < total <= d.coder.range && total < 0x1_0000
        && ValidInterval(EscapeInterval(c, MinimumOf(h)))
        && Under(c.counts, MinimumOf(h), |c.counts|) == total - c.escapes
        && var code := Read(d, total);
        if code < c.escapes then
          if h.Root? then Chosen(t, h, d) == End
          else Chosen(t, h, d) == Chosen(t, Shorter(h), Decoded(d, EscapeInterval(c, 0)))
        else if code >= total then
          Chosen(t, h, d) == if h.Root? then OutOfRange else Rejected
        else (
          var v := Locate(c.counts, MinimumOf(h), code - c.escapes);
          && ValidInterval(SymbolInterval(c, MinimumOf(h), v))
          && Chosen(t, h, d) == Choice.Symbol(h, v, Decoded(d, SymbolInterval(c, MinimumOf(h), v)))))
  {
    hide Read, Decoded, Chain, Locate, ValidContexts;
    ContextsValid(t, h);
    RootShare(t[h].counts);
    var c, m := t[h], MinimumOf(h);
    var total := Total(c, m);
    if !(h.Then? && (c.escapes <= 0 || c.escapes >= total)) && c.escapes <= Read(d, total) < total {
      SymbolIntervalValid(c, m, Locate(c.counts, m, Read(d, total) - c.escapes));
    }
  }

  lemma RootShare(counts: seq<nat>)
    requires |counts| == VALUES
    ensures Under(counts, 1, |counts|) >= VALUES
  {
  }

  /** The chosen context is one to stop at. */
  lemma ChosenStops(t: Table, h: History, d: Decoder)
    requires ValidContexts(t) && h in t && Ready(d.coder) && Chosen(t, h, d).Symbol?
    ensures var r := Chosen(t, h, d);
      && r.found in t && r.found in Chain(h, r.found) && Ready(r.d.coder)
      && (r.found.Root? || (|t[r.found].counts| == VALUES && t[r.found].counts[r.value] > 0))
  {
  }

  /** What looking a code up in a context may rely on. */
  lemma LookupReady(s: Arena, top: nat, l: Layout, m: Model, h: History)
    requires Rests(s, top, l, m) && h in m.contexts
    ensures ValidModel(m) && ValidContexts(m.contexts) && |s| == SLOTS == 0x1000 && top < SLOTS && TWO_16 == 0x1_0000
    ensures h in l.index && h in l.trees && 0 <= l.index[h] < top && (h.Root? <==> l.index[h] == 0)
    ensures var c, t, x := l.index[h], l.trees[h], m.contexts[h];
      && |x.counts| == VALUES == 0x100 && t.counts == x.counts && ValidContext(x, MinimumOf(h))
      && Room(s, c, t, Delta(MinimumOf(h)), top)
      && s[c].escapes == x.escapes && s[c].total == Total(x, MinimumOf(h))
    ensures Delta(MinimumOf(h)) == (if h.Root? then 3 else 2) && MinimumOf(h) == (if h.Root? then 1 else 0)
    ensures h.Then? ==> Shorter(h) in m.contexts && Shorter(h) in l.index && Len(Shorter(h)) < Len(h)
                        && s[l.index[h]].parent == l.index[Shorter(h)]
  {
    var w := ChainStarts(s, top, l, m, 0, 0);
    RestsIndexed(s, top, l, m);
    hide Rests, Awaited, OnChain, Learned, ValidContexts;
    StartsIdle(w, h);
    WorkReady(s, w, h, Root, -1);
    AtRoot(s, w, h);
    if h.Then? { ParentOf(s, w, h); }
    hide ValidModel;
  }

  lemma StartsIdle(w: Work, h: History)
    requires w.pending == {}
    ensures Awaited(w.layout, w.pending, Root, -1, Then(h, w.value))
  {
  }

  lemma EscapeIs(x: Context, minimum: Minimum)
    requires |x.counts| == VALUES
    ensures EscapeInterval(x, minimum) == Interval(0, x.escapes, Total(x, minimum))
  {
  }

  lemma SymbolIs(x: Context, minimum: Minimum, v: uint8)
    requires |x.counts| == VALUES
    ensures SymbolInterval(x, minimum, v)
         == Interval(x.escapes + Under(x.counts, minimum, v), x.counts[v] + minimum, Total(x, minimum))
  {
  }

  lemma DecodedReady(d: Decoder, iv: Interval)
    requires Ready(d.coder) && ValidInterval(iv)
    ensures Ready(Decoded(d, iv).coder)
  {
  }

  /** A value was counted in a context of an arena at rest. */
  lemma CountedHere(s0: Arena, s1: Arena, top: nat, l: Layout, m: Model, v: uint8, h: History, t1: Tree,
                    update: uint8, symbol: int)
    returns (w: Work)
    requires Rests(s0, top, l, m) && h in m.contexts && h in l.index && h in l.trees && |l.trees[h].counts| == VALUES
    requires Counts(s0, s1, l.index[h], l.trees[h], t1, v, update, top, symbol)
    ensures w == Work(top, l, m, v, {}, {}) && AtWork(s0, w) && top < SLOTS && |s0| == |s1| == SLOTS
    ensures Awaited(l, {}, Root, -1, Then(h, v)) && 0 <= symbol < 0x1_0000
    ensures |m.contexts[h].counts| == VALUES && 0 <= l.index[h] < SLOTS
    ensures s1[l.index[h]].escapes == s0[l.index[h]].escapes
    ensures v in l.trees[h].at <==> m.contexts[h].counts[v] > 0
  {
    hide Rests, Awaited, OnChain, Learned, ValidContexts, Holds, Room;
    w := ChainStarts(s0, top, l, m, v, 0);
    RestsIndexed(s0, top, l, m);
    StartsIdle(w, h);
    WorkReady(s0, w, h, Root, -1);
    SymbolBounded(s0, s1, l.index[h], l.trees[h], t1, v, update, top, symbol);
    CountedThenWritten(s0, s1, s1, top, l.index[h], l.trees[h], t1, v, update, -1, symbol);
  }

  /** What looking a code up led to: the next lower order, the byte, a failure, the end of the
      stream, or a code beyond the root's total, which no compressor emits. */
  datatype Lookup = Lower | Hit | Miss | Ended | Beyond

  /** The decoder in a subcontext: pass it by, take an escape, or find the byte and count it. */
  method DecodeSubcontext(rc: RangeCoder, context: nat, decodeLow: uint32, decodeCode: uint32, decodeRange: uint32,
                          inData: seq<uint8>, inPos: nat, ghost l: Layout, ghost m: Model, ghost h: History)
    returns (result: Lookup, value: uint8, bottom: uint16, low: uint32, code: uint32, range: uint32, pos: nat,
             ghost w: Work)
    requires rc.symbols.Length == SLOTS && Rests(rc.symbols[..], rc.nextSymbol, l, m)
    requires h in m.contexts && h.Then? && h in l.index && context == l.index[h]
    requires inPos <= |inData| && Ready(Coder(decodeLow, decodeRange))
    modifies rc.symbols, rc`nextSymbol
    ensures ValidContexts(m.contexts) && inPos <= pos <= |inData|
    ensures result.Lower? || result.Hit? || result.Miss?
    ensures result.Lower? ==> Shorter(h) in m.contexts && Ready(Coder(low, range))
    ensures result.Lower? ==>
      Chosen(m.contexts, h, Decoder(Coder(decodeLow, decodeRange), decodeCode, inData[inPos..]))
      == Chosen(m.contexts, Shorter(h), Decoder(Coder(low, range), code, inData[pos..]))
    ensures result.Lower? ==> rc.symbols[..] == old(rc.symbols[..]) && rc.nextSymbol == old(rc.nextSymbol)
    ensures result.Hit? ==> Ready(Coder(low, range))
    ensures result.Hit? ==>
      Chosen(m.contexts, h, Decoder(Coder(decodeLow, decodeRange), decodeCode, inData[inPos..]))
      == Choice.Symbol(h, value, Decoder(Coder(low, range), code, inData[pos..]))
    ensures result.Hit? ==> |m.contexts[h].counts| == VALUES && AtWork(rc.symbols[..], w) && w.top == rc.nextSymbol
    ensures result.Hit? ==> Advances(Work(old(rc.nextSymbol), l, m, value, {}, {}), w, h, bottom)
    ensures result.Miss? ==>
      Chosen(m.contexts, h, Decoder(Coder(decodeLow, decodeRange), decodeCode, inData[inPos..])) == Rejected
  {
    hide *;
    ghost var s0 := rc.symbols[..];
    ghost var d := Decoder(Coder(decodeLow, decodeRange), decodeCode, inData[inPos..]);
    ghost var x := m.contexts[h];
    LookupReady(s0, rc.nextSymbol, l, m, h);
    ChosenCases(m.contexts, h, d);
    result, value, bottom, low, code, range, pos := Lower, 0, 0, decodeLow, decodeCode, decodeRange, inPos;
    w := Work(rc.nextSymbol, l, m, 0, {}, {});
    if rc.symbols[context].escapes <= 0 {
      return;
    }
    var total := rc.symbols[context].total;
    if rc.symbols[context].escapes >= total {
      return;
    }
    var read, unit := RangeRead(low, code, range, total);
    if read < rc.symbols[context].escapes {
      EscapeIs(x, 0);
      low, code, range, pos :=
        RangeDecode(low, code, unit, 0, rc.symbols[context].escapes, inData, pos, d, EscapeInterval(x, 0));
      DecodedReady(d, EscapeInterval(x, 0));
      return;
    }
    var found, symbol, under, count;
    ghost var t1;
    found, symbol, value, under, count, t1 :=
      rc.ContextTryDecode(context, read - rc.symbols[context].escapes, 2, l.trees[h]);
    if !found {
      result := Miss;
      return;
    }
    result := Hit;
    ghost var s1 := rc.symbols[..];
    w := CountedHere(s0, s1, rc.nextSymbol, l, m, value, h, t1, 2, symbol);
    bottom := symbol;
    SymbolIs(x, 0, value);
    low, code, range, pos :=
      RangeDecode(low, code, unit, rc.symbols[context].escapes + under, count, inData, pos, d,
                  SymbolInterval(x, 0, value));
    DecodedReady(d, SymbolInterval(x, 0, value));
    w := FinishVisit(rc, context, 0, value, -1, bottom, count, w, h, Root, s0, s1, t1);
  }

  /** The decoder in the root context. */
  method DecodeRoot(rc: RangeCoder, decodeLow: uint32, decodeCode: uint32, decodeRange: uint32,
                    inData: seq<uint8>, inPos: nat, ghost l: Layout, ghost m: Model)
    returns (result: Lookup, value: uint8, bottom: uint16, low: uint32, code: uint32, range: uint32, pos: nat,
             ghost w: Work)
    requires rc.symbols.Length == SLOTS && Rests(rc.symbols[..], rc.nextSymbol, l, m)
    requires inPos <= |inData| && Ready(Coder(decodeLow, decodeRange))
    modifies rc.symbols, rc`nextSymbol
    ensures ValidContexts(m.contexts) && Root in m.contexts && inPos <= pos <= |inData|
    ensures result.Hit? || result.Ended? || result.Beyond?
    ensures result.Hit? ==> Ready(Coder(low, range))
    ensures Chosen(m.contexts, Root, Decoder(Coder(decodeLow, decodeRange), decodeCode, inData[inPos..])) ==
      match result
      case Hit => Choice.Symbol(Root, value, Decoder(Coder(low, range), code, inData[pos..]))
      case Ended => End
      case _ => OutOfRange
    ensures result.Hit? ==> |m.contexts[Root].counts| == VALUES && AtWork(rc.symbols[..], w) && w.top == rc.nextSymbol
    ensures result.Hit? ==> Advances(Work(old(rc.nextSymbol), l, m, value, {}, {}), w, Root, bottom)
  {
    hide *;
    ghost var s0 := rc.symbols[..];
    ghost var d := Decoder(Coder(decodeLow, decodeRange), decodeCode, inData[inPos..]);
    RestsIndexed(s0, rc.nextSymbol, l, m);
    ghost var x := m.contexts[Root];
    LookupReady(s0, rc.nextSymbol, l, m, Root);
    ChosenCases(m.contexts, Root, d);
    result, value, bottom, low, code, range, pos := Ended, 0, 0, decodeLow, decodeCode, decodeRange, inPos;
    w := Work(rc.nextSymbol, l, m, 0, {}, {});
    var total := rc.symbols[0].total;
    var read, unit := RangeRead(low, code, range, total);
    if read < rc.symbols[0].escapes {
      EscapeIs(x, 1);
      low, code, range, pos :=
        RangeDecode(low, code, unit, 0, rc.symbols[0].escapes, inData, pos, d, EscapeInterval(x, 1));
      return;
    }
    if read >= total {
      result := Beyond;
      return;
    }
    var symbol, under, count;
    ghost var t1;
    symbol, value, under, count, t1 := rc.ContextRootDecode(0, read - rc.symbols[0].escapes, 3, l.trees[Root]);
    result := Hit;
    ghost var s1 := rc.symbols[..];
    w := CountedHere(s0, s1, old(rc.nextSymbol), l, m, value, Root, t1, 3, symbol);
    bottom := symbol;
    SharesFacts(x.counts, 1, read - x.escapes, value, under, count);
    SymbolIs(x, 1, value);
    low, code, range, pos :=
      RangeDecode(low, code, unit, rc.symbols[0].escapes + under, count, inData, pos, d, SymbolInterval(x, 1, value));
    DecodedReady(d, SymbolInterval(x, 1, value));
    w := FinishVisit(rc, 0, 1, value, -1, bottom, count, w, Root, Root, s0, s1, t1);
  }

  lemma SharesFacts(counts: seq<nat>, minimum: Minimum, code: nat, value: nat, under: nat, count: nat)
    requires Shares(counts, minimum, code, value, under, count)
    ensures |counts| == VALUES == 0x100 && code < Under(counts, minimum, |counts|)
    ensures value == Locate(counts, minimum, code)
    ensures value < 0x100 && under == Under(counts, minimum, value) && count == counts[value] + minimum
  {
  }

  /** Lets the contexts above the one that held the byte learn it. */
  method PatchContexts(rc: RangeCoder, predicted: nat, subcontext: nat, value: uint8, bottom: uint16,
                       ghost w0: Work, ghost f: History)
    returns (next: nat, ghost w: Work)
    requires rc.symbols.Length == SLOTS && AtWork(rc.symbols[..], w0) && w0.top == rc.nextSymbol && w0.value == value
    requires OnChain(w0, f, {f}, {}, w0.model.predicted, Root, -1, predicted)
    requires w0.model.predicted in w0.layout.index && predicted == w0.layout.index[w0.model.predicted]
    requires f in w0.layout.index && subcontext == w0.layout.index[f]
    requires Then(f, value) in w0.layout.index && bottom == w0.layout.index[Then(f, value)]
    modifies rc.symbols, rc`nextSymbol
    ensures Visited(rc.symbols[..], w, f, next) && w.top == rc.nextSymbol && w.model == w0.model && w.value == value
  {
    hide *;
    w := w0;
    var patch, at: int := predicted, -1;
    next := predicted;
    ghost var cur, p, visited: set<History> := w.model.predicted, Root, {};
    while patch != subcontext
      invariant AtWork(rc.symbols[..], w) && w.top == rc.nextSymbol && w.model == w0.model && w.value == value
      invariant OnChain(w, f, {f}, visited, cur, p, at, next)
      invariant cur in w.layout.index && patch == w.layout.index[cur]
      invariant f in w.layout.index && subcontext == w.layout.index[f]
      invariant Then(f, value) in w.layout.index && bottom == w.layout.index[Then(f, value)]
      decreases Len(cur)
    {
      PatchReady(rc.symbols[..], w, f, visited, cur, p, at, next);
      ghost var w1 := w;
      var symbol;
      symbol, w := PatchContext(rc, patch, value, at, w, cur, p);
      ChainGoesOn(rc.symbols[..], w1, w, f, {f}, visited, cur, p, at, next, symbol);
      if at < 0 { next := symbol; }
      at := symbol;
      patch := rc.symbols[patch].parent;
      visited, p := visited + {cur}, Then(cur, value);
      cur := Shorter(cur);
    }
    PatchReady(rc.symbols[..], w, f, visited, cur, p, at, next);
    ghost var s := rc.symbols[..];
    if at < 0 {
      w := PatchEnds(s, s, w, f, visited, p, at, next, bottom);
      next := bottom;
    } else {
      rc.WriteParent(at, bottom);
      w := PatchEnds(s, rc.symbols[..], w, f, visited, p, at, next, bottom);
    }
  }

  /** Decodes one byte and counts it in every context tried. */
  method DecodeByte(rc: RangeCoder, predicted: nat, decodeLow: uint32, decodeCode: uint32, decodeRange: uint32,
                    inData: seq<uint8>, inPos: nat, ghost l: Layout, ghost m: Model)
    returns (result: Lookup, value: uint8, next: nat, low: uint32, code: uint32, range: uint32, pos: nat,
             ghost w: Work, ghost f: History)
    requires rc.symbols.Length == SLOTS && Rests(rc.symbols[..], rc.nextSymbol, l, m)
    requires m.predicted in l.index && predicted == l.index[m.predicted]
    requires inPos <= |inData| && Ready(Coder(decodeLow, decodeRange))
    modifies rc.symbols, rc`nextSymbol
    ensures ValidContexts(m.contexts) && m.predicted in m.contexts && inPos <= pos <= |inData| && !result.Lower?
    ensures result.Hit? ==> Ready(Coder(low, range))
    ensures Chosen(m.contexts, m.predicted, Decoder(Coder(decodeLow, decodeRange), decodeCode, inData[inPos..])) ==
      match result
      case Hit => Choice.Symbol(f, value, Decoder(Coder(low, range), code, inData[pos..]))
      case Miss => Rejected
      case Ended => End
      case _ => OutOfRange
    ensures result.Hit? ==>
      Visited(rc.symbols[..], w, f, next) && w.top == rc.nextSymbol && w.model == m && w.value == value
  {
    hide *;
    ghost var d := Decoder(Coder(decodeLow, decodeRange), decodeCode, inData[inPos..]);
    RestsIndexed(rc.symbols[..], rc.nextSymbol, l, m);
    f, value, next, low, code, range, pos := m.predicted, 0, 0, decodeLow, decodeCode, decodeRange, inPos;
    w := Work(rc.nextSymbol, l, m, 0, {}, {});
    var subcontext, bottom := predicted, 0;
    result := Lower;
    while subcontext != 0
      invariant Rests(rc.symbols[..], rc.nextSymbol, l, m) && rc.nextSymbol == old(rc.nextSymbol)
      invariant f in m.contexts && f in l.index && subcontext == l.index[f] && inPos <= pos <= |inData|
      invariant Ready(Coder(low, range)) && result.Lower?
      invariant Chosen(m.contexts, m.predicted, d)
        == Chosen(m.contexts, f, Decoder(Coder(low, range), code, inData[pos..]))
      decreases Len(f)
    {
      LookupReady(rc.symbols[..], rc.nextSymbol, l, m, f);
      result, value, bottom, low, code, range, pos, w :=
        DecodeSubcontext(rc, subcontext, low, code, range, inData, pos, l, m, f);
      if !result.Lower? {
        break;
      }
      subcontext := rc.symbols[subcontext].parent;
      f := Shorter(f);
    }
    if result.Lower? {
      LookupReady(rc.symbols[..], rc.nextSymbol, l, m, f);
      RootIs(f);
      result, value, bottom, low, code, range, pos, w := DecodeRoot(rc, low, code, range, inData, pos, l, m);
    }
    if result.Hit? {
      ghost var w0 := Work(old(rc.nextSymbol), l, m, value, {}, {});
      ChosenStops(m.contexts, m.predicted, d);
      StopsIs(w0, f);
      PatchStarts(rc.symbols[..], w0, w, f, bottom, predicted);
      AdvancedIndex(w0, w, f, bottom);
      next, w := PatchContexts(rc, predicted, subcontext, value, bottom, w, f);
    }
  }

  lemma RootIs(h: History)
    requires h.Root?
    ensures h == Root
  {
  }

  lemma StopsIs(w: Work, f: History)
    requires ValidModel(w.model) && f in w.model.contexts && f in Chain(w.model.predicted, f)
    requires f.Root? || (|w.model.contexts[f].counts| == VALUES && w.model.contexts[f].counts[w.value] > 0)
    ensures StopsAt(w, f)
  {
  }

  lemma AdvancedIndex(w: Work, w1: Work, h: History, symbol: int)
    requires h in w.model.contexts && |w.model.contexts[h].counts| == VALUES && Advances(w, w1, h, symbol)
    ensures forall k :: k in w.layout.index ==> k in w1.layout.index && w1.layout.index[k] == w.layout.index[k]
  {
  }

  // ----- all bytes -----

  lemma DecodeNext(m: Model, d: Decoder, limit: nat)
    requires ValidModel(m) && Ready(d.coder)
    ensures ValidContexts(m.contexts) && m.predicted in m.contexts
    ensures forall h :: h in m.contexts ==> |m.contexts[h].counts| == VALUES
    ensures match Chosen(m.contexts, m.predicted, d)
      case End => Decode(m, d, limit) == Bytes([])
      case Rejected => Decode(m, d, limit) == Failed
      case OutOfRange => Decode(m, d, limit) == Unspecified
      case Symbol(f, v, d1) =>
        && ValidModel(Advance(m, f, v)) && Ready(d1.coder)
        && Decode(m, d, limit) == if limit == 0 then Failed else Prefixed([v], Decode(Advance(m, f, v), d1, limit - 1))
  {
    CountsSized(m.contexts);
    if Chosen(m.contexts, m.predicted, d).Symbol? {
      AdvanceValid(m, Chosen(m.contexts, m.predicted, d).found, Chosen(m.contexts, m.predicted, d).value);
    }
    hide Chosen, Advance, ValidContexts, Chain;
  }

  function Prefixed(sent: seq<uint8>, r: Outcome): Outcome {
    match r case Bytes(data) => Bytes(sent + data) case other => other
  }

  lemma PrefixedTwice(a: seq<uint8>, b: seq<uint8>, r: Outcome)
    ensures Prefixed(a, Prefixed(b, r)) == Prefixed(a + b, r)
  {
    if r.Bytes? { assert a + (b + r.data) == (a + b) + r.data; }
  }

  lemma PrefixedNone(r: Outcome)
    ensures Prefixed([], r) == r
  {
  }

  lemma PrefixedCases(sent: seq<uint8>)
    ensures Prefixed(sent, Bytes([])) == Bytes(sent)
    ensures Prefixed(sent, Failed) == Failed && Prefixed(sent, Unspecified) == Unspecified
  {
    assert sent + [] == sent;
  }

  lemma DecompressedIs(data: seq<uint8>, limit: nat)
    ensures ValidModel(Fresh) && Start == Coder(0, 0xFFFF_FFFF) && Ready(Start)
    ensures Decompressed(data, limit) == if data == [] then Failed else Decode(Fresh, Opened(data), limit)
  {
    FreshValid();
  }

  /** Decompresses `inData` into `outData`; returns the number of bytes written, or 0 when the
      stream is rejected or does not fit.  `beyond` reports a code beyond the root's total,
      on which the source goes on with a wrapped value. */
  method Decompress(rc: RangeCoder, inData: seq<uint8>, outData: array<uint8>, outLimit: nat)
    returns (n: nat, beyond: bool)
    requires rc.symbols.Length == SLOTS && outLimit <= outData.Length
    modifies rc.symbols, rc`nextSymbol, outData
    ensures beyond == (Decompressed(inData, outLimit) == Unspecified)
    ensures match Decompressed(inData, outLimit)
      case Bytes(data) => n == |data| <= outLimit && outData[..n] == data
      case _ => n == 0
    ensures outData[outLimit..] == old(outData[outLimit..])
  {
    hide *;
    ghost var s0 := outData[..];
    DecompressedIs(inData, outLimit);
    beyond := false;
    if |inData| <= 0 {
      return 0, false;
    }
    var low: uint32, range: uint32, predicted: nat, order: nat, pos: nat := 0, 0xFFFF_FFFF, 0, 0, 0;
    Restart(rc);
    var code: uint32, inPos: nat := Seed(inData);
    ghost var m, l, sent: seq<uint8> := Fresh, FreshLayout(), [];
    LenRoot();
    SentNothing(s0, 0, outLimit);
    PrefixedNone(Decode(Fresh, Opened(inData), outLimit));
    while true
      invariant Rests(rc.symbols[..], rc.nextSymbol, l, m) && ValidModel(m)
      invariant m.predicted in l.index && predicted == l.index[m.predicted] && order == Len(m.predicted)
      invariant inPos <= |inData| && Ready(Coder(low, range)) && pos <= outLimit && !beyond
      invariant Prefixed(sent, Decode(m, Decoder(Coder(low, range), code, inData[inPos..]), outLimit - pos))
             == Decompressed(inData, outLimit)
      invariant Sent(s0, outData[..], 0, sent, outLimit) && pos == |sent| <= outLimit
      decreases outLimit - pos
    {
      ghost var d := Decoder(Coder(low, range), code, inData[inPos..]);
      DecodeNext(m, d, outLimit - pos);
      SentTail(s0, outData[..], 0, sent, outLimit);
      PrefixedCases(sent);
      var result, value, next;
      ghost var w, f;
      result, value, next, low, code, range, inPos, w, f :=
        DecodeByte(rc, predicted, low, code, range, inData, inPos, l, m);
      if result.Ended? {
        break;
      }
      if !result.Hit? {
        return 0, result.Beyond?;
      }
      ghost var d1 := Decoder(Coder(low, range), code, inData[inPos..]);
      var ok;
      ok, pos := Output(value, outData, pos, outLimit, s0, 0, sent);
      SentTail(s0, outData[..], 0, if ok then sent + [value] else sent, outLimit);
      if !ok {
        return 0, false;
      }
      PrefixedTwice(sent, [value], Decode(Advance(m, f, value), d1, outLimit - pos));
      sent := sent + [value];
      predicted, order, l := NextInput(rc, next, order, w, f);
      m := Advance(m, f, value);
    }
    SentAll(s0, outData[..], sent, outLimit);
    return pos, false;
  }
}
