/** What the compressor's output means and why the decompressor inverts it. */
module Compression {
  import opened Words
  import opened Contexts
  import opened Carryless
  import opened Ppm

  // ----- compressing -----

  function CodedAll(c: Coder, ivs: seq<Interval>): (c': Coder)
    requires Ready(c) && forall i :: 0 <= i < |ivs| ==> ValidInterval(ivs[i])
    ensures Ready(c')
    decreases |ivs|
  {
    if ivs == [] then c else CodedAll(Coded(c, ivs[0]), ivs[1..])
  }

  function CodedAllBytes(c: Coder, ivs: seq<Interval>): seq<uint8>
    requires Ready(c) && forall i :: 0 <= i < |ivs| ==> ValidInterval(ivs[i])
    decreases |ivs|
  {
    if ivs == [] then [] else CodedBytes(c, ivs[0]) + CodedAllBytes(Coded(c, ivs[0]), ivs[1..])
  }

  /** The model after `v`. */
  function Next(m: Model, v: uint8): (m': Model)
    requires ValidModel(m)
    ensures ValidModel(m')
  {
    var found := Found(m.contexts, m.predicted, v);
    FoundOnChain(m.contexts, m.predicted, v);
    AdvanceValid(m, found, v);
    Advance(m, found, v)
  }

  lemma {:induction false} FoundOnChain(t: Table, h: History, v: uint8)
    requires ValidContexts(t) && h in t
    ensures Found(t, h, v) in Chain(h, Found(t, h, v))
    decreases Len(h)
  {
    if !(h.Root? || t[h].counts[v] > 0) {
      FoundOnChain(t, Shorter(h), v);
    }
  }

  function Encoded(m: Model, c: Coder, input: seq<uint8>): seq<uint8>
    requires ValidModel(m) && Ready(c)
    decreases |input|
  {
    if input == [] then Flushed(c.low) else (
      var ivs := Intervals(m.contexts, m.predicted, input[0]);
      CodedAllBytes(c, ivs) + Encoded(Next(m, input[0]), CodedAll(c, ivs), input[1..]))
  }

  /** The compressed form of `input`. */
  function Compressed(input: seq<uint8>): seq<uint8> {
    FreshValid();
    Encoded(Fresh, Start, input)
  }

  // ----- decompressing -----

  /** What the decoder finds next: a value, the end, a code no subcontext holds, or a code
      above the root's total, which no compressor emits. */
  datatype Choice =
    | Symbol(found: History, value: uint8, d: Decoder)
    | End
    | Rejected
    | OutOfRange

  function Chosen(t: Table, h: History, d: Decoder): (r: Choice)
    requires ValidContexts(t) && h in t && Ready(d.coder)
    ensures r.Symbol? ==> r.found in t && r.found in Chain(h, r.found) && Ready(r.d.coder)
    ensures r.Symbol? ==> r.found.Root? || t[r.found].counts[r.value] > 0
    decreases Len(h)
  {
    var c := t[h];
    var total := Total(c, MinimumOf(h));
    if h.Then? && (c.escapes <= 0 || c.escapes >= total) then Chosen(t, Shorter(h), d) else (
      var code := Read(d, total);
      if code < c.escapes then
        if h.Root? then End else Chosen(t, Shorter(h), Decoded(d, EscapeInterval(c, 0)))
      else if code >= total then
        if h.Root? then OutOfRange else Rejected
      else (
        var v := Locate(c.counts, MinimumOf(h), code - c.escapes);
        SymbolIntervalValid(c, MinimumOf(h), v);
        Symbol(h, v, Decoded(d, SymbolInterval(c, MinimumOf(h), v)))))
  }

  datatype Outcome = Bytes(data: seq<uint8>) | Failed | Unspecified

  function Decode(m: Model, d: Decoder, limit: nat): Outcome
    requires ValidModel(m) && Ready(d.coder)
    decreases limit
  {
    match Chosen(m.contexts, m.predicted, d)
    case End => Bytes([])
    case Rejected => Failed
    case OutOfRange => Unspecified
    case Symbol(found, v, d') =>
      if limit == 0 then Failed else (
        AdvanceValid(m, found, v);
        match Decode(Advance(m, found, v), d', limit - 1)
        case Bytes(data) => Bytes([v] + data)
        case other => other)
  }

  /** What the decompressor makes of `data` when it may write `limit` bytes. */
  function Decompressed(data: seq<uint8>, limit: nat): Outcome {
    FreshValid();
    if data == [] then Failed else Decode(Fresh, Opened(data), limit)
  }

  // ----- one byte -----

  /** Whatever is coded next stays inside the interval the coder has reached. */
  lemma {:induction false} CodedAllAdmitted(c: Coder, ivs: seq<Interval>, s: seq<uint8>)
    requires Ready(c) && forall i :: 0 <= i < |ivs| ==> ValidInterval(ivs[i])
    requires Admits(CodedAll(c, ivs), s)
    ensures Admits(c, CodedAllBytes(c, ivs) + s)
    decreases |ivs|
  {
    if ivs == [] {
      assert CodedAllBytes(c, ivs) + s == s;
    } else {
      var rest := CodedAllBytes(Coded(c, ivs[0]), ivs[1..]);
      CodedAllAdmitted(Coded(c, ivs[0]), ivs[1..], s);
      CodedAdmitted(c, ivs[0], rest + s);
      assert CodedBytes(c, ivs[0]) + (rest + s) == CodedAllBytes(c, ivs) + s;
    }
  }

  /** Where the encoder found `v`, the decoder reads a code of `v`'s interval and takes it. */
  lemma ChosenHere(t: Table, h: History, v: uint8, c: Coder, d: Decoder, s: seq<uint8>)
    requires ValidContexts(t) && h in t && Ready(c)
    requires h.Root? || t[h].counts[v] > 0
    requires var iv := SymbolInterval(t[h], MinimumOf(h), v);
      ValidInterval(iv) && Synced(d, c, CodedBytes(c, iv) + s) && Admits(Coded(c, iv), s)
    ensures var iv := SymbolInterval(t[h], MinimumOf(h), v);
      var r := Chosen(t, h, d);
      r.Symbol? && r.value == v && r.found == h && Synced(r.d, Coded(c, iv), s)
  {
    hide ValidContexts, Narrowed, Normalised, Coded, CodedBytes, Decoded, Read, Window, Beyond, Chain;
    ContextsValid(t, h);
    var cx := t[h];
    var iv := SymbolInterval(cx, MinimumOf(h), v);
    DecodeStep(d, c, iv, s);
    LocateInverts(cx.counts, MinimumOf(h), v, Read(d, iv.total) - cx.escapes);
    SumOfZeros(cx.counts, 0, |cx.counts|);
  }

  lemma ContextsValid(t: Table, h: History)
    requires ValidContexts(t) && h in t
    ensures ValidContext(t[h], MinimumOf(h))
    ensures h.Then? ==> Shorter(h) in t
  {
  }

  /** Where the encoder coded an escape, the decoder goes on to the next lower order. */
  lemma ChosenBelow(t: Table, h: History, c: Coder, d: Decoder, s: seq<uint8>)
    requires ValidContexts(t) && h in t && h.Then? && Shorter(h) in t && Ready(c)
    requires 0 < t[h].escapes < Total(t[h], 0)
    requires var iv := EscapeInterval(t[h], 0);
      ValidInterval(iv) && Synced(d, c, CodedBytes(c, iv) + s) && Admits(Coded(c, iv), s)
    ensures var iv := EscapeInterval(t[h], 0);
      var d' := Decoded(d, iv);
      Synced(d', Coded(c, iv), s) && Chosen(t, h, d) == Chosen(t, Shorter(h), d')
  {
    hide ValidContexts, Narrowed, Normalised, Coded, CodedBytes, Decoded, Read, Window, Beyond, Chain;
    ContextsValid(t, h);
    DecodeStep(d, c, EscapeInterval(t[h], 0), s);
  }

  /** From the intervals of `v`, the decoder escapes as often as the encoder did, finds `v`
      where the encoder found it, and is left in step with the encoder. */
  lemma {:induction false} ChosenInverts(t: Table, h: History, v: uint8, c: Coder, d: Decoder, s: seq<uint8>)
    requires ValidContexts(t) && h in t && Ready(c)
    requires Synced(d, c, CodedAllBytes(c, Intervals(t, h, v)) + s)
    requires Admits(CodedAll(c, Intervals(t, h, v)), s)
    ensures var r := Chosen(t, h, d);
      r.Symbol? && r.value == v && r.found == Found(t, h, v) && Synced(r.d, CodedAll(c, Intervals(t, h, v)), s)
    decreases Len(h)
  {
    hide ValidContexts, Intervals, Found, Chosen, CodedAll, CodedAllBytes, Window, Beyond, Admits, Coded, CodedBytes,
      Decoded;
    ContextsValid(t, h);
    if h.Root? || t[h].counts[v] > 0 {
      IntervalsHere(t, h, v);
      CodedAllOne(c, SymbolInterval(t[h], MinimumOf(h), v));
      ChosenHere(t, h, v, c, d, s);
    } else if 0 < t[h].escapes < Total(t[h], 0) {
      var iv := EscapeInterval(t[h], 0);
      var lower := Intervals(t, Shorter(h), v);
      IntervalsBelow(t, h, v);
      CodedAllFirst(c, iv, lower, s);
      CodedAllAdmitted(Coded(c, iv), lower, s);
      ChosenBelow(t, h, c, d, CodedAllBytes(Coded(c, iv), lower) + s);
      ChosenInverts(t, Shorter(h), v, Coded(c, iv), Decoded(d, iv), s);
    } else {
      IntervalsSilent(t, h, v, d);
      ChosenInverts(t, Shorter(h), v, c, d, s);
    }
  }

  lemma IntervalsHere(t: Table, h: History, v: uint8)
    requires ValidContexts(t) && h in t
    requires h.Root? || t[h].counts[v] > 0
    ensures ValidInterval(SymbolInterval(t[h], MinimumOf(h), v))
    ensures Intervals(t, h, v) == [SymbolInterval(t[h], MinimumOf(h), v)]
    ensures Found(t, h, v) == h
  {
    SymbolIntervalValid(t[h], MinimumOf(h), v);
  }

  lemma IntervalsBelow(t: Table, h: History, v: uint8)
    requires ValidContexts(t) && h in t && h.Then? && Shorter(h) in t && t[h].counts[v] == 0
    requires 0 < t[h].escapes < Total(t[h], 0)
    ensures ValidInterval(EscapeInterval(t[h], 0))
    ensures Intervals(t, h, v) == [EscapeInterval(t[h], 0)] + Intervals(t, Shorter(h), v)
    ensures Found(t, h, v) == Found(t, Shorter(h), v)
  {
    ContextsValid(t, h);
  }

  lemma IntervalsSilent(t: Table, h: History, v: uint8, d: Decoder)
    requires ValidContexts(t) && h in t && h.Then? && Shorter(h) in t && t[h].counts[v] == 0
    requires !(0 < t[h].escapes < Total(t[h], 0)) && Ready(d.coder)
    ensures Intervals(t, h, v) == Intervals(t, Shorter(h), v)
    ensures Found(t, h, v) == Found(t, Shorter(h), v)
    ensures Chosen(t, h, d) == Chosen(t, Shorter(h), d)
  {
    hide Read, Decoded;
    ContextsValid(t, h);
  }

  lemma CodedAllOne(c: Coder, iv: Interval)
    requires Ready(c) && ValidInterval(iv)
    ensures CodedAll(c, [iv]) == Coded(c, iv) && CodedAllBytes(c, [iv]) == CodedBytes(c, iv)
  {
    assert [iv][1..] == [];
  }

  lemma CodedAllFirst(c: Coder, iv: Interval, ivs: seq<Interval>, s: seq<uint8>)
    requires Ready(c) && ValidInterval(iv) && forall i :: 0 <= i < |ivs| ==> ValidInterval(ivs[i])
    ensures CodedAll(c, [iv] + ivs) == CodedAll(Coded(c, iv), ivs)
    ensures CodedAllBytes(c, [iv] + ivs) + s == CodedBytes(c, iv) + (CodedAllBytes(Coded(c, iv), ivs) + s)
  {
    assert ([iv] + ivs)[1..] == ivs;
  }

  // ----- the end of the stream -----

  /** The decoder has nothing left to read and its code is its low bound. */
  ghost predicate Quiet(d: Decoder) {
    d.code == d.coder.low && d.rest == []
  }

  lemma {:induction false} NormalisedQuiet(d: Decoder)
    requires Ok(d.coder) && Quiet(d)
    ensures Quiet(NormalisedInput(d))
    decreases Touches(d.coder), Slack(d.coder)
  {
    if !Settled(d.coder) {
      ShiftProgress(d.coder);
      NormalisedQuiet(Consumed(d));
    }
  }

  /** No end marker is coded: past the flushed bytes every read gives 0, which escapes
      down to the root and stops there. */
  lemma {:induction false} QuietEnds(t: Table, h: History, d: Decoder)
    requires ValidContexts(t) && h in t && Ready(d.coder) && Quiet(d)
    ensures Chosen(t, h, d).End?
    decreases Len(h)
  {
    hide ValidContexts, Coded, Decoded, Read, Chain;
    ContextsValid(t, h);
    var c := t[h];
    if h.Then? {
      if 0 < c.escapes < Total(c, 0) {
        var iv := EscapeInterval(c, 0);
        ReadQuiet(d, iv.total);
        DecodedQuiet(d, iv);
        QuietEnds(t, Shorter(h), Decoded(d, iv));
      } else {
        QuietEnds(t, Shorter(h), d);
      }
    } else {
      ReadQuiet(d, Total(c, 1));
    }
  }

  lemma ReadQuiet(d: Decoder, total: nat)
    requires 0 < total <= d.coder.range && Quiet(d)
    ensures Read(d, total) == 0
  {
  }

  lemma DecodedQuiet(d: Decoder, iv: Interval)
    requires Ready(d.coder) && ValidInterval(iv) && iv.under == 0 && Quiet(d)
    ensures Quiet(Decoded(d, iv))
  {
    NarrowedOk(d.coder, iv);
    NormalisedQuiet(d.(coder := Narrowed(d.coder, iv)));
  }

  // ----- all bytes -----

  lemma {:induction false} EncodedAdmitted(m: Model, c: Coder, input: seq<uint8>)
    requires ValidModel(m) && Ready(c)
    ensures Admits(c, Encoded(m, c, input))
    decreases |input|
  {
    if input == [] {
      FlushedWindow(c.low);
    } else {
      var ivs := Intervals(m.contexts, m.predicted, input[0]);
      EncodedAdmitted(Next(m, input[0]), CodedAll(c, ivs), input[1..]);
      CodedAllAdmitted(c, ivs, Encoded(Next(m, input[0]), CodedAll(c, ivs), input[1..]));
    }
  }

  lemma {:induction false} FlushedShort(low: uint32)
    ensures |Flushed(low)| <= SignificantBytes(low)
    decreases SignificantBytes(low)
  {
    if low != 0 {
      FlushProgress(low);
      FlushedShort(Shl8(low));
    }
  }

  lemma {:induction false} DecodeInverts(m: Model, c: Coder, d: Decoder, input: seq<uint8>, limit: nat)
    requires ValidModel(m) && Ready(c) && Synced(d, c, Encoded(m, c, input))
    ensures Decode(m, d, limit) == if |input| <= limit then Bytes(input) else Failed
    decreases |input|
  {
    hide Chosen, Intervals, Found, CodedAll, CodedAllBytes, Advance, ValidContexts, Flushed, Window;
    if input == [] {
      FlushedWindow(c.low);
      FlushedShort(c.low);
      QuietEnds(m.contexts, m.predicted, d);
    } else {
      var v := input[0];
      var ivs := Intervals(m.contexts, m.predicted, v);
      var m', c' := Next(m, v), CodedAll(c, ivs);
      EncodedAdmitted(m', c', input[1..]);
      ChosenInverts(m.contexts, m.predicted, v, c, d, Encoded(m', c', input[1..]));
      if limit > 0 {
        DecodeInverts(m', c', Chosen(m.contexts, m.predicted, d).d, input[1..], limit - 1);
        assert [v] + input[1..] == input;
      }
    }
  }

  /** The compressed form of a nonempty input is nonempty: its first interval already lies
      above zero, so some byte must carry it. */
  lemma CompressedNonEmpty(input: seq<uint8>)
    requires input != []
    ensures Compressed(input) != []
  {
    hide Found, CodedAll, CodedAllBytes, Next, Flushed, NoCounts;
    FreshValid();
    var v := input[0];
    var iv := SymbolInterval(Fresh.contexts[Root], 1, v);
    SymbolIntervalValid(Fresh.contexts[Root], 1, v);
    assert Intervals(Fresh.contexts, Root, v) == [iv];
    CodedAllOne(Start, iv);
    var s := Encoded(Next(Fresh, v), Coded(Start, iv), input[1..]);
    EncodedAdmitted(Next(Fresh, v), Coded(Start, iv), input[1..]);
    CodedAdmitted(Start, iv, s);
    NarrowedAboveZero(iv);
    assert Window([]) == 0;
  }

  lemma NarrowedAboveZero(iv: Interval)
    requires ValidInterval(iv) && 0 < iv.under
    ensures 0 < Narrowed(Start, iv).low
  {
    assert 1 <= Start.range / iv.total;
    assert 1 <= iv.under * (Start.range / iv.total);
  }

  /** The round trip: decompressing what the compressor made of any nonempty input gives
      that input back and stops exactly there, as long as there is room for it. */
  lemma RoundTrip(input: seq<uint8>, limit: nat)
    requires input != []
    ensures Decompressed(Compressed(input), limit) == if |input| <= limit then Bytes(input) else Failed
  {
    FreshValid();
    CompressedNonEmpty(input);
    DecodeInverts(Fresh, Start, Opened(Compressed(input)), input, limit);
  }

  /** Not every stream is a compressor's output: four bytes of ones read the code 257 in the
      root, whose total is 257. */
  lemma BeyondTotal(limit: nat)
    ensures Decompressed([0xFF, 0xFF, 0xFF, 0xFF], limit) == Unspecified
  {
    FreshValid();
    OnesRead();
    hide Read, Opened, Decoded, Window, ValidContexts;
  }

  lemma OnesRead()
    ensures var d := Opened([0xFF, 0xFF, 0xFF, 0xFF]);
      && Root in Fresh.contexts && |Fresh.contexts[Root].counts| == VALUES && Fresh.contexts[Root].escapes == 1
      && Total(Fresh.contexts[Root], 1) == 257 <= d.coder.range && Ready(d.coder) && Read(d, 257) == 257
  {
    hide Sum;
    var data: seq<uint8> := [0xFF, 0xFF, 0xFF, 0xFF];
    assert Window(data) == 0xFFFF_FFFF;
    assert 0xFFFF_FFFF / 257 == 0xFF_00FF;
  }
}
