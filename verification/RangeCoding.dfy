/** The range coder's macros: the registers in 32-bit words, the output and input buffers. */
module RangeCoding {
  import opened Words
  import opened Contexts
  import opened Carryless

  /** The top byte agrees: `(low ^ (low + range)) < TOP`. */
  predicate TopAgrees(low: uint32, range: uint32) {
    SameTop(Coder(low, range))
  }

  /** From `s0` to `s`, `sent` was appended after `from` and nothing from `limit` on changed. */
  ghost predicate Sent(s0: seq<uint8>, s: seq<uint8>, from: nat, sent: seq<uint8>, limit: nat) {
    && |s| == |s0| && from + |sent| <= limit <= |s|
    && s[..from + |sent|] == s0[..from] + sent
    && s[limit..] == s0[limit..]
  }

  lemma SentNothing(s: seq<uint8>, from: nat, limit: nat)
    requires from <= limit <= |s|
    ensures Sent(s, s, from, [], limit)
  {
  }

  lemma SentOne(s0: seq<uint8>, s: seq<uint8>, from: nat, sent: seq<uint8>, limit: nat, b: uint8)
    requires Sent(s0, s, from, sent, limit) && from + |sent| < limit
    ensures Sent(s0, s[from + |sent| := b], from, sent + [b], limit)
  {
    var s1 := s[from + |sent| := b];
    assert s1[..from + |sent| + 1] == s[..from + |sent|] + [b];
    assert s1[limit..] == s[limit..];
  }

  lemma SentTail(s0: seq<uint8>, s: seq<uint8>, from: nat, sent: seq<uint8>, limit: nat)
    requires Sent(s0, s, from, sent, limit)
    ensures from + |sent| <= limit <= |s| == |s0| && s[limit..] == s0[limit..]
  {
  }

  lemma SentTwice(s0: seq<uint8>, s1: seq<uint8>, s2: seq<uint8>, from: nat, a: seq<uint8>, b: seq<uint8>, limit: nat)
    requires Sent(s0, s1, from, a, limit) && Sent(s1, s2, from + |a|, b, limit)
    ensures Sent(s0, s2, from, a + b, limit)
  {
    assert s2[..from + |a| + |b|] == s1[..from + |a|] + b;
  }

  /** Appends a byte to the output unless it is full. */
  method Output(value: uint8, outData: array<uint8>, outPos: nat, outLimit: nat,
                ghost s0: seq<uint8>, ghost from: nat, ghost sent: seq<uint8>)
    returns (ok: bool, pos: nat)
    requires outLimit <= outData.Length && outPos == from + |sent|
    requires Sent(s0, outData[..], from, sent, outLimit)
    modifies outData
    ensures ok == (outPos < outLimit)
    ensures ok ==> pos == outPos + 1 && Sent(s0, outData[..], from, sent + [value], outLimit)
    ensures !ok ==> pos == outPos && Sent(s0, outData[..], from, sent, outLimit)
  {
    if outPos >= outLimit {
      return false, outPos;
    }
    SentOne(s0, outData[..], from, sent, outLimit, value);
    ghost var s := outData[..];
    outData[outPos] := value;
    assert outData[..] == s[outPos := value];
    return true, outPos + 1;
  }

  /** The registers narrowed to `count` units of range, `under` units up. */
  method Narrow(oldLow: uint32, unit: nat, under: nat, count: nat, ghost c: Coder, ghost iv: Interval)
    returns (low: uint32, range: uint32)
    requires Ready(c) && ValidInterval(iv) && oldLow == c.low && unit == c.range / iv.total
    requires under == iv.under && count == iv.count
    ensures Coder(low, range) == Narrowed(c, iv)
  {
    NarrowedArithmetic(c, iv);
    low := oldLow + under * unit;
    range := unit * count;
  }

  /** Codes one interval; fails when its bytes do not fit the output. */
  method RangeEncode(encodeLow: uint32, encodeRange: uint32, iv: Interval,
                     outData: array<uint8>, outPos: nat, outLimit: nat)
    returns (ok: bool, low: uint32, range: uint32, pos: nat)
    requires Ready(Coder(encodeLow, encodeRange)) && ValidInterval(iv)
    requires outPos <= outLimit <= outData.Length
    modifies outData
    ensures ok == (outPos + |CodedBytes(Coder(encodeLow, encodeRange), iv)| <= outLimit)
    ensures ok ==> Coder(low, range) == Coded(Coder(encodeLow, encodeRange), iv)
    ensures ok ==> pos == outPos + |CodedBytes(Coder(encodeLow, encodeRange), iv)|
    ensures ok ==>
      Sent(old(outData[..]), outData[..], outPos, CodedBytes(Coder(encodeLow, encodeRange), iv), outLimit)
    ensures outData[outLimit..] == old(outData[outLimit..])
  {
    ghost var s0 := outData[..];
    ghost var start := Coder(encodeLow, encodeRange);
    NarrowedOk(start, iv);
    low, range := Narrow(encodeLow, encodeRange / iv.total, iv.under, iv.count, start, iv);
    pos := outPos;
    ghost var sent: seq<uint8> := [];
    SentNothing(s0, outPos, outLimit);
    assert Normalised(Narrowed(start, iv)) == Coded(start, iv) && Emitted(Narrowed(start, iv)) == CodedBytes(start, iv);
    hide Narrowed, Normalised, Emitted, Coded, CodedBytes, Ok, SameTop, Touches, Slack, Sent, Shl8, TopByte, ToBottom,
      Shifted, ToShift;
    while true
      invariant Ok(Coder(low, range)) && pos == outPos + |sent| && Sent(s0, outData[..], outPos, sent, outLimit)
      invariant Normalised(Coder(low, range)) == Coded(start, iv)
      invariant sent + Emitted(Coder(low, range)) == CodedBytes(start, iv)
      decreases Touches(Coder(low, range)), Slack(Coder(low, range))
    {
      ghost var c := Coder(low, range);
      if !TopAgrees(low, range) {
        if range >= BOTTOM {
          EmittedDone(c);
          break;
        }
        range := ToBottom(low);
      }
      ShiftedWords(c);
      EmittedNext(c);
      MoreToSend(sent, TopByte(low), Emitted(Shifted(ToShift(c))));
      ok, pos := Output(TopByte(low), outData, pos, outLimit, s0, outPos, sent);
      if !ok {
        SentTail(s0, outData[..], outPos, sent, outLimit);
        return;
      }
      sent := sent + [TopByte(low)];
      range := Shl8(range);
      low := Shl8(low);
      ShiftedWords(c);
    }
    SentTail(s0, outData[..], outPos, sent, outLimit);
    ok := true;
  }

  /** The two assignments of a shift, as one step of the registers. */
  lemma ShiftedWords(c: Coder)
    requires c.low < TWO_32
    ensures Shifted(ToShift(c)) == Coder(Shl8(c.low), Shl8(if SameTop(c) then c.range else ToBottom(c.low)))
  {
    hide SameTop;
  }

  /** One pass of the normalising loop. */
  lemma EmittedNext(c: Coder)
    requires Ok(c) && !Settled(c)
    ensures var c' := Shifted(ToShift(c));
      && Ok(c') && c.low < TWO_32
      && Emitted(c) == [TopByte(c.low)] + Emitted(c')
      && Normalised(c) == Normalised(c')
      && (Touches(c') < Touches(c) || (Touches(c') == Touches(c) && Slack(c') < Slack(c)))
  {
    ShiftProgress(c);
    ShiftExact(c);
  }

  lemma EmittedDone(c: Coder)
    requires Ok(c) && Settled(c)
    ensures Emitted(c) == [] && Normalised(c) == c
  {
  }

  lemma ConsumedNext(d: Decoder)
    requires Ok(d.coder) && !Settled(d.coder)
    ensures var c, c' := d.coder, Shifted(ToShift(d.coder));
      && Ok(c') && Consumed(d).coder == c'
      && NormalisedInput(d) == NormalisedInput(Consumed(d))
      && (Touches(c') < Touches(c) || (Touches(c') == Touches(c) && Slack(c') < Slack(c)))
  {
    ShiftProgress(d.coder);
  }

  lemma ConsumedDone(d: Decoder)
    requires Ok(d.coder) && Settled(d.coder)
    ensures NormalisedInput(d) == d
  {
  }

  lemma NarrowedArithmetic(c: Coder, iv: Interval)
    requires Ready(c) && ValidInterval(iv)
    ensures 0 <= c.low + iv.under * (c.range / iv.total) < TWO_32
    ensures 0 <= c.range / iv.total * iv.count < TWO_32
    ensures Narrowed(c, iv) == Coder(c.low + iv.under * (c.range / iv.total), c.range / iv.total * iv.count)
  {
    NarrowedOk(c, iv);
  }

  /** A byte sent, or one that no longer fits, is one of those still to be sent. */
  lemma MoreToSend(sent: seq<uint8>, b: uint8, rest: seq<uint8>)
    ensures sent + ([b] + rest) == (sent + [b]) + rest
    ensures |sent| < |sent + ([b] + rest)|
  {
  }

  lemma FlushedNext(low: uint32)
    ensures if low == 0 then Flushed(low) == [] else Flushed(low) == [TopByte(low)] + Flushed(Shl8(low))
  {
  }

  /** Sends out what is left of `low`. */
  method Flush(encodeLow: uint32, outData: array<uint8>, outPos: nat, outLimit: nat) returns (ok: bool, pos: nat)
    requires outPos <= outLimit <= outData.Length
    modifies outData
    ensures ok == (outPos + |Flushed(encodeLow)| <= outLimit)
    ensures ok ==> pos == outPos + |Flushed(encodeLow)|
    ensures ok ==> Sent(old(outData[..]), outData[..], outPos, Flushed(encodeLow), outLimit)
    ensures outData[outLimit..] == old(outData[outLimit..])
  {
    ghost var s0 := outData[..];
    var low: uint32 := encodeLow;
    pos := outPos;
    ghost var sent: seq<uint8> := [];
    SentNothing(s0, outPos, outLimit);
    hide Flushed, Sent, Shl8, TopByte, SignificantBytes;
    while low != 0
      invariant pos == outPos + |sent| && Sent(s0, outData[..], outPos, sent, outLimit)
      invariant sent + Flushed(low) == Flushed(encodeLow)
      decreases SignificantBytes(low)
    {
      FlushProgress(low);
      FlushedNext(low);
      MoreToSend(sent, TopByte(low), Flushed(Shl8(low)));
      ok, pos := Output(TopByte(low), outData, pos, outLimit, s0, outPos, sent);
      if !ok {
        SentTail(s0, outData[..], outPos, sent, outLimit);
        return;
      }
      sent := sent + [TopByte(low)];
      low := Shl8(low);
    }
    FlushedNext(low);
    SentTail(s0, outData[..], outPos, sent, outLimit);
    ok := true;
  }

  /** Up to four bytes of input, the missing ones read as zero. */
  method Seed(inData: seq<uint8>) returns (decodeCode: uint32, inPos: nat)
    ensures inPos <= |inData|
    ensures Decoder(Start, decodeCode, inData[inPos..]) == Opened(inData)
  {
    decodeCode, inPos := 0, 0;
    if inPos < |inData| { decodeCode, inPos := decodeCode + inData[inPos] as int * TWO_24, inPos + 1; }
    if inPos < |inData| { decodeCode, inPos := decodeCode + inData[inPos] as int * TWO_16, inPos + 1; }
    if inPos < |inData| { decodeCode, inPos := decodeCode + inData[inPos] as int * 0x100, inPos + 1; }
    if inPos < |inData| { decodeCode, inPos := decodeCode + inData[inPos], inPos + 1; }
  }

  /** The code the registers stand at; leaves the unit of range behind. */
  method RangeRead(low: uint32, code: uint32, decodeRange: uint32, total: nat) returns (read: uint16, range: uint32)
    requires 0 < total <= decodeRange
    ensures range == decodeRange / total
    ensures forall rest :: read == Read(Decoder(Coder(low, decodeRange), code, rest), total)
  {
    range := decodeRange / total;
    read := (((code - low) % TWO_32) / range) % TWO_16;
  }

  /** Takes one interval off the registers after `RangeRead` divided the range. */
  method RangeDecode(decodeLow: uint32, decodeCode: uint32, unit: uint32, under: nat, count: nat,
                     inData: seq<uint8>, inPos: nat, ghost d: Decoder, ghost iv: Interval)
    returns (low: uint32, code: uint32, range: uint32, pos: nat)
    requires inPos <= |inData| && Ready(d.coder) && ValidInterval(iv)
    requires d == Decoder(Coder(decodeLow, d.coder.range), decodeCode, inData[inPos..])
    requires unit == d.coder.range / iv.total && under == iv.under && count == iv.count
    ensures inPos <= pos <= |inData|
    ensures Decoder(Coder(low, range), code, inData[pos..]) == Decoded(d, iv)
  {
    NarrowedOk(d.coder, iv);
    low, range := Narrow(decodeLow, unit, under, count, d.coder, iv);
    code := decodeCode;
    pos := inPos;
    assert NormalisedInput(d.(coder := Narrowed(d.coder, iv))) == Decoded(d, iv);
    hide Narrowed, Normalised, NormalisedInput, Decoded, Coded, Ok, SameTop, Touches, Slack, Shl8, ToBottom, Shifted,
      ToShift, Consumed;
    while true
      invariant Ok(Coder(low, range)) && inPos <= pos <= |inData|
      invariant NormalisedInput(Decoder(Coder(low, range), code, inData[pos..])) == Decoded(d, iv)
      decreases Touches(Coder(low, range)), Slack(Coder(low, range))
    {
      ghost var now := Decoder(Coder(low, range), code, inData[pos..]);
      if !TopAgrees(low, range) {
        if range >= BOTTOM {
          ConsumedDone(now);
          break;
        }
        range := ToBottom(low);
      }
      ConsumedNext(now);
      ConsumedWords(now, inData, pos);
      ShiftedWords(now.coder);
      code := Shl8(code);
      if pos < |inData| {
        code := code + inData[pos];
        pos := pos + 1;
      }
      range := Shl8(range);
      low := Shl8(low);
      assert Decoder(Coder(low, range), code, inData[pos..]) == Consumed(now);
    }
  }

  /** The decoder's shift, as the assignments that make it. */
  lemma ConsumedWords(d: Decoder, inData: seq<uint8>, pos: nat)
    requires d.coder.low < TWO_32 && pos <= |inData| && d.rest == inData[pos..]
    ensures Shl8(d.code) + 0x100 <= TWO_32
    ensures Consumed(d) == if pos < |inData|
      then Decoder(Shifted(ToShift(d.coder)), Shl8(d.code) + inData[pos], inData[pos + 1..])
      else Decoder(Shifted(ToShift(d.coder)), Shl8(d.code), inData[pos..])
  {
    Shl8Exact(d.code);
    hide Shl8, Shifted, ToShift;
  }
}
