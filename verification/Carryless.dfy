/** The 32-bit carryless range coder below the byte model: a register `low` and a width
    `range`, narrowed to the part of each coded interval and shifted left a byte at a time
    once its leading byte is settled. */
module Carryless {
  import opened Words
  import opened Contexts

  datatype Coder = Coder(low: nat, range: nat)

  const Start := Coder(0, TWO_32 - 1)

  /** The interval stays inside 32 bits.  It can touch 2^32 only after a truncation. */
  ghost predicate Ok(c: Coder) {
    && 0 < c.range < TWO_32
    && c.low + c.range <= TWO_32
    && (c.low + c.range == TWO_32 ==> c.range <= TWO_32 - TWO_24)
  }

  /** Wide enough to divide by any total. */
  ghost predicate Ready(c: Coder) {
    Ok(c) && BOTTOM <= c.range
  }

  /** `(low ^ (low + range)) < TOP` on 32-bit words: the leading bytes agree. */
  predicate SameTop(c: Coder) {
    c.low / TWO_24 == ((c.low + c.range) % TWO_32) / TWO_24
  }

  /** `w << 8` on a 32-bit word. */
  function Shl8(w: nat): (r: uint32) { (w * 0x100) % TWO_32 }

  /** `w >> 24`. */
  function TopByte(w: uint32): uint8 { w / TWO_24 }

  /** `-low & (BOTTOM - 1)`: how far the next multiple of 2^16 is. */
  function ToBottom(low: uint32): uint32 { (TWO_32 - low) % BOTTOM }

  lemma Shl8Exact(w: uint32)
    ensures Shl8(w) == (w % TWO_24) * 0x100
    ensures w == TopByte(w) * TWO_24 + Shl8(w) / 0x100
  {
    assert w * 0x100 == w / TWO_24 * TWO_32 + (w % TWO_24) * 0x100;
  }

  function Shifted(c: Coder): Coder {
    Coder(Shl8(c.low), Shl8(c.range))
  }

  /** The range cut back to the next multiple of 2^16. */
  function Truncated(c: Coder): Coder
    requires c.low < TWO_32
  {
    c.(range := ToBottom(c.low))
  }

  /** Does the coder have to shift, and if so which coder is shifted? */
  function ToShift(c: Coder): Coder
    requires c.low < TWO_32
  {
    if SameTop(c) then c else Truncated(c)
  }

  predicate Settled(c: Coder) {
    !SameTop(c) && BOTTOM <= c.range
  }

  // ----- the shift step -----

  lemma TruncatedNested(c: Coder)
    requires Ok(c) && !SameTop(c) && c.range < BOTTOM
    ensures 0 < Truncated(c).range <= c.range
    ensures (c.low + Truncated(c).range) % TWO_24 == 0
    ensures c.low + Truncated(c).range == (c.low / TWO_24 + 1) * TWO_24
  {
    var edge := (c.low / TWO_24 + 1) * TWO_24;
    assert c.low < edge <= c.low + c.range;
    var gap := edge - c.low;
    assert 0 < gap <= c.range < BOTTOM;
    assert TWO_32 - c.low == (TWO_32 - edge) + gap;
    assert TWO_32 - edge == (0x100 - (c.low / TWO_24 + 1)) * 0x100 * BOTTOM;
    assert (TWO_32 - c.low) % BOTTOM == gap;
  }

  /** A shift drops the leading byte, exactly, and keeps the interval inside 32 bits. */
  lemma ShiftExact(c: Coder)
    requires Ok(c) && !Settled(c)
    ensures var s := ToShift(c);
      && Ok(Shifted(s))
      && 0 < s.range <= c.range
      && Shifted(s).range == s.range * 0x100
      && Shifted(s).low == (s.low - s.low / TWO_24 * TWO_24) * 0x100
      && s.low / TWO_24 < 0x100
  {
    var s := ToShift(c);
    var top := s.low / TWO_24;
    if !SameTop(c) {
      TruncatedNested(c);
    } else {
      assert c.low + c.range < TWO_32;
      assert (c.low + c.range) / TWO_24 == top;
    }
    assert s.low * 0x100 == top * TWO_32 + (s.low - top * TWO_24) * 0x100;
    assert 0 <= s.low - top * TWO_24 < TWO_24;
    assert s.low + s.range <= (top + 1) * TWO_24;
  }

  ghost function Slack(c: Coder): nat
    requires Ok(c)
  {
    TWO_32 - c.range
  }

  ghost function Touches(c: Coder): nat {
    if c.low + c.range == TWO_32 then 0 else 1
  }

  /** The normalising loop ends: a truncation happens at most once, and every other pass
      widens the range. */
  lemma ShiftProgress(c: Coder)
    requires Ok(c) && !Settled(c)
    ensures Ok(Shifted(ToShift(c)))
    ensures var c' := Shifted(ToShift(c));
      Touches(c') < Touches(c) || (Touches(c') == Touches(c) && Slack(c') < Slack(c))
  {
    ShiftExact(c);
    if !SameTop(c) {
      TruncatedNested(c);
    }
  }

  // ----- the encoder -----

  /** The registers after the normalising loop. */
  function Normalised(c: Coder): (c': Coder)
    requires Ok(c)
    ensures Ready(c')
    decreases Touches(c), Slack(c)
  {
    if Settled(c) then c else (ShiftProgress(c); Normalised(Shifted(ToShift(c))))
  }

  /** The bytes the encoder's normalising loop sends out. */
  function Emitted(c: Coder): seq<uint8>
    requires Ok(c)
    decreases Touches(c), Slack(c)
  {
    if Settled(c) then [] else (
      ShiftProgress(c); ShiftExact(c);
      [TopByte(c.low)] + Emitted(Shifted(ToShift(c))))
  }

  function Narrowed(c: Coder, iv: Interval): Coder
    requires 0 < iv.total
  {
    var unit := c.range / iv.total;
    Coder(c.low + iv.under * unit, unit * iv.count)
  }

  lemma NarrowedOk(c: Coder, iv: Interval)
    requires Ready(c) && ValidInterval(iv)
    ensures var c' := Narrowed(c, iv);
      Ok(c') && c.low <= c'.low && c'.low + c'.range <= c.low + c.range
  {
    hide Ok;
    UnitBounds(c.range, iv.under, iv.count, iv.total);
    NestedOk(c, Narrowed(c, iv));
  }

  lemma NestedOk(c: Coder, c': Coder)
    requires Ok(c) && 0 < c'.range && c.low <= c'.low && c'.low + c'.range <= c.low + c.range
    ensures Ok(c')
  {
  }

  lemma UnitBounds(range: nat, under: nat, count: nat, total: nat)
    requires 0 < count && under + count <= total <= range
    ensures var unit := range / total;
      1 <= unit && 1 <= unit * count && under * unit + unit * count <= range
  {
    var unit := range / total;
    assert range == total * unit + range % total;
    assert 1 <= unit;
    MulMonotone(under + count, total, unit);
    MulMonotone(1, count, unit);
    assert (under + count) * unit == under * unit + unit * count;
  }

  lemma MulMonotone(a: nat, b: nat, k: nat)
    requires a <= b
    ensures a * k <= b * k
  {
  }

  /** One interval coded: narrow, then normalise. */
  function Coded(c: Coder, iv: Interval): (c': Coder)
    requires Ready(c) && ValidInterval(iv)
    ensures Ready(c')
  {
    NarrowedOk(c, iv);
    Normalised(Narrowed(c, iv))
  }

  function CodedBytes(c: Coder, iv: Interval): seq<uint8>
    requires Ready(c) && ValidInterval(iv)
  {
    NarrowedOk(c, iv);
    Emitted(Narrowed(c, iv))
  }

  function SignificantBytes(low: uint32): nat {
    if low == 0 then 0 else if low % TWO_24 == 0 then 1 else if low % TWO_16 == 0 then 2
    else if low % 0x100 == 0 then 3 else 4
  }

  lemma FlushProgress(low: uint32)
    requires low != 0
    ensures SignificantBytes(Shl8(low)) < SignificantBytes(low)
  {
    Shl8Exact(low);
    SplitRemainders(low);
    SplitRemainders(low % TWO_24);
    ScaledRemainders(low % TWO_24);
    hide Shl8, TopByte;
  }

  /** Remainders of a remainder. */
  lemma SplitRemainders(w: nat)
    ensures (w % TWO_24) % TWO_16 == w % TWO_16
    ensures (w % TWO_24) % 0x100 == w % 0x100
  {
    var a, n := w / TWO_24, w % TWO_24;
    var b, m := n / TWO_16, n % TWO_16;
    var c, d := m / 0x100, m % 0x100;
    Remainders(w, a * 0x100 + b, m, a * TWO_16 + b * 0x100 + c, d);
    Remainders(n, b, m, b * 0x100 + c, d);
  }

  lemma Remainders(w: nat, q: nat, m: nat, p: nat, d: nat)
    requires w == q * TWO_16 + m == p * 0x100 + d && m < TWO_16 && d < 0x100
    ensures w % TWO_16 == m && w % 0x100 == d
  {
  }

  lemma ScaledRemainders(n: nat)
    ensures (n * 0x100) % TWO_24 == (n % TWO_16) * 0x100
    ensures (n * 0x100) % TWO_16 == (n % 0x100) * 0x100
    ensures (n * 0x100) % 0x100 == 0
  {
    var q, m := n / TWO_16, n % TWO_16;
    var p, d := n / 0x100, n % 0x100;
    Remainders(n * 0x100, p, d * 0x100, n, 0);
    Remainder24(n * 0x100, q, m * 0x100);
  }

  lemma Remainder24(w: nat, q: nat, m: nat)
    requires w == q * TWO_24 + m && m < TWO_24
    ensures w % TWO_24 == m
  {
  }

  /** The final bytes: `low` without its trailing zero bytes. */
  function Flushed(low: uint32): seq<uint8>
    decreases SignificantBytes(low)
  {
    if low == 0 then [] else (
      FlushProgress(low);
      [TopByte(low)] + Flushed(Shl8(low)))
  }

  // ----- reading a byte stream that continues with zeros -----

  function ByteAt(s: seq<uint8>, k: nat): uint8 {
    if k < |s| then s[k] else 0
  }

  /** The next four bytes as a number. */
  function Window(s: seq<uint8>): uint32 {
    ByteAt(s, 0) * TWO_24 + ByteAt(s, 1) * TWO_16 + ByteAt(s, 2) * 0x100 + ByteAt(s, 3)
  }

  function Beyond(s: seq<uint8>): seq<uint8> {
    if |s| <= 4 then [] else s[4..]
  }

  lemma WindowShift(b: uint8, s: seq<uint8>)
    ensures Window([b] + s) == b * TWO_24 + Window(s) / 0x100
    ensures Shl8(Window([b] + s)) + ByteAt(Beyond([b] + s), 0) == Window(s)
    ensures Beyond(s) == (if Beyond([b] + s) == [] then [] else Beyond([b] + s)[1..])
  {
    var w := [b] + s;
    assert forall k: nat :: ByteAt(w, k + 1) == ByteAt(s, k);
    assert ByteAt(Beyond(w), 0) == ByteAt(w, 4);
    assert ByteAt(w, 1) == ByteAt(s, 0) && ByteAt(w, 2) == ByteAt(s, 1) && ByteAt(w, 3) == ByteAt(s, 2)
        && ByteAt(w, 4) == ByteAt(s, 3);
    var high := ByteAt(s, 0) * TWO_16 + ByteAt(s, 1) * 0x100 + ByteAt(s, 2);
    assert Window(s) == high * 0x100 + ByteAt(s, 3);
    assert Window(w) == b * TWO_24 + high;
    assert Window(w) * 0x100 == b * TWO_32 + high * 0x100;
  }

  /** The decoder's registers: the encoder's two, the four bytes it looks at, the bytes left. */
  datatype Decoder = Decoder(coder: Coder, code: uint32, rest: seq<uint8>)

  function Opened(s: seq<uint8>): Decoder {
    Decoder(Start, Window(s), Beyond(s))
  }

  function Consumed(d: Decoder): Decoder
    requires d.coder.low < TWO_32
  {
    d.(coder := Shifted(ToShift(d.coder)),
       code := Shl8(d.code) + ByteAt(d.rest, 0),
       rest := if d.rest == [] then [] else d.rest[1..])
  }

  function NormalisedInput(d: Decoder): (d': Decoder)
    requires Ok(d.coder)
    ensures d'.coder == Normalised(d.coder)
    decreases Touches(d.coder), Slack(d.coder)
  {
    if Settled(d.coder) then d else (ShiftProgress(d.coder); NormalisedInput(Consumed(d)))
  }

  /** `(code - low) / (range / total)` on 32-bit words, stored in 16 bits. */
  function Read(d: Decoder, total: nat): uint16
    requires 0 < total <= d.coder.range
  {
    (((d.code - d.coder.low) % TWO_32) / (d.coder.range / total)) % TWO_16
  }

  function Decoded(d: Decoder, iv: Interval): (d': Decoder)
    requires Ready(d.coder) && ValidInterval(iv)
    ensures d'.coder == Coded(d.coder, iv)
  {
    NarrowedOk(d.coder, iv);
    NormalisedInput(d.(coder := Narrowed(d.coder, iv)))
  }

  // ----- the encoder's stream decodes -----

  /** A coder can still end up emitting `s`. */
  ghost predicate Admits(c: Coder, s: seq<uint8>) {
    c.low <= Window(s) < c.low + c.range
  }

  lemma {:induction false} EmittedAdmitted(c: Coder, s: seq<uint8>)
    requires Ok(c) && Admits(Normalised(c), s)
    ensures Admits(c, Emitted(c) + s)
    decreases Touches(c), Slack(c)
  {
    if Settled(c) {
      assert Emitted(c) + s == s;
    } else {
      ShiftProgress(c);
      ShiftExact(c);
      var next := Shifted(ToShift(c));
      EmittedAdmitted(next, s);
      var top := c.low / TWO_24;
      assert Emitted(c) + s == [top] + (Emitted(next) + s);
      WindowShift(top, Emitted(next) + s);
      assert Window(Emitted(next) + s) / 0x100 >= ToShift(c).low - top * TWO_24;
    }
  }

  /** What was coded is inside the interval it was coded from, however coding goes on. */
  lemma CodedAdmitted(c: Coder, iv: Interval, s: seq<uint8>)
    requires Ready(c) && ValidInterval(iv) && Admits(Coded(c, iv), s)
    ensures Admits(Narrowed(c, iv), CodedBytes(c, iv) + s)
    ensures Admits(c, CodedBytes(c, iv) + s)
  {
    NarrowedOk(c, iv);
    EmittedAdmitted(Narrowed(c, iv), s);
  }

  lemma {:induction false} FlushedWindow(low: uint32)
    ensures Window(Flushed(low)) == low
    decreases SignificantBytes(low)
  {
    if low == 0 {
      assert Flushed(low) == [];
    } else {
      FlushProgress(low);
      FlushedWindow(Shl8(low));
      assert Flushed(low) == [TopByte(low)] + Flushed(Shl8(low));
      hide Window, Flushed, Shl8, TopByte, SignificantBytes;
      WindowShift(TopByte(low), Flushed(Shl8(low)));
      Shl8Exact(low);
    }
  }

  /** The decoder looks at the stream `s` from the registers `c`. */
  ghost predicate Synced(d: Decoder, c: Coder, s: seq<uint8>) {
    d == Decoder(c, Window(s), Beyond(s))
  }

  lemma {:induction false} NormalisedInputSynced(d: Decoder, c: Coder, s: seq<uint8>)
    requires Ok(c) && Synced(d, c, Emitted(c) + s)
    ensures Synced(NormalisedInput(d), Normalised(c), s)
    decreases Touches(c), Slack(c)
  {
    if Settled(c) {
      assert Emitted(c) + s == s;
    } else {
      ShiftProgress(c);
      ShiftExact(c);
      var next := Shifted(ToShift(c));
      var top := c.low / TWO_24;
      assert Emitted(c) + s == [top] + (Emitted(next) + s);
      WindowShift(top, Emitted(next) + s);
      NormalisedInputSynced(Consumed(d), next, s);
    }
  }

  /** Reading gives a code inside the interval that was coded. */
  lemma ReadInside(d: Decoder, iv: Interval)
    requires Ready(d.coder) && ValidInterval(iv)
    requires Narrowed(d.coder, iv).low <= d.code < Narrowed(d.coder, iv).low + Narrowed(d.coder, iv).range
    ensures iv.under <= Read(d, iv.total) < iv.under + iv.count
  {
    UnitBounds(d.coder.range, iv.under, iv.count, iv.total);
    Distribute(iv.under, iv.count, d.coder.range / iv.total);
    OffsetBounds(d.code - d.coder.low, d.coder.range / iv.total, iv.under, iv.under + iv.count);
  }

  lemma Distribute(a: nat, b: nat, k: nat)
    ensures (a + b) * k == a * k + k * b
  {
  }

  lemma OffsetBounds(offset: nat, unit: nat, lo: nat, hi: nat)
    requires 0 < unit && lo * unit <= offset < hi * unit && offset < TWO_32 && hi <= TWO_16
    ensures lo <= ((offset % TWO_32) / unit) % TWO_16 < hi
  {
    DivideBounds(offset, unit, lo, hi);
    assert offset % TWO_32 == offset;
  }

  lemma DivideBounds(n: nat, unit: nat, lo: nat, hi: nat)
    requires 0 < unit && lo * unit <= n < hi * unit
    ensures lo <= n / unit < hi
  {
    var q := n / unit;
    assert n == q * unit + n % unit;
    assert q < lo ==> (q + 1) * unit <= lo * unit;
    assert hi <= q ==> hi * unit <= q * unit;
  }

  /** One coded interval, seen from the decoder: it reads a code inside the interval, and
      decoding that interval leaves it in step with the encoder. */
  lemma DecodeStep(d: Decoder, c: Coder, iv: Interval, s: seq<uint8>)
    requires Ready(c) && ValidInterval(iv)
    requires Synced(d, c, CodedBytes(c, iv) + s) && Admits(Coded(c, iv), s)
    ensures iv.under <= Read(d, iv.total) < iv.under + iv.count
    ensures Synced(Decoded(d, iv), Coded(c, iv), s)
  {
    CodedAdmitted(c, iv, s);
    ReadInside(d, iv);
    NarrowedOk(c, iv);
    NormalisedInputSynced(d.(coder := Narrowed(c, iv)), Narrowed(c, iv), s);
  }
}
