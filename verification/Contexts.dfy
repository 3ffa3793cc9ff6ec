/** The statistics one context of the range coder keeps: how often it escaped, and a
    count for each of the 256 byte values.  Nothing here knows about the search tree in
    which the coder stores the counts; `SymbolTrees` proves that tree against this. */
module Contexts {
  import opened Words

  const VALUES := 256
  const ROOT_DELTA := 3
  const ROOT_ESCAPES := 1
  const SUBCONTEXT_DELTA := 2
  const SUBCONTEXT_ESCAPE_DELTA := 5
  const BOTTOM := TWO_16
  const LARGEST_TOTAL := TWO_16 - 0x100

  /** The share every value has before it is ever seen: 1 in the root context, 0 elsewhere. */
  type Minimum = m: int | 0 <= m <= 1

  datatype Context = Context(escapes: nat, counts: seq<nat>)

  /** A symbol's part of the code range: `count` out of `total`, starting at `under`. */
  datatype Interval = Interval(under: nat, count: nat, total: nat)

  ghost predicate ValidInterval(iv: Interval) {
    0 < iv.count && iv.under + iv.count <= iv.total < BOTTOM
  }

  // ----- sums of counts -----

  function Sum(counts: seq<nat>, lo: nat, hi: nat): nat
    requires lo <= hi <= |counts|
    decreases hi, counts
  {
    if lo == hi then 0 else Sum(counts, lo, hi - 1) + counts[hi - 1]
  }

  lemma {:induction false} SumSplit(counts: seq<nat>, lo: nat, mid: nat, hi: nat)
    requires lo <= mid <= hi <= |counts|
    ensures Sum(counts, lo, hi) == Sum(counts, lo, mid) + Sum(counts, mid, hi)
    decreases hi
  {
    if mid < hi {
      SumSplit(counts, lo, mid, hi - 1);
    }
  }

  lemma {:induction false} SumUpdate(counts: seq<nat>, v: nat, count: nat, lo: nat, hi: nat)
    requires v < |counts| && lo <= hi <= |counts|
    ensures Sum(counts[v := count], lo, hi)
         == Sum(counts, lo, hi) + (if lo <= v < hi then count - counts[v] else 0)
    decreases hi
  {
    if lo < hi {
      SumUpdate(counts, v, count, lo, hi - 1);
    }
  }

  lemma {:induction false} SumOfZeros(counts: seq<nat>, lo: nat, hi: nat)
    requires lo <= hi <= |counts|
    ensures Sum(counts, lo, hi) == 0 <==> forall v :: lo <= v < hi ==> counts[v] == 0
    decreases hi
  {
    if lo < hi {
      SumOfZeros(counts, lo, hi - 1);
    }
  }

  /** The share of all values below `v`. */
  function Under(counts: seq<nat>, minimum: Minimum, v: nat): nat
    requires v <= |counts|
  {
    Sum(counts, 0, v) + (if minimum == 0 then 0 else v)
  }

  lemma UnderMonotone(counts: seq<nat>, minimum: Minimum, v: nat, w: nat)
    requires v <= w <= |counts|
    ensures Under(counts, minimum, v) <= Under(counts, minimum, w)
    ensures v < w ==> Under(counts, minimum, v) + counts[v] + minimum <= Under(counts, minimum, w)
  {
    SumSplit(counts, 0, v, w);
    if v < w {
      SumSplit(counts, 0, v, v + 1);
      SumSplit(counts, 0, v + 1, w);
    }
  }

  // ----- contexts -----

  function Total(c: Context, minimum: Minimum): nat
    requires |c.counts| == VALUES
  {
    c.escapes + Under(c.counts, minimum, |c.counts|)
  }

  function NoCounts(): (counts: seq<nat>)
    ensures |counts| == VALUES
    ensures Sum(counts, 0, |counts|) == 0
  {
    var counts := seq(VALUES, i => 0);
    SumOfZeros(counts, 0, |counts|);
    counts
  }

  function EmptyContext(): Context { Context(0, NoCounts()) }

  function FreshRoot(): Context { Context(ROOT_ESCAPES, NoCounts()) }

  /** What holds of every context between two steps of the coder. */
  ghost predicate ValidContext(c: Context, minimum: Minimum) {
    && |c.counts| == VALUES
    && (forall v :: 0 <= v < VALUES ==> c.counts[v] <= 253 - minimum)
    && Total(c, minimum) <= LARGEST_TOTAL
    && (if minimum == 1 then c.escapes == ROOT_ESCAPES
        else (c.escapes == 0 <==> Sum(c.counts, 0, |c.counts|) == 0))
  }

  /** The part of the range that codes `v`. */
  function SymbolInterval(c: Context, minimum: Minimum, v: nat): Interval
    requires |c.counts| == VALUES && v < VALUES
  {
    Interval(c.escapes + Under(c.counts, minimum, v), c.counts[v] + minimum, Total(c, minimum))
  }

  function EscapeInterval(c: Context, minimum: Minimum): Interval
    requires |c.counts| == VALUES
  {
    Interval(0, c.escapes, Total(c, minimum))
  }

  lemma SymbolIntervalValid(c: Context, minimum: Minimum, v: nat)
    requires ValidContext(c, minimum) && v < VALUES && 0 < c.counts[v] + minimum
    ensures ValidInterval(SymbolInterval(c, minimum, v))
  {
    UnderMonotone(c.counts, minimum, v, |c.counts|);
  }

  // ----- adaptation -----

  function Halve(n: nat): nat { n - n / 2 }

  function HalveAll(counts: seq<nat>): (halved: seq<nat>)
    ensures |halved| == |counts|
    ensures forall v :: 0 <= v < |counts| ==> halved[v] == Halve(counts[v])
  {
    seq(|counts|, v requires 0 <= v < |counts| => Halve(counts[v]))
  }

  lemma {:induction false} SumHalved(counts: seq<nat>, lo: nat, hi: nat)
    requires lo <= hi <= |counts|
    ensures 2 * Sum(HalveAll(counts), lo, hi) <= Sum(counts, lo, hi) + (hi - lo)
    decreases hi
  {
    if lo < hi {
      SumHalved(counts, lo, hi - 1);
    }
  }

  function Rescaled(c: Context): Context {
    Context(Halve(c.escapes), HalveAll(c.counts))
  }

  function Delta(minimum: Minimum): nat { if minimum == 1 then ROOT_DELTA else SUBCONTEXT_DELTA }

  /** The context with one more sighting of `v`, before any rescaling. */
  function Counted(c: Context, minimum: Minimum, v: nat): (c': Context)
    requires |c.counts| == VALUES && v < VALUES
  {
    Context(if minimum == 0 && c.counts[v] == 0 then c.escapes + SUBCONTEXT_ESCAPE_DELTA else c.escapes,
            c.counts[v := c.counts[v] + Delta(minimum)])
  }

  predicate NeedsRescale(c: Context, minimum: Minimum, v: nat)
    requires |c.counts| == VALUES && v < VALUES
  {
    || c.counts[v] + minimum > 0xFF - 2 * Delta(minimum) + minimum
    || Total(Counted(c, minimum, v), minimum) > LARGEST_TOTAL
  }

  /** What coding `v` does to a context. */
  function Adapted(c: Context, minimum: Minimum, v: nat): (c': Context)
    requires |c.counts| == VALUES && v < VALUES
    ensures |c'.counts| == VALUES
  {
    if NeedsRescale(c, minimum, v) then Rescaled(Counted(c, minimum, v)) else Counted(c, minimum, v)
  }

  lemma CountedTotal(c: Context, minimum: Minimum, v: nat)
    requires |c.counts| == VALUES && v < VALUES
    ensures Sum(Counted(c, minimum, v).counts, 0, |c.counts|) == Sum(c.counts, 0, |c.counts|) + Delta(minimum)
    ensures Total(Counted(c, minimum, v), minimum)
         == Total(c, minimum) + Delta(minimum)
            + (if minimum == 0 && c.counts[v] == 0 then SUBCONTEXT_ESCAPE_DELTA else 0)
  {
    SumUpdate(c.counts, v, c.counts[v] + Delta(minimum), 0, |c.counts|);
  }

  /** The two tests and sums of an update, in the words of the code. */
  lemma AdaptingFacts(c: Context, minimum: Minimum, v: nat)
    requires ValidContext(c, minimum) && v < 0x100
    ensures |c.counts| == |Counted(c, minimum, v).counts| == VALUES
    ensures Counted(c, minimum, v).counts == c.counts[v := c.counts[v] + Delta(minimum)]
    ensures Counted(c, minimum, v).escapes
         == c.escapes + (if c.counts[v] + minimum <= 0 then SUBCONTEXT_ESCAPE_DELTA else 0)
    ensures Total(Counted(c, minimum, v), minimum)
         == Total(c, minimum) + (if c.counts[v] + minimum <= 0 then SUBCONTEXT_ESCAPE_DELTA else 0) + Delta(minimum)
    ensures Total(Counted(c, minimum, v), minimum) < 0x1_0000 == TWO_16 && SUBCONTEXT_ESCAPE_DELTA == 5
    ensures VALUES == 0x100
    ensures Counted(c, minimum, v).escapes <= Total(Counted(c, minimum, v), minimum)
    ensures Adapted(c, minimum, v) ==
      if || c.counts[v] + minimum > 0xFF - 2 * Delta(minimum) + minimum
         || Total(Counted(c, minimum, v), minimum) > LARGEST_TOTAL
      then Rescaled(Counted(c, minimum, v)) else Counted(c, minimum, v)
  {
    CountedTotal(c, minimum, v);
  }

  /** In the numbers of the format: a sighting counts 2, at the root 3, and 5 for an escape when it is
      the first; a context is halved when the count was above 251, at the root 249, or when its total
      comes to be above 65280. */
  lemma AdaptsExactly(c: Context, minimum: Minimum, v: nat)
    requires ValidContext(c, minimum) && v < 256
    ensures |c.counts| == 256
    ensures var (seen, escape) := (if minimum == 1 then 3 else 2, if minimum == 0 && c.counts[v] == 0 then 5 else 0);
      var halves := c.counts[v] > (if minimum == 1 then 249 else 251) || Total(c, minimum) + seen + escape > 65280;
      var after := Adapted(c, minimum, v);
      if !halves then after.escapes == c.escapes + escape && after.counts == c.counts[v := c.counts[v] + seen]
      else
        && |after.counts| == 256 && after.escapes == (c.escapes + escape + 1) / 2
        && forall w {:trigger after.counts[w]} :: 0 <= w < 256 ==>
             after.counts[w] == (c.counts[w] + (if w == v then seen else 0) + 1) / 2
  {
    CountedTotal(c, minimum, v);
  }

  /** Adaptation keeps counts in a byte, totals below the coder's bottom, and a context
      able to escape exactly when it has counted something. */
  lemma AdaptedValid(c: Context, minimum: Minimum, v: nat)
    requires ValidContext(c, minimum) && v < VALUES
    ensures ValidContext(Adapted(c, minimum, v), minimum)
    ensures 0 < Adapted(c, minimum, v).counts[v]
    ensures forall w :: 0 <= w < VALUES && w != v ==>
              (Adapted(c, minimum, v).counts[w] == 0 <==> c.counts[w] == 0)
  {
    if NeedsRescale(c, minimum, v) {
      RescaledValid(c, minimum, v);
    } else {
      CountedValid(c, minimum, v);
    }
    hide ValidContext, NeedsRescale;
  }

  lemma CountedValid(c: Context, minimum: Minimum, v: nat)
    requires ValidContext(c, minimum) && v < VALUES && !NeedsRescale(c, minimum, v)
    ensures ValidContext(Counted(c, minimum, v), minimum)
  {
    CountedTotal(c, minimum, v);
    var k := Counted(c, minimum, v);
    SumOfZeros(c.counts, 0, |c.counts|);
    SumOfZeros(k.counts, 0, |k.counts|);
    assert k.counts[v] > 0;
  }

  lemma RescaledValid(c: Context, minimum: Minimum, v: nat)
    requires ValidContext(c, minimum) && v < VALUES
    ensures ValidContext(Rescaled(Counted(c, minimum, v)), minimum)
  {
    CountedTotal(c, minimum, v);
    var k := Counted(c, minimum, v);
    SumHalved(k.counts, 0, |k.counts|);
    SumOfZeros(c.counts, 0, |c.counts|);
    SumOfZeros(k.counts, 0, |k.counts|);
    SumOfZeros(Rescaled(k).counts, 0, |k.counts|);
    assert k.counts[v] > 0 && Rescaled(k).counts[v] > 0;
  }

  // ----- inverse lookup -----

  /** The value whose share contains `code`. */
  function Locate(counts: seq<nat>, minimum: Minimum, code: nat): (v: nat)
    requires code < Under(counts, minimum, |counts|)
    ensures v < |counts|
    ensures Under(counts, minimum, v) <= code < Under(counts, minimum, v) + counts[v] + minimum
  {
    LocateFrom(counts, minimum, code, 0)
  }

  function LocateFrom(counts: seq<nat>, minimum: Minimum, code: nat, from: nat): (v: nat)
    requires from <= |counts|
    requires Under(counts, minimum, from) <= code < Under(counts, minimum, |counts|)
    ensures v < |counts|
    ensures Under(counts, minimum, v) <= code < Under(counts, minimum, v) + counts[v] + minimum
    decreases |counts| - from
  {
    assert from < |counts|;
    if code < Under(counts, minimum, from + 1) then from else LocateFrom(counts, minimum, code, from + 1)
  }

  /** Exactly one value's share contains a code: looking up any code inside the interval
      of `v` gives `v` back. */
  lemma LocateInverts(counts: seq<nat>, minimum: Minimum, v: nat, code: nat)
    requires v < |counts|
    requires Under(counts, minimum, v) <= code < Under(counts, minimum, v) + counts[v] + minimum
    ensures code < Under(counts, minimum, |counts|)
    ensures Locate(counts, minimum, code) == v
  {
    UnderMonotone(counts, minimum, v, |counts|);
    var w := Locate(counts, minimum, code);
    if w < v {
      UnderMonotone(counts, minimum, w, v);
    } else if v < w {
      UnderMonotone(counts, minimum, v, w);
    }
  }
}
