/** What always holds of a sending peer: which commands it still has, how its windows count
    them, and how much data is in transit. */
module InFlight {
  import opened Fragmentation
  import opened Words
  import opened Windows
  import opened Sending

  /** The history of one channel, for the proofs only: every packet ever queued, the number of
      the last command put on the wire, and the numbers acknowledged. */
  datatype Flow = Flow(log: seq<Content>, first: nat, acked: set<nat>)

  /** Command `n` was put on the wire and is not acknowledged. */
  ghost predicate Open(f: Flow, n: nat) { 1 <= n <= f.first && n !in f.acked }

  /** The open numbers that share a window counter. */
  ghost function OpenIn(f: Flow, w: nat): set<nat> {
    set n | 1 <= n <= f.first && n !in f.acked && Window(n) % WINDOWS == w
  }

  /** Gating: open commands span at most nine windows, and a window after the second was only
      begun when a command of the window before had been acknowledged. */
  ghost predicate FlowOk(f: Flow) {
    && f.first <= |f.log|
    && (forall n {:trigger n in f.acked} :: n in f.acked ==> 1 <= n <= f.first)
    && (forall n {:trigger Open(f, n)} :: Open(f, n) ==> Window(f.first) <= Window(n) + 8)
    && (Window(f.first) <= 1 || exists n :: n in f.acked && Window(n) + 1 >= Window(f.first))
  }

  /** Each counter counts the open commands of its window; a bit is set when it is not 0. */
  ghost predicate CountersOk(channel: Channel, f: Flow) {
    && channel.outgoingReliableSequenceNumber == Seq(|f.log|)
    && |channel.reliableWindows| == WINDOWS
    && (forall w {:trigger channel.reliableWindows[w]} :: 0 <= w < WINDOWS ==>
         channel.reliableWindows[w] == |OpenIn(f, w)|)
    && (forall w {:trigger w in channel.used} :: w in channel.used <==>
         0 <= w < WINDOWS && channel.reliableWindows[w] > 0)
  }

  // ----- counting -----

  predicate InSpan(from: nat, count: nat, n: nat) { from <= n < from + count }

  function Span(from: nat, count: nat): set<nat> {
    set n {:trigger InSpan(from, count, n)} | from <= n < from + count && InSpan(from, count, n)
  }

  lemma {:induction false} SpanSize(from: nat, count: nat)
    ensures |Span(from, count)| == count
    decreases count
  {
    if count == 0 {
      assert Span(from, 0) == {};
    } else {
      SpanSize(from, count - 1);
      assert Span(from, count) == Span(from, count - 1) + {from + count - 1};
    }
  }

  lemma {:induction false} SubsetSize(a: set<nat>, b: set<nat>)
    requires a <= b
    ensures |a| <= |b|
    decreases a
  {
    if a != {} {
      var x :| x in a;
      SubsetSize(a - {x}, b - {x});
    }
  }

  /** A window counter never exceeds 4096: nine windows cannot hold two that share a counter. */
  lemma CounterBounded(f: Flow, w: nat)
    requires FlowOk(f)
    ensures |OpenIn(f, w)| <= WINDOW_SIZE
  {
    var s := OpenIn(f, w);
    if s != {} {
      var m :| m in s;
      forall n | n in s ensures n in Span(Window(m) * WINDOW_SIZE, WINDOW_SIZE) {
        assert Open(f, n) && Open(f, m);
        InsideWindow(n, f.first);
        InsideWindow(m, f.first);
        SameResidue(Window(n), Window(m));
        SplitWindow(n);
      }
      SpanSize(Window(m) * WINDOW_SIZE, WINDOW_SIZE);
      SubsetSize(s, Span(Window(m) * WINDOW_SIZE, WINDOW_SIZE));
    }
  }

  lemma InsideWindow(n: nat, first: nat)
    requires n <= first
    ensures Window(n) <= Window(first)
  {
  }

  /** A window of which nothing is acknowledged fills its counter. */
  lemma FullWindow(f: Flow, w: nat)
    requires 1 <= w && f.first == w * WINDOW_SIZE + WINDOW_SIZE - 1
    requires forall n :: n in f.acked ==> Window(n) != w
    ensures |OpenIn(f, w % WINDOWS)| >= WINDOW_SIZE
  {
    forall n | n in Span(w * WINDOW_SIZE, WINDOW_SIZE) ensures n in OpenIn(f, w % WINDOWS) {
      assert Window(n) == w;
    }
    SpanSize(w * WINDOW_SIZE, WINDOW_SIZE);
    SubsetSize(Span(w * WINDOW_SIZE, WINDOW_SIZE), OpenIn(f, w % WINDOWS));
  }

  // ----- one channel's steps -----

  /** The next command goes out for the first time: the gate keeps the flow well. */
  lemma FirstSent(channel: Channel, f: Flow, c: Command)
    requires FlowOk(f) && CountersOk(channel, f) && f.first < |f.log|
    requires c.number == f.first + 1 && c.sequence == Seq(c.number) && c.sendAttempts < 1
    requires !Blocked(channel, c)
    ensures FlowOk(f.(first := f.first + 1))
    ensures CountersOk(Marked(channel, c.sequence / WINDOW_SIZE), f.(first := f.first + 1))
  {
    var f1 := f.(first := f.first + 1);
    WindowOfSeq(c.number);
    SplitWindow(f.first);
    SplitWindow(f1.first);
    hide Blocked, CountersOk;
    if f1.first % WINDOW_SIZE == 0 {
      assert Window(f1.first) == Window(f.first) + 1;
      GateOpen(channel, f, c);
    } else {
      assert Window(f1.first) == Window(f.first);
    }
    forall n {:trigger Open(f1, n)} | Open(f1, n) ensures Window(f1.first) <= Window(n) + 8 {
      if n != f1.first { assert Open(f, n); }
    }
    OneMoreOpen(channel, f, c);
  }

  /** At a window's start the gate has seen an acknowledgement in the window before, and
      nothing open nine windows back. */
  lemma GateOpen(channel: Channel, f: Flow, c: Command)
    requires FlowOk(f) && CountersOk(channel, f) && !Blocked(channel, c)
    requires c.number == f.first + 1 && c.sequence == Seq(c.number) && c.sendAttempts < 1
    requires c.number % WINDOW_SIZE == 0
    ensures Window(c.number) >= 2 ==> exists n :: n in f.acked && Window(n) + 1 == Window(c.number)
    ensures forall n {:trigger Open(f, n)} :: Open(f, n) ==> Window(c.number) <= Window(n) + 8
  {
    var w := Window(c.number);
    WindowOfSeq(c.number);
    SplitWindow(c.number);
    SplitWindow(f.first);
    var k := c.sequence / WINDOW_SIZE;
    assert k == w % WINDOWS && w >= 1;
    WindowBefore(w);
    assert channel.reliableWindows[(w - 1) % WINDOWS] < WINDOW_SIZE;
    if w >= 2 && forall n :: n in f.acked ==> Window(n) + 1 != w {
      FullWindow(f, w - 1);
      assert false;
    }
    assert channel.used * Mask(k) == {};
    forall n {:trigger Open(f, n)} | Open(f, n) ensures w <= Window(n) + 8 {
      assert n in OpenIn(f, Window(n) % WINDOWS);
      assert Window(n) % WINDOWS in channel.used;
      NotInBoth(channel.used, Mask(k), Window(n) % WINDOWS);
      NineBack(Window(n), w);
    }
  }

  /** The gate is open when the last command sent is acknowledged, and nothing is open more than
      8 windows back. */
  lemma GateFree(channel: Channel, f: Flow, c: Command)
    requires FlowOk(f) && CountersOk(channel, f)
    requires c.number == f.first + 1 && c.sequence == Seq(c.number)
    requires c.number % WINDOW_SIZE == 0 ==> f.first in f.acked
    requires forall n {:trigger Open(f, n)} :: Open(f, n) ==> Window(c.number) <= Window(n) + 8
    ensures |channel.reliableWindows| == WINDOWS && !Blocked(channel, c)
  {
    WindowOfSeq(c.number);
    if c.number % WINDOW_SIZE == 0 {
      var w := Window(c.number);
      SplitWindow(c.number);
      SplitWindow(f.first);
      WindowBefore(w);
      NotFull(f, w - 1);
      var k := c.sequence / WINDOW_SIZE;
      forall x | x in channel.used && x in Mask(k) ensures false {
        assert |OpenIn(f, x)| > 0;
        var n :| n in OpenIn(f, x);
        assert Open(f, n);
        InsideWindow(n, f.first);
        EightBack(Window(n), w);
      }
      assert channel.used * Mask(k) == {};
    }
  }

  /** A window of which the last command is acknowledged does not fill its counter. */
  lemma NotFull(f: Flow, w: nat)
    requires f.first % WINDOW_SIZE == WINDOW_SIZE - 1 && w == Window(f.first) && f.first in f.acked
    requires forall n {:trigger Open(f, n)} :: Open(f, n) ==> w + 1 <= Window(n) + 8
    ensures |OpenIn(f, w % WINDOWS)| < WINDOW_SIZE
  {
    SplitWindow(f.first);
    forall n | n in OpenIn(f, w % WINDOWS) ensures n in Span(w * WINDOW_SIZE, WINDOW_SIZE - 1) {
      assert Open(f, n);
      InsideWindow(n, f.first);
      SplitWindow(n);
      assert Window(n) == w;
    }
    SpanSize(w * WINDOW_SIZE, WINDOW_SIZE - 1);
    SubsetSize(OpenIn(f, w % WINDOWS), Span(w * WINDOW_SIZE, WINDOW_SIZE - 1));
  }

  lemma EightBack(a: nat, w: nat)
    requires a < w <= a + 8
    ensures a % WINDOWS !in Mask(w % WINDOWS)
  {
  }

  lemma NotInBoth(a: set<nat>, b: set<nat>, x: nat)
    requires a * b == {} && x in a
    ensures x !in b
  {
    assert x in b ==> x in a * b;
  }

  lemma WindowBefore(w: nat)
    requires w >= 1
    ensures (w % WINDOWS + WINDOWS - 1) % WINDOWS == (w - 1) % WINDOWS
  {
  }

  lemma NineBack(a: nat, w: nat)
    ensures a + 9 == w ==> a % WINDOWS in Mask(w % WINDOWS)
  {
  }

  lemma OneMoreOpen(channel: Channel, f: Flow, c: Command)
    requires FlowOk(f) && CountersOk(channel, f) && f.first < |f.log|
    requires c.number == f.first + 1 && c.sequence / WINDOW_SIZE == Window(c.number) % WINDOWS
    ensures CountersOk(Marked(channel, c.sequence / WINDOW_SIZE), f.(first := f.first + 1))
  {
    var f1, k := f.(first := f.first + 1), c.sequence / WINDOW_SIZE;
    assert f1.first !in f.acked;
    var m := Marked(channel, k);
    forall w | 0 <= w < WINDOWS ensures m.reliableWindows[w] == |OpenIn(f1, w)| {
      if w == k {
        assert OpenIn(f1, w) == OpenIn(f, w) + {f1.first};
      } else {
        assert OpenIn(f1, w) == OpenIn(f, w);
      }
    }
  }

  /** An open command is acknowledged. */
  lemma OneAcked(channel: Channel, f: Flow, n: nat, sequence: uint16)
    requires FlowOk(f) && CountersOk(channel, f) && Open(f, n) && sequence == Seq(n)
    ensures FlowOk(f.(acked := f.acked + {n}))
    ensures CountersOk(Released(channel, sequence / WINDOW_SIZE), f.(acked := f.acked + {n}))
  {
    var f1 := f.(acked := f.acked + {n});
    WindowOfSeq(n);
    var k := sequence / WINDOW_SIZE;
    assert n in OpenIn(f, k);
    forall i {:trigger Open(f1, i)} | Open(f1, i) ensures Window(f1.first) <= Window(i) + 8 {
      assert Open(f, i);
    }
    if Window(f.first) > 1 {
      var i :| i in f.acked && Window(i) + 1 >= Window(f.first);
      assert i in f1.acked;
    }
    var m := Released(channel, k);
    forall w | 0 <= w < WINDOWS ensures m.reliableWindows[w] == |OpenIn(f1, w)| {
      if w == k {
        assert OpenIn(f1, w) == OpenIn(f, w) - {n};
      } else {
        assert OpenIn(f1, w) == OpenIn(f, w);
      }
    }
  }

  /** Queueing a command changes nothing that is open. */
  lemma OneQueued(channel: Channel, f: Flow, content: Content)
    requires FlowOk(f) && CountersOk(channel, f)
    ensures var f1 := f.(log := f.log + [content]);
      && FlowOk(f1)
      && CountersOk(channel.(outgoingReliableSequenceNumber := (channel.outgoingReliableSequenceNumber + 1) % 0x1_0000),
                    f1)
  {
    var f1 := f.(log := f.log + [content]);
    forall i {:trigger Open(f1, i)} | Open(f1, i) ensures Window(f1.first) <= Window(i) + 8 {
      assert Open(f, i);
    }
    if Window(f.first) > 1 {
      var i :| i in f.acked && Window(i) + 1 >= Window(f.first);
      assert i in f1.acked;
    }
    forall w | 0 <= w < WINDOWS ensures OpenIn(f1, w) == OpenIn(f, w) {
    }
  }
}
