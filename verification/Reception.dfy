/** The receiving queue against a simple receiver that knows whole numbers: it has delivered
    the commands 1..r and holds a set of later packets, complete or not. */
module Reception {
  import opened Words
  import opened Windows
  import opened Receiving
  import opened Reassembly
  import opened Fragmentation

  /** Packets by the number of their first command. */
  type Held = map<nat, Incoming>

  /** The number of a queued command, for a receiver that has delivered 1..r. */
  function NumberOf(sequence: uint16, r: nat): nat { r + Ahead(sequence, Seq(r)) }

  lemma NumberOfSeq(n: nat, r: nat)
    requires r <= n < r + 0x1_0000
    ensures NumberOf(Seq(n), r) == n
  {
    var qn, qr := n / 0x1_0000, r / 0x1_0000;
    assert n == qn * 0x1_0000 + Seq(n) && r == qr * 0x1_0000 + Seq(r);
    assert qr <= qn <= qr + 1;
    AheadIs(Seq(n), Seq(r));
  }

  ghost predicate HasNumber(queue: seq<Incoming>, r: nat, n: nat) {
    exists i {:trigger queue[i]} :: 0 <= i < |queue| && NumberOf(queue[i].sequence, r) == n
  }

  /** The queue is the sorted list of what is held; everything held is new and within the
      seven windows from the receiver's own. */
  ghost predicate Represents(c: Inlet, r: nat, held: Held) {
    var queue := c.incomingReliableCommands;
    && c.incomingReliableSequenceNumber == Seq(r)
    && Sorted(queue, Seq(r))
    && (forall i {:trigger queue[i]} :: 0 <= i < |queue| ==>
          var n := NumberOf(queue[i].sequence, r);
          n in held && held[n] == queue[i] && queue[i].sequence == Seq(n))
    && (forall n {:trigger HasNumber(queue, r, n)} :: n in held ==> HasNumber(queue, r, n))
    && (forall n {:trigger n in held} :: n in held ==> r < n && Window(n) <= Window(r) + 6)
  }

  // ----- the simple receiver -----

  /** A new command within the seven windows is added. */
  predicate Takes(r: nat, held: Held, n: nat) {
    r < n && Window(n) <= Window(r) + 6 && n !in held
  }

  /** Packets take their numbers for themselves. */
  ghost predicate Spaced(held: Held) {
    forall n, m {:trigger held[n], held[m]} :: n in held && m in held && n < m ==> n + Width(held[n]) <= m
  }

  /** The next packet is there, with all its fragments. */
  predicate IsDue(r: nat, held: Held) { r + 1 in held && Complete(held[r + 1]) }

  /** The last number that can be delivered. */
  function Cursor(r: nat, held: Held): (r1: nat)
    ensures r <= r1
    decreases |held|
  {
    if IsDue(r, held) then (Fewer(held, r + 1); Cursor(r + Width(held[r + 1]), held - {r + 1})) else r
  }

  lemma Fewer(held: Held, n: nat)
    requires n in held
    ensures |held - {n}| < |held|
  {
    assert (held - {n}).Keys == held.Keys - {n};
  }

  function Left(r: nat, held: Held): Held
    decreases |held|
  {
    if IsDue(r, held) then (Fewer(held, r + 1); Left(r + Width(held[r + 1]), held - {r + 1})) else held
  }

  function Delivered(r: nat, held: Held): seq<seq<uint8>>
    decreases |held|
  {
    if IsDue(r, held) then (
      Fewer(held, r + 1);
      [PacketOf(held[r + 1])] + Delivered(r + Width(held[r + 1]), held - {r + 1}))
    else []
  }

  // ----- dispatch -----

  lemma NearNumber(n: nat, r: nat)
    requires r < n && Window(n) <= Window(r) + 6
    ensures n < r + 0x1_0000
  {
    SplitWindow(n);
    SplitWindow(r);
  }

  /** A near number is as near, or nearer, from any number before it. */
  lemma NumberNext(n: nat, r: nat, r1: nat)
    requires r <= r1 < n && Window(n) <= Window(r) + 6
    ensures NumberOf(Seq(n), r) == n && NumberOf(Seq(n), r1) == n
    ensures Ahead(Seq(n), Seq(r)) == n - r && Ahead(Seq(n), Seq(r1)) == n - r1
    ensures Window(n) <= Window(r1) + 6
  {
    NearNumber(n, r);
    NumberOfSeq(n, r);
    NumberOfSeq(n, r1);
    SplitWindow(r1);
    SplitWindow(r);
  }

  /** The first packet of the queue is the one due exactly when it is held. */
  lemma FirstIsNext(c: Inlet, r: nat, held: Held)
    requires Represents(c, r, held)
    ensures IsDue(r, held) <==> !Quiet(c)
    ensures IsDue(r, held) ==>
      c.incomingReliableCommands != [] && c.incomingReliableCommands[0] == held[r + 1]
      && held[r + 1].sequence == Seq(r + 1)
  {
    var queue := c.incomingReliableCommands;
    SeqNext(r);
    hide Complete, Ahead;
    if r + 1 in held {
      assert HasNumber(queue, r, r + 1);
      var i :| 0 <= i < |queue| && NumberOf(queue[i].sequence, r) == r + 1;
      assert queue[i].sequence == Seq(r + 1);
      FirstOnly(c, r, held, i);
    } else if queue != [] {
      var n := NumberOf(queue[0].sequence, r);
      assert n in held && queue[0].sequence == Seq(n);
      NumberNext(n, r, r);
      assert n != r + 1;
      if queue[0].sequence == Seq(r + 1) {
        NumberNext(r + 1, r, r);
        assert false;
      }
    }
  }

  /** The next number is first in the queue, for nothing is nearer. */
  lemma FirstOnly(c: Inlet, r: nat, held: Held, i: nat)
    requires Represents(c, r, held) && i < |c.incomingReliableCommands|
    requires NumberOf(c.incomingReliableCommands[i].sequence, r) == r + 1
    ensures i == 0
  {
    var queue := c.incomingReliableCommands;
    hide Ahead, Seq;
    var _ := queue[0];
  }

  lemma SeqNext(r: nat)
    ensures Seq(r + 1) == (Seq(r) + 1) % 0x1_0000
  {
  }

  lemma BehindIs(e: Incoming, r: nat)
    requires e.sequence == Seq(r + 1)
    ensures Behind(e) == Seq(r + Width(e)) && Width(e) >= 1
  {
  }

  /** After the first packet is dispatched, the rest of the queue is the rest of what is held. */
  lemma FirstGone(c: Inlet, r: nat, held: Held)
    requires Represents(c, r, held) && IsDue(r, held) && Spaced(held)
    ensures var (e, queue) := (held[r + 1], c.incomingReliableCommands);
      && queue != [] && queue[0] == e
      && Represents(Inlet(Behind(e), queue[1..]), r + Width(e), held - {r + 1})
  {
    hide *;
    FirstHeld(c, r, held);
    var e := held[r + 1];
    BehindIs(e, r);
    RestSorted(c, r, held);
    RestNumbers(c, r, held);
    RestHeld(c, r, held);
    MakeRepresents(Inlet(Behind(e), Rest(c)), r + Width(e), held - {r + 1});
    RestIs(c);
  }

  lemma RestIs(c: Inlet)
    requires c.incomingReliableCommands != []
    ensures Rest(c) == c.incomingReliableCommands[1..]
  {
  }

  lemma MakeRepresents(c: Inlet, r: nat, held: Held)
    requires c.incomingReliableSequenceNumber == Seq(r) && Sorted(c.incomingReliableCommands, Seq(r))
    requires var queue := c.incomingReliableCommands;
      forall i {:trigger queue[i]} :: 0 <= i < |queue| ==>
        var n := NumberOf(queue[i].sequence, r); n in held && held[n] == queue[i] && queue[i].sequence == Seq(n)
    requires forall n {:trigger n in held} :: n in held ==>
      HasNumber(c.incomingReliableCommands, r, n) && r < n && Window(n) <= Window(r) + 6
    ensures Represents(c, r, held)
  {
    hide Sorted, NumberOf, HasNumber, Seq;
  }

  /** What is left when the first packet has gone. */
  function Rest(c: Inlet): seq<Incoming>
    requires c.incomingReliableCommands != []
  {
    c.incomingReliableCommands[1..]
  }

  lemma QueueSorted(c: Inlet, r: nat, held: Held)
    requires Represents(c, r, held)
    ensures Sorted(c.incomingReliableCommands, Seq(r))
  {
    hide Sorted, NumberOf, HasNumber;
  }

  lemma RestSorted(c: Inlet, r: nat, held: Held)
    requires Represents(c, r, held) && IsDue(r, held) && Spaced(held)
    requires c.incomingReliableCommands != [] && c.incomingReliableCommands[0].sequence == Seq(r + 1)
    ensures Sorted(Rest(c), Seq(r + Width(held[r + 1])))
  {
    var queue, rest, w := c.incomingReliableCommands, Rest(c), Width(held[r + 1]);
    QueueSorted(c, r, held);
    hide Ahead, Complete, Width, NumberOf, Represents, Spaced, IsDue, Seq, Window;
    forall i {:trigger rest[i]} | 0 <= i < |rest|
      ensures Ahead(rest[i].sequence, Seq(r + w)) == Ahead(queue[i + 1].sequence, Seq(r)) - w > 0
    {
      RestFits(c, r, held, i + 1);
    }
  }

  lemma FirstHeld(c: Inlet, r: nat, held: Held)
    requires Represents(c, r, held) && IsDue(r, held)
    ensures r + 1 in held && c.incomingReliableCommands != [] && c.incomingReliableCommands[0] == held[r + 1]
    ensures held[r + 1].sequence == Seq(r + 1)
  {
    FirstIsNext(c, r, held);
  }

  lemma NumberAt(queue: seq<Incoming>, r: nat, n: nat, i: nat)
    requires i < |queue| && NumberOf(queue[i].sequence, r) == n
    ensures HasNumber(queue, r, n)
  {
    hide NumberOf;
  }

  lemma QueuedAt(c: Inlet, r: nat, held: Held, n: nat) returns (i: nat)
    requires Represents(c, r, held) && n in held
    ensures i < |c.incomingReliableCommands| && NumberOf(c.incomingReliableCommands[i].sequence, r) == n
  {
    var queue := c.incomingReliableCommands;
    hide NumberOf, Sorted;
    assert HasNumber(queue, r, n);
    i :| 0 <= i < |queue| && NumberOf(queue[i].sequence, r) == n;
  }

  lemma RestNumbers(c: Inlet, r: nat, held: Held)
    requires Represents(c, r, held) && IsDue(r, held) && Spaced(held)
    requires c.incomingReliableCommands != [] && c.incomingReliableCommands[0].sequence == Seq(r + 1)
    ensures var rest, held1 := Rest(c), held - {r + 1};
      forall i {:trigger rest[i]} :: 0 <= i < |rest| ==>
        var n := NumberOf(rest[i].sequence, r + Width(held[r + 1]));
        n in held1 && held1[n] == rest[i] && rest[i].sequence == Seq(n)
  {
    hide Ahead, Complete, Width, NumberOf, Represents, Spaced, IsDue, Seq, Sorted;
    var rest, held1, w := Rest(c), held - {r + 1}, Width(c.incomingReliableCommands[0]);
    FirstHeld(c, r, held);
    forall i {:trigger rest[i]} | 0 <= i < |rest|
      ensures var n := NumberOf(rest[i].sequence, r + w);
        n in held1 && held1[n] == rest[i] && rest[i].sequence == Seq(n)
    {
      RestFits(c, r, held, i + 1);
    }
  }

  lemma RestHeld(c: Inlet, r: nat, held: Held)
    requires Represents(c, r, held) && IsDue(r, held) && Spaced(held)
    requires c.incomingReliableCommands != [] && c.incomingReliableCommands[0].sequence == Seq(r + 1)
    ensures var r1 := r + Width(held[r + 1]);
      forall n {:trigger n in held} :: n in held && n != r + 1 ==>
        HasNumber(Rest(c), r1, n) && r1 < n && Window(n) <= Window(r1) + 6
  {
    hide *;
    FirstHeld(c, r, held);
    var queue, r1 := c.incomingReliableCommands, r + Width(held[r + 1]);
    NumberOfSeq(r + 1, r);
    RestIs(c);
    forall n {:trigger n in held} | n in held && n != r + 1
      ensures HasNumber(Rest(c), r1, n) && r1 < n && Window(n) <= Window(r1) + 6
    {
      var i := QueuedAt(c, r, held, n);
      assert i != 0;
      RestFits(c, r, held, i);
      NumberAt(Rest(c), r1, n, i - 1);
    }
  }

  /** A packet behind the first one, seen from there. */
  lemma RestFits(c: Inlet, r: nat, held: Held, i: nat)
    requires Represents(c, r, held) && IsDue(r, held) && Spaced(held) && 0 < i < |c.incomingReliableCommands|
    requires c.incomingReliableCommands[0].sequence == Seq(r + 1)
    ensures var (s, w) := (c.incomingReliableCommands[i].sequence, Width(held[r + 1]));
      var n := NumberOf(s, r);
      && n in held && n != r + 1 && held[n] == c.incomingReliableCommands[i] && s == Seq(n)
      && NumberOf(s, r + w) == n && r + w < n && Window(n) <= Window(r + w) + 6
      && Ahead(s, Seq(r + w)) == Ahead(s, Seq(r)) - w > 0
  {
    hide Ahead, Complete, Width, HasNumber, NumberOf;
    var queue := c.incomingReliableCommands;
    var n := NumberOf(queue[i].sequence, r);
    assert n in held && held[n] == queue[i];
    NumberNext(n, r, r);
    NumberNext(r + 1, r, r);
    assert Ahead(queue[0].sequence, Seq(r)) < Ahead(queue[i].sequence, Seq(r));
    assert held[r + 1] == held[r + 1] && r + 1 < n;
    NumberNext(n, r, r + Width(held[r + 1]));
  }

  lemma SpacedLess(held: Held, n: nat)
    requires Spaced(held)
    ensures Spaced(held - {n})
  {
  }

  /** Dispatching releases exactly the longest run of complete packets that follows `r`. */
  lemma {:induction false} DispatchRefines(c: Inlet, r: nat, held: Held)
    requires Represents(c, r, held) && Spaced(held)
    ensures Represents(Dispatched(c), Cursor(r, held), Left(r, held))
    ensures DispatchedData(c) == Delivered(r, held)
    decreases |held|
  {
    hide Represents, Dispatched, DispatchedData, Quiet, Spaced, Width, Behind, PacketOf, Complete;
    FirstIsNext(c, r, held);
    DispatchedQuiet(c);
    if IsDue(r, held) {
      Fewer(held, r + 1);
      FirstGone(c, r, held);
      var c1 := Inlet(Behind(held[r + 1]), c.incomingReliableCommands[1..]);
      SpacedLess(held, r + 1);
      DispatchRefines(c1, r + Width(held[r + 1]), held - {r + 1});
      RunFirst(c, c1);
    }
  }

  // ----- arrivals -----

  /** The walk from the back finds a duplicate, or the place that keeps the queue in order. */
  lemma {:induction false} PlaceFits(queue: seq<Incoming>, incoming: uint16, sequence: uint16)
    requires Sorted(queue, incoming)
    ensures var at := Place(queue, incoming, sequence);
      if at < 0 then exists i :: 0 <= i < |queue| && queue[i].sequence == sequence
      else
        && (forall i {:trigger queue[i]} :: 0 <= i < at ==>
             Ahead(queue[i].sequence, incoming) < Ahead(sequence, incoming))
        && (forall i {:trigger queue[i]} :: at <= i < |queue| ==>
             Ahead(queue[i].sequence, incoming) > Ahead(sequence, incoming))
    decreases |queue|
  {
    if queue != [] {
      var k := |queue| - 1;
      var last := queue[k].sequence;
      if Ahead(last, incoming) > Ahead(sequence, incoming) {
        PlaceFits(queue[..k], incoming, sequence);
      } else if last != sequence {
        AheadIs(last, incoming);
        AheadIs(sequence, incoming);
      }
    }
    hide Ahead;
  }

  lemma InsertedSorted(c: Inlet, incoming: uint16, e: Incoming)
    requires Sorted(c.incomingReliableCommands, incoming) && 0 < Ahead(e.sequence, incoming)
    requires Place(c.incomingReliableCommands, incoming, e.sequence) >= 0
    ensures var at := Place(c.incomingReliableCommands, incoming, e.sequence);
      Sorted(Inserted(c, at, e).incomingReliableCommands, incoming)
  {
    var queue := c.incomingReliableCommands;
    PlaceFits(queue, incoming, e.sequence);
    hide Ahead, Place;
    var at := Place(queue, incoming, e.sequence);
    var more := queue[..at] + [e] + queue[at..];
    assert forall i {:trigger more[i]} :: 0 <= i < |more| ==>
      more[i] == if i < at then queue[i] else if i == at then e else queue[i - 1];
  }

  /** The 16-bit receiver does with an arrival what the simple one does: it stores exactly the
      packets that are new and near, and drops the rest. */
  lemma ArrivalRefines(c: Inlet, r: nat, held: Held, n: nat, e: Incoming, full: bool)
    requires Represents(c, r, held) && e.sequence == Seq(n)
    requires Window(r) <= Window(n) + 8 && Window(n) <= Window(r) + 7
    ensures var a := Arrives(c, e, full);
      if !Takes(r, held, n) then a == Dropped
      else if full then a == Arrival.Refused
      else a.Stored? && Represents(a.channel, r, held[n := e])
  {
    hide Ahead, Place, Sorted;
    var queue := c.incomingReliableCommands;
    TestsExact(n, r);
    PlaceFits(queue, Seq(r), Seq(n));
    if r < n && Window(n) <= Window(r) + 6 {
      NumberNext(n, r, r);
      DuplicateHeld(c, r, held, n);
      if n !in held && !full {
        InsertedSorted(c, Seq(r), e);
        StoredRepresents(c, r, held, n, e, Place(queue, Seq(r), Seq(n)));
      }
    }
  }

  lemma DuplicateHeld(c: Inlet, r: nat, held: Held, n: nat)
    requires Represents(c, r, held) && r < n && Window(n) <= Window(r) + 6
    ensures Place(c.incomingReliableCommands, Seq(r), Seq(n)) < 0 <==> n in held
  {
    var queue := c.incomingReliableCommands;
    hide Ahead, Place;
    PlaceFits(queue, Seq(r), Seq(n));
    NumberNext(n, r, r);
    if n in held {
      assert HasNumber(queue, r, n);
      var i :| 0 <= i < |queue| && NumberOf(queue[i].sequence, r) == n;
      assert queue[i].sequence == Seq(n);
    }
  }

  lemma StoredRepresents(c: Inlet, r: nat, held: Held, n: nat, e: Incoming, at: nat)
    requires Represents(c, r, held) && Takes(r, held, n) && at <= |c.incomingReliableCommands|
    requires NumberOf(Seq(n), r) == n && e.sequence == Seq(n)
    requires Sorted(Inserted(c, at, e).incomingReliableCommands, Seq(r))
    ensures Represents(Inserted(c, at, e), r, held[n := e])
  {
    hide Ahead, Sorted, NumberOf;
    var queue := c.incomingReliableCommands;
    var more := queue[..at] + [e] + queue[at..];
    assert forall i {:trigger more[i]} :: 0 <= i < |more| ==>
      more[i] == if i < at then queue[i] else if i == at then e else queue[i - 1];
    forall k | k in held[n := e] ensures HasNumber(more, r, k) {
      if k == n {
        assert NumberOf(more[at].sequence, r) == n;
      } else {
        assert HasNumber(queue, r, k);
        var i :| 0 <= i < |queue| && NumberOf(queue[i].sequence, r) == k;
        assert more[if i < at then i else i + 1] == queue[i];
      }
    }
  }

  /** The walk finds the packet that a fragment belongs to, exactly when it is held. */
  lemma FoundHeld(c: Inlet, r: nat, held: Held, n: nat)
    requires Represents(c, r, held) && r < n && Window(n) <= Window(r) + 6
    ensures var at := Find(c.incomingReliableCommands, Seq(r), Seq(n));
      if at < 0 then n !in held else n in held && c.incomingReliableCommands[at] == held[n]
  {
    DuplicateHeld(c, r, held, n);
    NumberNext(n, r, r);
    hide Ahead, Place, Find, Sorted;
  }

  /** A packet that is held takes a fragment in. */
  lemma JoinedRepresents(c: Inlet, r: nat, held: Held, n: nat, at: nat, f: Fragment)
    requires Represents(c, r, held) && n in held && at < |c.incomingReliableCommands|
    requires c.incomingReliableCommands[at] == held[n] && held[n].sequence == Seq(n) && held[n].Fragmented?
    requires var a := held[n].assembly; f.fragmentNumber < |a.bits| && f.fragmentOffset + |f.data| <= |a.data|
    ensures Represents(WithFragment(c, at, f), r, held[n := held[n].(assembly := Added(held[n].assembly, f))])
  {
    NumberNext(n, r, r);
    hide Ahead, Added;
    var e := held[n].(assembly := Added(held[n].assembly, f));
    var queue := c.incomingReliableCommands;
    var queue1 := queue[at := e];
    assert forall i {:trigger queue1[i]} :: 0 <= i < |queue| ==> queue1[i].sequence == queue[i].sequence;
    forall k | k in held[n := e] ensures HasNumber(queue1, r, k) {
      assert HasNumber(queue, r, k);
      var i :| 0 <= i < |queue| && NumberOf(queue[i].sequence, r) == k;
      assert NumberOf(queue1[i].sequence, r) == k;
    }
    forall i | 0 <= i < |queue1|
      ensures var m := NumberOf(queue1[i].sequence, r);
        m in held[n := e] && held[n := e][m] == queue1[i] && queue1[i].sequence == Seq(m)
    {
      var m := NumberOf(queue[i].sequence, r);
      assert m in held && held[m] == queue[i];
      if m == n {
        assert i == at by {
          assert Ahead(queue[i].sequence, Seq(r)) == Ahead(queue[at].sequence, Seq(r));
        }
      } else {
        assert i != at;
      }
    }
  }

  /** Where a fragment's packet begins decides whether it is taken: not when that is behind the
      receiver, as long as it is at most nine windows behind. */
  lemma StartTest(start: nat, r: nat)
    requires if r < start then Window(start) <= Window(r) + 7 else start != r && Window(r) <= Window(start) + 9
    ensures Accepts(Seq(start), Seq(r)) <==> r < start && Window(start) <= Window(r) + 6
    ensures Seq(start) != Seq(r)
  {
    if r < start {
      SplitWindow(r);
      SplitWindow(start);
      TestsExact(start, r);
    } else {
      LateExact(start, r);
    }
  }

  /** The same for a fragment: it joins its packet, or begins it, exactly when that is new and near. */
  lemma FragmentRefines(c: Inlet, r: nat, held: Held, n: nat, f: Fragment, maximumPacketSize: nat, full: bool,
                        space: seq<uint8>)
    requires Represents(c, r, held) && f.startSequenceNumber == Seq(n) && |space| == f.totalLength
    requires if r < n then Window(n) <= Window(r) + 7 else n != r && Window(r) <= Window(n) + 9
    ensures var a := FragmentArrives(c, f, maximumPacketSize, full, space);
      if !(r < n && Window(n) <= Window(r) + 6) then a == Dropped
      else if Malformed(f, maximumPacketSize) then a == Arrival.Refused
      else if n in held && !Matching(held[n], f) then a == Arrival.Refused
      else if n !in held && full then a == Arrival.Refused
      else
        var e := if n in held then held[n] else Begun(f, space);
        && a.Stored? && Matching(e, f)
        && Represents(a.channel, r, held[n := e.(assembly := Added(e.assembly, f))])
  {
    hide *;
    IncomingIs(c, r, held);
    StartTest(n, r);
    if r < n && Window(n) <= Window(r) + 6 && !Malformed(f, maximumPacketSize) {
      FoundHeld(c, r, held, n);
      if n in held {
        FoundCase(c, f, maximumPacketSize, full, space);
        if Matching(held[n], f) {
          FragmentFits(held[n], f, maximumPacketSize);
          SequenceIs(c, r, held, n);
          JoinedRepresents(c, r, held, n, Find(c.incomingReliableCommands, Seq(r), Seq(n)), f);
        }
      } else {
        BeginRefines(c, r, held, n, f, maximumPacketSize, full, space);
      }
    } else {
      NotTaken(c, f, maximumPacketSize, full, space);
    }
  }

  lemma IncomingIs(c: Inlet, r: nat, held: Held)
    requires Represents(c, r, held)
    ensures c.incomingReliableSequenceNumber == Seq(r)
  {
  }

  lemma SequenceIs(c: Inlet, r: nat, held: Held, n: nat)
    requires Represents(c, r, held) && n in held
    ensures held[n].sequence == Seq(n) && r < n
  {
    assert HasNumber(c.incomingReliableCommands, r, n);
    hide NumberOf, Sorted;
  }

  lemma FragmentFits(e: Incoming, f: Fragment, maximumPacketSize: nat)
    requires Matching(e, f) && !Malformed(f, maximumPacketSize)
    ensures e.Fragmented? && f.fragmentNumber < |e.assembly.bits|
    ensures f.fragmentOffset + |f.data| <= |e.assembly.data|
  {
  }

  lemma NotTaken(c: Inlet, f: Fragment, maximumPacketSize: nat, full: bool, space: seq<uint8>)
    requires |space| == f.totalLength
    requires !Accepts(f.startSequenceNumber, c.incomingReliableSequenceNumber) || Malformed(f, maximumPacketSize)
    ensures FragmentArrives(c, f, maximumPacketSize, full, space)
         == if !Accepts(f.startSequenceNumber, c.incomingReliableSequenceNumber) then Dropped else Arrival.Refused
  {
  }

  lemma FoundCase(c: Inlet, f: Fragment, maximumPacketSize: nat, full: bool, space: seq<uint8>)
    requires |space| == f.totalLength && !Malformed(f, maximumPacketSize)
    requires Accepts(f.startSequenceNumber, c.incomingReliableSequenceNumber)
    requires Find(c.incomingReliableCommands, c.incomingReliableSequenceNumber, f.startSequenceNumber) >= 0
    ensures var at := Find(c.incomingReliableCommands, c.incomingReliableSequenceNumber, f.startSequenceNumber);
      var e := c.incomingReliableCommands[at];
      FragmentArrives(c, f, maximumPacketSize, full, space)
      == if Matching(e, f) then Stored(WithFragment(c, at, f)) else Arrival.Refused
  {
  }

  /** The first fragment to come of a packet. */
  lemma BeginRefines(c: Inlet, r: nat, held: Held, n: nat, f: Fragment, maximumPacketSize: nat, full: bool,
                     space: seq<uint8>)
    requires Represents(c, r, held) && f.startSequenceNumber == Seq(n) && |space| == f.totalLength && n !in held
    requires r < n && Window(n) <= Window(r) + 6 && !Malformed(f, maximumPacketSize)
    ensures var a := FragmentArrives(c, f, maximumPacketSize, full, space);
      if full then a == Arrival.Refused
      else
        var e := Begun(f, space);
        && a.Stored? && Matching(e, f)
        && Represents(a.channel, r, held[n := e.(assembly := Added(e.assembly, f))])
  {
    var queue, e := c.incomingReliableCommands, Begun(f, space);
    IncomingIs(c, r, held);
    StartTest(n, r);
    FoundHeld(c, r, held, n);
    SplitWindow(n);
    SplitWindow(r);
    ArrivalRefines(c, r, held, n, e, full);
    hide Represents, Accepts, Place, Find, Added, Seq, Window;
    if !full {
      var c1, at := Inserted(c, Place(queue, Seq(r), Seq(n)), e), Place(queue, Seq(r), Seq(n));
      assert c1.incomingReliableCommands[at] == e;
      JoinedRepresents(c1, r, held[n := e], n, at, f);
      assert held[n := e][n := e.(assembly := Added(e.assembly, f))] == held[n := e.(assembly := Added(e.assembly, f))];
    }
  }

  lemma EmptyRepresents()
    ensures Represents(Inlet(0, []), 0, map[])
  {
  }
}
