/** A channel that comes to a standstill: one acknowledgement is lost until the receiver is eight
    windows further on. */
module EightWindows {
  import Fragmentation
  import opened InFlight
  import opened Parcels
  import Receiving
  import opened Reception
  import opened ReliableDelivery
  import opened SenderInvariant
  import opened Sending
  import opened Windows
  import opened Words

  const LIMITS := Limits(32, 65536, 576, 500, 0, 32, 5000, 30000)

  /** The first of `n` commands is open, and no other. */
  function OneOpen(n: nat): Channel {
    Channel(Seq(n), if n == 0 then {} else {0}, seq(WINDOWS, i => if i == 0 && n > 0 then 1 else 0))
  }

  const NOTHING := Fragmentation.Entire([])

  /** Empty packets: what was sent, what was dispatched, and the commands that carried it. */
  function Blanks(n: nat): seq<Parcel> { seq(n, i => Parcel([], 0)) }

  function Nothings(n: nat): seq<seq<uint8>> { seq(n, i => []) }

  function Contents(n: nat): seq<Fragmentation.Content> { seq(n, i => NOTHING) }

  /** Each takes one number. */
  lemma {:induction false} BlankBefore(n: nat, k: nat)
    requires k <= n
    ensures Before(Blanks(n), k) == k
    decreases k
  {
    if k > 0 {
      BlankBefore(n, k - 1);
    }
  }

  lemma BlankStart(n: nat)
    ensures StartOf(Blanks(n + 1), n + 1) == n + 1
  {
    BlankBefore(n + 1, n);
    BlankBefore(n + 1, n + 1);
    HolderIs(Blanks(n + 1), n + 1, n);
  }

  /** Commands 1 to `n` were sent and delivered; all but the first were acknowledged. */
  ghost predicate Stage(sys: System, n: nat) {
    && sys.sender.channels == [OneOpen(n)] && sys.sender.outgoing == [] && sys.sender.inTransit == 0
    && sys.sender.limits == LIMITS
    && sys.packets == [Blanks(n)]
    && |sys.flows| == 1 && sys.flows[0].log == Contents(n) && sys.flows[0].first == n && 1 !in sys.flows[0].acked
    && sys.ends == [End(Receiving.Inlet(Seq(n), []), Nothings(n), n, map[])]
    && (n == 0 ==> sys.sender.sent == [])
    && (n > 0 ==>
          && |sys.sender.sent| == 1 && sys.sender.sent[0].channelID == 0 && sys.sender.sent[0].sequence == 1
          && Message(0, 1, 1, NOTHING) in sys.wire)
  }

  lemma {:induction false} OneStepMore(run: seq<System>, steps: seq<Step>, step: Step)
    requires IsRun(run, steps) && Enabled(run[|steps|], step)
    ensures Shapes(run[|steps|]) && IsRun(run + [Next(run[|steps|], step)], steps + [step])
  {
    RunOk(run, steps, |steps|);
    hide Inv;
    MakeRun(run, steps, step, run + [Next(run[|steps|], step)], steps + [step]);
  }

  lemma {:induction false} MakeRun(run: seq<System>, steps: seq<Step>, step: Step, run1: seq<System>, steps1: seq<Step>)
    requires IsRun(run, steps) && Shapes(run[|steps|]) && Enabled(run[|steps|], step)
    requires run1 == run + [Next(run[|steps|], step)] && steps1 == steps + [step]
    ensures IsRun(run1, steps1)
  {
    hide Enabled, Next, Shapes, Initial;
    assert run1[0] == run[0];
    forall k {:trigger steps1[k]} {:trigger run1[k]} | 0 <= k < |steps1|
      ensures Shapes(run1[k]) && Enabled(run1[k], steps1[k]) && run1[k + 1] == Next(run1[k], steps1[k])
    {
      if k < |steps| {
        assert steps1[k] == steps[k] && run1[k] == run[k] && run1[k + 1] == run[k + 1];
      } else {
        assert steps1[k] == step && run1[k] == run[|steps|] && run1[k + 1] == Next(run[|steps|], step);
      }
    }
  }

  function Fresh(n: nat): Command { Command(0, Seq(n), n, Data(NOTHING), 6, 0, 0, 0, 0) }

  const EMPTY := Datagram([], 0, 1, 4, false)

  // ----- one command's way -----

  /** A command is queued. */
  lemma Submitted(sys: System, n: nat)
    requires Stage(sys, n) && Shapes(sys)
    ensures Enabled(sys, Submit(0, [], false))
    ensures var t := Next(sys, Submit(0, [], false));
      && t == sys.(sender := t.sender, flows := t.flows, packets := [Blanks(n + 1)])
      && t.sender == sys.sender.(channels := [OneOpen(n).(outgoingReliableSequenceNumber := Seq(n + 1))],
                                 outgoing := [Fresh(n + 1)])
      && t.flows == [Flow(Contents(n + 1), n, sys.flows[0].acked)]
  {
    var p := Parcel([], 0);
    assert ContentsOf(p, n + 1) == [NOTHING];
    assert Contents(n) + [NOTHING] == Contents(n + 1);
    assert Blanks(n) + [p] == Blanks(n + 1);
    OneQueued(sys.sender, n);
    assert (Seq(n) + 1) % 0x1_0000 == Seq(n + 1);
    assert [OneOpen(n)][0 := OneOpen(n).(outgoingReliableSequenceNumber := Seq(n + 1))]
        == [OneOpen(n).(outgoingReliableSequenceNumber := Seq(n + 1))];
    hide Seq;
  }

  lemma OneQueued(s: Sender, n: nat)
    requires |s.channels| > 0
    ensures QueuedAll(s, 0, n + 1, [NOTHING], 6) == Queued(s, 0, n + 1, Data(NOTHING), 6)
  {
    assert [NOTHING][..0] == [];
  }

  /** It goes out: nothing holds it back before window 9. */
  lemma Transmitted(sys: System, n: nat)
    requires sys.sender.channels == [OneOpen(n).(outgoingReliableSequenceNumber := Seq(n + 1))]
    requires sys.sender.outgoing == [Fresh(n + 1)] && sys.sender.inTransit == 0 && sys.sender.limits == LIMITS
    requires |sys.flows| == 1 && sys.flows[0].first == n && Window(n + 1) <= 8 && Shapes(sys)
    ensures Enabled(sys, Transmit(EMPTY, 0))
    ensures var t := Next(sys, Transmit(EMPTY, 0));
      && t == sys.(sender := t.sender, flows := t.flows, wire := t.wire)
      && t.sender.channels == [Marked(OneOpen(n),
                                      Seq(n + 1) / WINDOW_SIZE).(outgoingReliableSequenceNumber := Seq(n + 1))]
      && t.sender.outgoing == [] && t.sender.inTransit == 0 && t.sender.limits == LIMITS
      && t.sender.sent == sys.sender.sent + [Attempted(Fresh(n + 1), LIMITS, 0)]
      && t.flows == [sys.flows[0].(first := n + 1)]
      && t.wire == sys.wire + {Message(0, n + 1, Seq(n + 1), NOTHING)}
  {
    hide Passed, Attempted, Marked, Seq, Launched, Loaded, Blocked, OneOpen, Fits, PassOk, SentFlows, Messages,
      Shapes, Fresh;
    NotHeldBack(n);
    PassOne(sys.sender, Fresh(n + 1), n);
    OneFlow(sys.flows, n);
    OneMessage(Fresh(n + 1), n + 1);
  }

  lemma {:induction false} OneFlow(flows: Flows, n: nat)
    requires |flows| == 1 && flows[0].first == n
    ensures SentFlows(flows, [Fresh(n + 1)]) == [flows[0].(first := n + 1)]
  {
    hide SentFlows, Seq;
    OneLaunched(flows, Fresh(n + 1));
    FlowReplaced(flows, flows[0].(first := n + 1));
  }

  lemma {:induction false} OneLaunched(flows: Flows, c: Command)
    ensures SentFlows(flows, [c]) == LaunchedFlows(flows, c)
  {
    hide LaunchedFlows;
    assert [c][..0] == [];
  }

  lemma {:induction false} FlowReplaced(flows: Flows, f: Flow)
    requires |flows| == 1
    ensures flows[0 := f] == [f]
  {
  }

  lemma OneMessage(c: Command, n: nat)
    requires c == Fresh(n)
    ensures Messages([c], 1) == {Message(0, n, Seq(n), NOTHING)}
  {
    hide Seq;
    forall m ensures m in Messages([c], 1) <==> m == Message(0, n, Seq(n), NOTHING) {
      if m == Message(0, n, Seq(n), NOTHING) {
        assert c in [c];
      }
    }
  }

  lemma NotHeldBack(n: nat)
    requires Window(n + 1) <= 8
    ensures !Blocked(OneOpen(n).(outgoingReliableSequenceNumber := Seq(n + 1)), Fresh(n + 1))
  {
    WindowOfSeq(n + 1);
    SplitWindow(n + 1);
    var w := Seq(n + 1) / WINDOW_SIZE;
    if Seq(n + 1) % WINDOW_SIZE == 0 {
      assert 1 <= w <= 8;
      assert 0 !in Mask(w);
      assert {0} * Mask(w) == {} && {} * Mask(w) == {};
    }
  }

  lemma PassOne(s: Sender, c: Command, n: nat)
    requires s.channels == [OneOpen(n).(outgoingReliableSequenceNumber := Seq(n + 1))] && s.outgoing == [c]
    requires c == Fresh(n + 1)
    requires s.inTransit == 0 && s.limits == LIMITS && !Blocked(s.channels[0], c)
    ensures PassOk(Pass(s, EMPTY, 0, false, false, true)) && Fits(c, LIMITS.mtu)
    ensures var p := Passed(Pass(s, EMPTY, 0, false, false, true), 0);
      && p.s == Launched(s, 0, 0) && p.d == Loaded(EMPTY, c)
      && p.s.channels == [Marked(OneOpen(n), Seq(n + 1) / WINDOW_SIZE).(outgoingReliableSequenceNumber := Seq(n + 1))]
      && p.s.outgoing == [] && p.s.sent == s.sent + [Attempted(c, LIMITS, 0)] && p.s.inTransit == 0
      && p.s.limits == LIMITS
      && p.d.commands == [c]
  {
    hide Blocked, Attempted, Seq;
    assert s.channels[0 := Marked(s.channels[0], c.sequence / WINDOW_SIZE)]
      == [Marked(s.channels[0], c.sequence / WINDOW_SIZE)];
    assert [c][..0] + [c][1..] == [];
    assert [] + [c] == [c];
    assert Length(c.packet) == 0;
  }

  /** It is delivered and dispatched. */
  lemma Arrived(sys: System, n: nat)
    requires sys.ends == [End(Receiving.Inlet(Seq(n), []), Nothings(n), n, map[])]
    requires Message(0, n + 1, Seq(n + 1), NOTHING) in sys.wire
    requires |sys.flows| == 1 && sys.flows[0].first == n + 1 && sys.packets == [Blanks(n + 1)] && Shapes(sys)
    ensures Enabled(sys, Deliver(Message(0, n + 1, Seq(n + 1), NOTHING), false, []))
    ensures var t := Next(sys, Deliver(Message(0, n + 1, Seq(n + 1), NOTHING), false, []));
      && t == sys.(ends := t.ends, acks := t.acks)
      && t.ends == [End(Receiving.Inlet(Seq(n + 1), []), Nothings(n + 1), n + 1, map[])]
      && t.acks == sys.acks + {Ack(0, n + 1, Seq(n + 1))}
  {
    var m := Message(0, n + 1, Seq(n + 1), NOTHING);
    var end := sys.ends[0];
    ArrivalIs(end, n, sys.maximumPacketSize);
    BlankStart(n);
    hide Received, Seq, Shapes, StartOf;
    var e := Received(end, m, n + 1, sys.maximumPacketSize, false, []).0;
    assert sys.ends[0 := e] == [e];
  }

  lemma ArrivalIs(end: End, n: nat, maximumPacketSize: nat)
    requires end == End(Receiving.Inlet(Seq(n), []), Nothings(n), n, map[])
    ensures var m := Message(0, n + 1, Seq(n + 1), NOTHING);
      var (e, acknowledges) := Received(end, m, n + 1, maximumPacketSize, false, []);
      acknowledges && e == End(Receiving.Inlet(Seq(n + 1), []), Nothings(n + 1), n + 1, map[])
  {
    var q := [Receiving.Plain(Seq(n + 1), [])];
    var c := Receiving.Inlet(Seq(n), q);
    StoredAlone(n);
    DispatchedAlone(n);
    TestsExact(n + 1, n + 1);
    hide Seq, Accepts, RefusesAck, Receiving.Arrives, Receiving.Dispatched, Receiving.DispatchedData;
    assert Nothings(n) + [[]] == Nothings(n + 1);
    OneHeld(n);
  }

  lemma StoredAlone(n: nat)
    ensures Receiving.Arrives(Receiving.Inlet(Seq(n), []), Receiving.Plain(Seq(n + 1), []), false)
         == Receiving.Stored(Receiving.Inlet(Seq(n), [Receiving.Plain(Seq(n + 1), [])]))
  {
    SplitWindow(n);
    SplitWindow(n + 1);
    TestsExact(n + 1, n);
    hide Seq, Accepts;
    var q := [Receiving.Plain(Seq(n + 1), [])];
    assert [][..0] + q + [][0..] == q;
  }

  lemma DispatchedAlone(n: nat)
    ensures var c := Receiving.Inlet(Seq(n), [Receiving.Plain(Seq(n + 1), [])]);
      Receiving.Dispatched(c) == Receiving.Inlet(Seq(n + 1), []) && Receiving.DispatchedData(c) == [[]]
  {
    var q := [Receiving.Plain(Seq(n + 1), [])];
    assert (Seq(n) + 1) % 0x1_0000 == Seq(n + 1);
    hide Seq;
    assert q[1..] == [] && q[..1] == q;
    assert Receiving.Run(q, Seq(n)) == 1;
    assert Receiving.Packets(q) == [[]];
  }

  lemma OneHeld(n: nat)
    ensures var held: Held := map[n + 1 := Receiving.Plain(Seq(n + 1), [])];
      Cursor(n, held) == n + 1 && Left(n, held) == map[]
  {
    var held: Held := map[n + 1 := Receiving.Plain(Seq(n + 1), [])];
    assert held - {n + 1} == map[];
    assert Cursor(n + 1, map[]) == n + 1 && Left(n + 1, map[]) == map[];
  }

  /** Its acknowledgement comes back. */
  lemma AckCame(sys: System, n: nat)
    requires 1 <= n && Window(n + 1) <= 8 && Shapes(sys)
    requires sys.sender.channels
      == [Marked(OneOpen(n), Seq(n + 1) / WINDOW_SIZE).(outgoingReliableSequenceNumber := Seq(n + 1))]
    requires |sys.sender.sent| == 2 && sys.sender.sent[1] == Attempted(Fresh(n + 1), LIMITS, 0)
    requires sys.sender.inTransit == 0
    requires sys.sender.sent[0].channelID == 0 && sys.sender.sent[0].sequence == 1
    requires |sys.flows| == 1 && sys.flows[0].first == n + 1 && Ack(0, n + 1, Seq(n + 1)) in sys.acks
    ensures Enabled(sys, DeliverAck(Ack(0, n + 1, Seq(n + 1))))
    ensures var t := Next(sys, DeliverAck(Ack(0, n + 1, Seq(n + 1))));
      && t == sys.(sender := t.sender, flows := t.flows)
      && t.sender == sys.sender.(channels := [OneOpen(n + 1)], sent := [sys.sender.sent[0]],
                                 nextTimeout := t.sender.nextTimeout, earliestTimeout := 0)
      && t.flows == [sys.flows[0].(acked := sys.flows[0].acked + {n + 1})]
  {
    SplitWindow(n + 1);
    assert Seq(n + 1) == n + 1;
    var s := Heard(sys.sender);
    assert !Answers(s.sent[0], Seq(n + 1), 0) && Answers(s.sent[1], Seq(n + 1), 0);
    assert Search(s.sent, Seq(n + 1), 0, false, 1) == 1;
    assert Search(s.sent, Seq(n + 1), 0, false, 0) == 1;
    assert Without(s.sent, 1) == [s.sent[0]];
    ReleasedAgain(n);
    assert s.channels[0 := OneOpen(n + 1)] == [OneOpen(n + 1)];
    assert LengthWord(s.sent[1].packet) == 0;
    hide Released, Marked, OneOpen, Attempted, NextTimeout;
    assert Acknowledged(s, Seq(n + 1), 0) == RemovedSent(s, 1);
  }

  lemma ReleasedAgain(n: nat)
    requires 1 <= n && Window(n + 1) <= 8
    ensures var w := Seq(n + 1) / WINDOW_SIZE;
      Released(Marked(OneOpen(n), w).(outgoingReliableSequenceNumber := Seq(n + 1)), w) == OneOpen(n + 1)
  {
    var w := Seq(n + 1) / WINDOW_SIZE;
    var c := Marked(OneOpen(n), w).(outgoingReliableSequenceNumber := Seq(n + 1));
    hide Seq;
    assert c.reliableWindows[w := c.reliableWindows[w] - 1] == OneOpen(n + 1).reliableWindows;
    if w != 0 {
      assert {0} + {w} - {w} == {0};
    } else {
      assert {0} + {w} == {0};
    }
  }

  lemma FirstMarked()
    ensures Marked(OneOpen(0), Seq(1) / WINDOW_SIZE).(outgoingReliableSequenceNumber := Seq(1)) == OneOpen(1)
  {
    var c := Marked(OneOpen(0), 0);
    assert c.used == {0} && c.reliableWindows == OneOpen(1).reliableWindows;
  }

  // ----- the run -----

  lemma Begins() returns (run: seq<System>, steps: seq<Step>)
    ensures IsRun(run, steps) && Stage(run[|steps|], 0)
  {
    var sender := Sender([Channel(0, {}, seq(WINDOWS, i => 0))], 0, [], [], 0, 0, 0, LIMITS);
    var end := End(Receiving.Inlet(0, []), [], 0, map[]);
    var s := System(sender, [Flow([], 0, {})], [Blanks(0)], [end], 32 * 1024 * 1024, {}, {});
    run, steps := [s], [];
    assert OneOpen(0).reliableWindows == seq(WINDOWS, i => 0);
    assert Nothings(0) == [] && Contents(0) == [] && Blanks(0) == [];
  }

  /** One more command is queued, sent and delivered. */
  lemma Delivers(run0: seq<System>, steps0: seq<Step>, n: nat) returns (run: seq<System>, steps: seq<Step>)
    requires IsRun(run0, steps0) && Stage(run0[|steps0|], n) && Window(n + 1) <= 8
    ensures IsRun(run, steps)
    ensures Halfway(run0[|steps0|], run[|steps|], n)
  {
    assert |run0| == |steps0| + 1;
    hide *;
    RunOk(run0, steps0, |steps0|);
    var s := run0[|steps0|];
    Submitted(s, n);
    OneStepMore(run0, steps0, Submit(0, [], false));
    run, steps := run0 + [Next(s, Submit(0, [], false))], steps0 + [Submit(0, [], false)];
    RunOk(run, steps, |steps|);
    var t := run[|steps|];
    StageFacts(s, n);
    Transmitted(t, n);
    OneStepMore(run, steps, Transmit(EMPTY, 0));
    run, steps := run + [Next(t, Transmit(EMPTY, 0))], steps + [Transmit(EMPTY, 0)];
    RunOk(run, steps, |steps|);
    var u := run[|steps|];
    Arrived(u, n);
    var step := Deliver(Message(0, n + 1, Seq(n + 1), NOTHING), false, []);
    OneStepMore(run, steps, step);
    run, steps := run + [Next(u, step)], steps + [step];
    MakeHalfway(s, run[|steps|], n);
  }

  /** Command `n + 1` was delivered, and its acknowledgement is on its way. */
  ghost predicate Halfway(s: System, u: System, n: nat) {
    && u.sender.channels == [Marked(OneOpen(n),
                                    Seq(n + 1) / WINDOW_SIZE).(outgoingReliableSequenceNumber := Seq(n + 1))]
    && u.sender.outgoing == [] && u.sender.inTransit == 0 && u.sender.limits == LIMITS
    && u.sender.sent == s.sender.sent + [Attempted(Fresh(n + 1), LIMITS, 0)]
    && |s.flows| == 1 && u.flows == [Flow(Contents(n + 1), n + 1, s.flows[0].acked)] && u.packets == [Blanks(n + 1)]
    && u.ends == [End(Receiving.Inlet(Seq(n + 1), []), Nothings(n + 1), n + 1, map[])]
    && Ack(0, n + 1, Seq(n + 1)) in u.acks
    && u.wire == s.wire + {Message(0, n + 1, Seq(n + 1), NOTHING)}
  }

  lemma MakeHalfway(s: System, u: System, n: nat)
    requires u.sender.channels
      == [Marked(OneOpen(n), Seq(n + 1) / WINDOW_SIZE).(outgoingReliableSequenceNumber := Seq(n + 1))]
    requires u.sender.outgoing == [] && u.sender.inTransit == 0 && u.sender.limits == LIMITS
    requires u.sender.sent == s.sender.sent + [Attempted(Fresh(n + 1), LIMITS, 0)]
    requires |s.flows| == 1 && u.flows == [Flow(Contents(n + 1), n + 1, s.flows[0].acked)]
    requires u.packets == [Blanks(n + 1)]
    requires u.ends == [End(Receiving.Inlet(Seq(n + 1), []), Nothings(n + 1), n + 1, map[])]
    requires u.acks == s.acks + {Ack(0, n + 1, Seq(n + 1))}
    requires u.wire == s.wire + {Message(0, n + 1, Seq(n + 1), NOTHING)}
    ensures Halfway(s, u, n)
  {
  }

  lemma StageFacts(s: System, n: nat)
    requires Stage(s, n)
    ensures |s.flows| == 1 && s.flows[0].first == n && s.sender.inTransit == 0 && s.sender.limits == LIMITS
    ensures s.ends == [End(Receiving.Inlet(Seq(n), []), Nothings(n), n, map[])]
  {
  }

  /** Stage after stage, up to the end of window 8; only the first acknowledgement is lost. */
  lemma {:induction false} Goes(n: nat) returns (run: seq<System>, steps: seq<Step>)
    requires Window(n) <= 8
    ensures IsRun(run, steps) && Stage(run[|steps|], n)
    decreases n
  {
    if n == 0 {
      run, steps := Begins();
    } else {
      SplitWindow(n);
      InsideWindow(n - 1, n);
      var run0, steps0 := Goes(n - 1);
      run, steps := Delivers(run0, steps0, n - 1);
      hide IsRun, Window, Seq;
      if n == 1 {
        FirstDone(run0[|steps0|], run[|steps|]);
      } else {
        RunOk(run, steps, |steps|);
        LaterDone(run0[|steps0|], run[|steps|], n - 1);
        var step := DeliverAck(Ack(0, n, Seq(n)));
        OneStepMore(run, steps, step);
        run, steps := run + [Next(run[|steps|], step)], steps + [step];
      }
    }
  }

  lemma FirstDone(s: System, u: System)
    requires Stage(s, 0) && Halfway(s, u, 0)
    ensures Stage(u, 1)
  {
    FirstMarked();
    assert Seq(1) == 1;
    assert [] + [Attempted(Fresh(1), LIMITS, 0)] == [Attempted(Fresh(1), LIMITS, 0)];
    hide Marked, OneOpen, Seq;
  }

  lemma LaterDone(s: System, u: System, n: nat)
    requires 1 <= n && Window(n + 1) <= 8 && Stage(s, n) && Halfway(s, u, n) && Shapes(u)
    ensures Enabled(u, DeliverAck(Ack(0, n + 1, Seq(n + 1))))
    ensures Stage(Next(u, DeliverAck(Ack(0, n + 1, Seq(n + 1)))), n + 1)
  {
    hide Marked, OneOpen, Seq, Shapes, Enabled, Next, Nothings, Attempted;
    assert u.sender.sent[0] == s.sender.sent[0];
    AckCame(u, n);
  }

  /** What the first command's next arrival makes of the receiver. */
  function Comes(s: System, full: bool): (End, bool)
    requires |s.ends| == |s.packets| == 1
  {
    Received(s.ends[0], Message(0, 1, 1, NOTHING), StartOf(s.packets[0], 1), s.maximumPacketSize, full, [])
  }

  /** The run: everything is delivered up to the end of window 8, all acknowledgements but the
      first come back, and one more command is queued.  From then on the first command is never
      acknowledged again, however often it arrives, and the one in the queue cannot be sent. */
  lemma Standstill() returns (run: seq<System>, steps: seq<Step>)
    ensures IsRun(run, steps)
    ensures var s := run[|steps|];
      && |s.flows| == |s.ends| == |s.sender.channels| == 1 && |s.sender.channels[0].reliableWindows| == WINDOWS
      && Open(s.flows[0], 1) && Message(0, 1, 1, NOTHING) in s.wire && Alive(s.flows, 0, 1)
      && |s.packets| == 1
      && (forall full {:trigger Comes(s, full)} :: Comes(s, full) == (s.ends[0], false))
      && s.sender.outgoing == [Fresh(9 * WINDOW_SIZE)] && Blocked(s.sender.channels[0], Fresh(9 * WINDOW_SIZE))
  {
    var n := 9 * WINDOW_SIZE - 1;
    assert Window(n) == 8;
    run, steps := Goes(n);
    RunOk(run, steps, |steps|);
    var s := run[|steps|];
    hide Seq, Nothings, Inv, IsRun, OneOpen, Shapes;
    Submitted(s, n);
    OneStepMore(run, steps, Submit(0, [], false));
    run, steps := run + [Next(s, Submit(0, [], false))], steps + [Submit(0, [], false)];
    var t := run[|steps|];
    RunOk(run, steps, |steps|);
    StandsStill(t, n);
  }

  lemma StandsStill(t: System, n: nat)
    requires Inv(t) && n == 9 * WINDOW_SIZE - 1
    requires |t.flows| == 1 && t.flows[0].first == n && 1 !in t.flows[0].acked && |t.ends| == 1 && t.ends[0].r == n
    requires |t.packets| == 1 && t.flows[0].log == Contents(|t.flows[0].log|)
    requires |t.sender.channels| == 1
    ensures |t.sender.channels[0].reliableWindows| == WINDOWS && Open(t.flows[0], 1) && Alive(t.flows, 0, 1)
    ensures forall full {:trigger Comes(t, full)} :: Comes(t, full) == (t.ends[0], false)
    ensures Blocked(t.sender.channels[0], Fresh(9 * WINDOW_SIZE))
  {
    hide *;
    InvHere(t);
    FirstOpen(t.flows[0], n);
    forall full {:trigger Comes(t, full)} ensures Comes(t, full) == (t.ends[0], false) {
      OneComes(t, n, full);
    }
    OneComes(t, n, true);
    CountersSized(t.sender.channels[0], t.flows[0]);
    FirstAlive(t.flows);
  }

  lemma FirstAlive(flows: Flows)
    requires |flows| == 1 && Window(flows[0].first) <= 8
    ensures Alive(flows, 0, 1)
  {
    assert Window(1) == 0;
  }

  lemma FirstOpen(f: Flow, n: nat)
    requires n == 9 * WINDOW_SIZE - 1 && f.first == n && 1 !in f.acked && FlowOk(f) && f.log == Contents(|f.log|)
    ensures Open(f, 1) && |f.log| >= 1 && f.log[0] == NOTHING && Window(n) == Window(f.first) == Window(1) + 8 == 8
    ensures Seq(1) == 1 && (n + 1) % WINDOW_SIZE == 0 && n + 1 == 9 * WINDOW_SIZE
  {
  }

  /** One arrival of the first command. */
  lemma OneComes(t: System, n: nat, full: bool)
    requires n == 9 * WINDOW_SIZE - 1 && |t.flows| == |t.ends| == |t.packets| == |t.sender.channels| == 1
    requires EndOk(t.ends[0], t.flows[0], t.packets[0]) && FlowOk(t.flows[0])
    requires CountersOk(t.sender.channels[0], t.flows[0])
    requires t.flows[0].first == t.ends[0].r == n && 1 !in t.flows[0].acked
    requires t.flows[0].log == Contents(|t.flows[0].log|)
    ensures |t.sender.channels[0].reliableWindows| == WINDOWS
    ensures Comes(t, full) == (t.ends[0], false) && Blocked(t.sender.channels[0], Fresh(9 * WINDOW_SIZE))
  {
    hide *;
    var f, m := t.flows[0], Message(0, 1, 1, NOTHING);
    FirstOpen(f, n);
    FreshIs(9 * WINDOW_SIZE);
    NoRoom();
    CountersSized(t.sender.channels[0], f);
    EightBehind(t.ends[0], t.sender.channels[0], f, t.packets[0], m, t.maximumPacketSize, full, [],
                Fresh(9 * WINDOW_SIZE));
    ComesIs(t, full);
  }

  lemma NoRoom()
    ensures Room(NOTHING) == 0
  {
  }

  lemma InvHere(t: System)
    requires Inv(t) && |t.flows| == 1
    ensures |t.ends| == |t.packets| == |t.sender.channels| == 1
    ensures EndOk(t.ends[0], t.flows[0], t.packets[0]) && FlowOk(t.flows[0])
    ensures CountersOk(t.sender.channels[0], t.flows[0])
  {
    hide EndOk, FlowOk, CountersOk, ListsOk, NothingLost, TransitOk;
  }

  lemma CountersSized(channel: Channel, f: Flow)
    requires CountersOk(channel, f)
    ensures |channel.reliableWindows| == WINDOWS
  {
  }

  lemma FreshIs(n: nat)
    ensures Fresh(n).sequence == Seq(n) && Fresh(n).number == n && Fresh(n).sendAttempts == 0
  {
  }

  lemma ComesIs(s: System, full: bool)
    requires |s.ends| == |s.packets| == 1
    ensures Comes(s, full)
         == Received(s.ends[0], Message(0, 1, 1, NOTHING), StartOf(s.packets[0], 1), s.maximumPacketSize, full, [])
  {
  }
}
