/** Two peers and the network between them: a sending peer, a receiving one, and everything
    ever put on the wire, any of which may arrive at any time, any number of times, or never. */
module ReliableDelivery {
  import opened Fragmentation
  import FragmentFit
  import opened Parcels
  import opened Reassembly
  import opened Words
  import opened Windows
  import opened Sending
  import opened CommandLists
  import opened InFlight
  import opened SenderInvariant
  import Receiving
  import opened Reception

  /** A command or an acknowledgement on the wire.  The receiver sees 16 bits; the number is
      there to say how old a message may become. */
  datatype Message = Message(channelID: nat, number: nat, sequence: uint16, content: Content)
  datatype Ack = Ack(channelID: nat, number: nat, sequence: uint16)

  /** The receiving end of a channel: its values, what it has dispatched so far, and the
      simple receiver it stands for. */
  datatype End = End(inlet: Receiving.Inlet, dispatched: seq<seq<uint8>>, r: nat, held: Held)

  /** `flows` and `packets` are the sender's history, kept for the proofs: the commands of each
      channel, and the packets they carry. */
  datatype System = System(sender: Sender, flows: Flows, packets: seq<seq<Parcel>>, ends: seq<End>,
                           maximumPacketSize: nat, wire: set<Message>, acks: set<Ack>)

  datatype Step =
    | Submit(channelID: nat, data: seq<uint8>, checksum: bool)
    | SubmitOwn(number: nat, commandSize: nat)
    | Transmit(datagram: Datagram, now: uint32)
    | Timeouts(now: uint32)
    | Tune(limits: Limits)
    | Deliver(message: Message, full: bool, space: seq<uint8>)
    | DeliverAck(ack: Ack)
    | DeliverOwnAck(sequence: uint16)

  // ----- steps -----

  /** The network's bounded lifetime: nothing arrives once the sender has first sent a command
      more than 8 windows beyond it. */
  ghost predicate Alive(flows: Flows, channelID: nat, number: nat) {
    channelID < |flows| && Window(flows[channelID].first) <= Window(number) + 8
  }

  /** A packet is sent whole or in fragments as it fits the datagrams, unless in too many; and it
      keeps to two windows.  (What becomes of packets in more is in `FragmentDelivery`.) */
  ghost predicate MaySubmit(sys: System, k: nat, data: seq<uint8>, checksum: bool) {
    && k < |sys.sender.channels| && k < |sys.flows|
    && FragmentLength(sys.sender.limits.mtu, checksum) > 0
    && var p := FragmentFit.Packed(data, sys.sender.limits.mtu, checksum);
      ParcelOk(p) && IsNarrow(|sys.flows[k].log| + 1, Parts(p))
  }

  ghost predicate Enabled(sys: System, step: Step) {
    match step
    case Submit(k, data, checksum) => MaySubmit(sys, k, data, checksum)
    case SubmitOwn(_, size) => 4 + size <= sys.sender.limits.mtu
    case Transmit(d, _) => d.commands == [] && DatagramOk(d, sys.sender.limits.mtu)
    case Timeouts(now) => !TimedOut(sys.sender, 0, 0, now).1
    case Tune(limits) => LimitsOk(limits) && limits.mtu == sys.sender.limits.mtu
    case Deliver(m, _, space) => m in sys.wire && Alive(sys.flows, m.channelID, m.number) && |space| == Room(m.content)
    case DeliverAck(a) => a in sys.acks && Alive(sys.flows, a.channelID, a.number)
    case DeliverOwnAck(_) => true
  }

  /** The messages of a datagram that belong to channels. */
  function Messages(commands: seq<Command>, channels: nat): set<Message> {
    set c | c in commands && c.channelID < channels ::
      Message(c.channelID, c.number, c.sequence, if c.packet.Data? then c.packet.content else Entire([]))
  }

  /** The memory that a packet's first fragment asks for. */
  function Room(c: Content): nat { if c.Part? then c.fragment.totalLength else 0 }

  /** A command's content reaches its channel. */
  function Reaches(c: Receiving.Inlet, m: Message, maximumPacketSize: nat, full: bool,
                   space: seq<uint8>): Receiving.Arrival
    requires |space| == Room(m.content)
  {
    if |Bytes(m.content)| > maximumPacketSize then Receiving.Arrival.Refused
    else match m.content
      case Entire(data) => Receiving.Arrives(c, Receiving.Plain(m.sequence, data), full)
      case Part(f) => Receiving.FragmentArrives(c, f, maximumPacketSize, full, space)
  }

  /** What the packet at `start` then is. */
  function Entry(held: Held, start: nat, m: Message, space: seq<uint8>): Receiving.Incoming
    requires |space| == Room(m.content)
  {
    match m.content
    case Entire(data) => Receiving.Plain(m.sequence, data)
    case Part(f) =>
      var e := if start in held then held[start] else Receiving.Begun(f, space);
      if e.Fragmented? && f.fragmentNumber < |e.assembly.bits| && f.fragmentOffset + |f.data| <= |e.assembly.data| then
        e.(assembly := Added(e.assembly, f))
      else e
  }

  /** The receiving end takes a message of the packet at `start` in; the second result is whether
      it acknowledges it. */
  function Received(end: End, m: Message, start: nat, maximumPacketSize: nat, full: bool,
                    space: seq<uint8>): (End, bool)
    requires |space| == Room(m.content)
  {
    match Reaches(end.inlet, m, maximumPacketSize, full, space)
    case Refused => (end, false)
    case Dropped => (end, !RefusesAck(m.sequence, end.inlet.incomingReliableSequenceNumber))
    case Stored(c) =>
      var held := end.held[start := Entry(end.held, start, m, space)];
      var c1 := Receiving.Dispatched(c);
      (End(c1, end.dispatched + Receiving.DispatchedData(c), Cursor(end.r, held), Left(end.r, held)),
       !RefusesAck(m.sequence, c1.incomingReliableSequenceNumber))
  }

  /** The number of the first command of a number's packet. */
  function StartOf(ps: seq<Parcel>, n: nat): nat {
    if 1 <= n <= Before(ps, |ps|) then Start(ps, Holder(ps, n)) else n
  }

  /** An acknowledgement that comes in also ends the wait since the earliest timeout. */
  function Heard(s: Sender): Sender { s.(earliestTimeout := 0) }

  /** What the steps need in order to make sense; it always holds (`InvShapes`). */
  ghost predicate Shapes(sys: System) {
    && ChannelsOk(sys.sender.channels) && |sys.sender.channels| == |sys.flows| == |sys.ends| == |sys.packets|
    && (forall i {:trigger sys.sender.outgoing[i]} :: 0 <= i < |sys.sender.outgoing| ==>
          Fits(sys.sender.outgoing[i], sys.sender.limits.mtu))
  }

  ghost function Next(sys: System, step: Step): System
    requires Shapes(sys) && Enabled(sys, step)
  {
    match step
    case Submit(k, data, checksum) =>
      var p := FragmentFit.Packed(data, sys.sender.limits.mtu, checksum);
      var contents := ContentsOf(p, |sys.flows[k].log| + 1);
      sys.(sender := QueuedAll(sys.sender, k, |sys.flows[k].log| + 1, contents, FragmentFit.PartSize(p)),
           flows := LoggedAll(sys.flows, k, contents),
           packets := sys.packets[k := sys.packets[k] + [p]])
    case SubmitOwn(number, size) =>
      sys.(sender := QueuedOwn(sys.sender, number, size))
    case Transmit(d, now) =>
      var p := Passed(Pass(sys.sender, d, 0, false, false, true), now);
      sys.(sender := p.s, flows := SentFlows(sys.flows, p.d.commands),
           wire := sys.wire + Messages(p.d.commands, |sys.flows|))
    case Timeouts(now) =>
      sys.(sender := TimedOut(sys.sender, 0, 0, now).0)
    case Tune(limits) =>
      sys.(sender := sys.sender.(limits := limits))
    case Deliver(m, full, space) =>
      var k := m.channelID;
      var (end, acknowledges) :=
        Received(sys.ends[k], m, StartOf(sys.packets[k], m.number), sys.maximumPacketSize, full, space);
      sys.(ends := sys.ends[m.channelID := end],
           acks := if acknowledges then sys.acks + {Ack(m.channelID, m.number, m.sequence)} else sys.acks)
    case DeliverAck(a) =>
      sys.(sender := Acknowledged(Heard(sys.sender), a.sequence, a.channelID),
           flows := AckedFlows(sys.flows, a.channelID, a.number))
    case DeliverOwnAck(sequence) =>
      sys.(sender := Acknowledged(Heard(sys.sender), sequence, 0xFF))
  }

  // ----- the invariant -----

  /** A receiving end has dispatched the first of the packets that were sent, with none that it
      could still dispatch, and has everything that the sender counts as acknowledged. */
  ghost predicate EndOk(end: End, f: Flow, ps: seq<Parcel>) {
    && Represents(end.inlet, end.r, end.held)
    && HeldOk(end.held, ps, f.first) && LogOk(f.log, ps) && AllNarrow(ps)
    && |end.dispatched| <= |ps| && end.dispatched == Datas(ps[..|end.dispatched|])
    && end.r == Before(ps, |end.dispatched|) <= f.first && !IsDue(end.r, end.held)
    && (forall n {:trigger n in f.acked} :: n in f.acked ==> HasNear(end, ps, n))
  }

  /** The end has what the command carries, and would not refuse its acknowledgement for being
      too far ahead. */
  ghost predicate HasNear(end: End, ps: seq<Parcel>, n: nat) {
    Has(end.r, end.held, ps, n) && Window(n) <= Window(end.r) + 6
  }

  ghost predicate MessageOk(m: Message, flows: Flows) {
    && m.channelID < |flows| && 1 <= m.number <= flows[m.channelID].first <= |flows[m.channelID].log|
    && m.sequence == Seq(m.number) && m.content == flows[m.channelID].log[m.number - 1]
  }

  ghost predicate AckOk(a: Ack, flows: Flows, packets: seq<seq<Parcel>>, ends: seq<End>) {
    && a.channelID < |flows| == |ends| == |packets| && 1 <= a.number <= flows[a.channelID].first
    && a.sequence == Seq(a.number) && HasNear(ends[a.channelID], packets[a.channelID], a.number)
  }

  ghost predicate Inv(sys: System) {
    && SenderOk(sys.sender, sys.flows)
    && |sys.ends| == |sys.flows| == |sys.packets|
    && (forall k {:trigger sys.ends[k]} :: 0 <= k < |sys.flows| ==> EndOk(sys.ends[k], sys.flows[k], sys.packets[k]))
    && (forall m {:trigger m in sys.wire} :: m in sys.wire ==> MessageOk(m, sys.flows))
    && (forall a {:trigger a in sys.acks} :: a in sys.acks ==> AckOk(a, sys.flows, sys.packets, sys.ends))
  }

  lemma Sizes(sys: System)
    requires Inv(sys)
    ensures ChannelsOk(sys.sender.channels) && |sys.sender.channels| == |sys.flows| == |sys.ends| == |sys.packets|
    ensures forall k {:trigger sys.flows[k]} :: 0 <= k < |sys.flows| ==> FlowOk(sys.flows[k])
  {
    FlowsChannels(sys.sender.channels, sys.flows);
    hide ListsOk, NothingLost, EndOk, FlowOk, CountersOk;
  }

  lemma InvShapes(sys: System)
    requires Inv(sys)
    ensures Shapes(sys)
  {
    Sizes(sys);
    AllFit(sys.sender, sys.flows);
    hide SenderOk, EndOk, Fits, ChannelsOk;
  }

  /** Sender gating: the last command put on the wire is at most 7 windows past the
      receiver's own, for beginning a window took an acknowledgement from the one before. */
  lemma GatingHolds(end: End, f: Flow, ps: seq<Parcel>)
    requires EndOk(end, f, ps) && FlowOk(f)
    ensures Window(end.r) <= Window(f.first) <= Window(end.r) + 7
  {
    InsideWindow(end.r, f.first);
    if Window(f.first) > 1 {
      var n :| n in f.acked && Window(n) + 1 >= Window(f.first);
      assert HasNear(end, ps, n);
    }
    hide HeldOk, LogOk, AllNarrow, Represents, Has;
  }

  // ----- every step keeps it -----

  /** The flow has only grown. */
  ghost predicate Grows(f: Flow, f1: Flow) {
    f.log <= f1.log && f.first <= f1.first <= |f1.log| && f1.acked == f.acked
  }

  lemma EndGrows(end: End, f: Flow, f1: Flow, ps: seq<Parcel>, ps1: seq<Parcel>)
    requires EndOk(end, f, ps) && Grows(f, f1) && ps <= ps1 && LogOk(f1.log, ps1) && AllNarrow(ps1)
    ensures EndOk(end, f1, ps1)
    ensures forall n {:trigger Has(end.r, end.held, ps1, n)} :: Has(end.r, end.held, ps, n) ==>
              Has(end.r, end.held, ps1, n)
  {
    hide Represents, LogOk, AllNarrow, HeldOk, Has, Before, IsDue;
    LogFacts(f1.log, ps1);
    HeldMore(end.held, ps, ps1, f.first, f1.first);
    BeforeSame(ps, ps1, |end.dispatched|);
    assert ps1[..|end.dispatched|] == ps[..|end.dispatched|];
    forall n {:trigger Has(end.r, end.held, ps1, n)} | Has(end.r, end.held, ps, n)
      ensures Has(end.r, end.held, ps1, n)
    {
      HasMore(end.r, end.held, ps, ps1, n);
    }
    assert forall n {:trigger n in f.acked} :: n in f.acked ==> HasNear(end, ps, n);
  }

  /** Perhaps more was sent on the channel, and more put on the wire. */
  ghost predicate Longer(sys: System, sys1: System, k: nat) {
    && k < |sys.flows| == |sys1.flows| == |sys.packets| == |sys1.packets|
    && Grows(sys.flows[k], sys1.flows[k]) && sys.packets[k] <= sys1.packets[k]
    && LogOk(sys1.flows[k].log, sys1.packets[k]) && AllNarrow(sys1.packets[k])
  }

  /** A step of the sender that only grows the flows and the packets. */
  lemma FlowsGrow(sys: System, sys1: System)
    requires Inv(sys) && SenderOk(sys1.sender, sys1.flows) && |sys1.flows| == |sys.flows| == |sys1.packets|
    requires sys1.ends == sys.ends && sys1.acks == sys.acks
    requires forall k {:trigger Longer(sys, sys1, k)} :: 0 <= k < |sys.flows| ==> Longer(sys, sys1, k)
    requires forall m {:trigger m in sys1.wire} :: m in sys1.wire ==> m in sys.wire || MessageOk(m, sys1.flows)
    ensures Inv(sys1)
  {
    hide SenderOk, EndOk, LogOk, AllNarrow, Has;
    forall k | 0 <= k < |sys.flows| ensures EndOk(sys1.ends[k], sys1.flows[k], sys1.packets[k]) {
      assert Longer(sys, sys1, k);
      EndGrows(sys.ends[k], sys.flows[k], sys1.flows[k], sys.packets[k], sys1.packets[k]);
    }
    forall m | m in sys1.wire ensures MessageOk(m, sys1.flows) {
      if m in sys.wire {
        assert MessageOk(m, sys.flows) && Longer(sys, sys1, m.channelID);
      }
    }
    forall a | a in sys1.acks ensures AckOk(a, sys1.flows, sys1.packets, sys1.ends) {
      assert AckOk(a, sys.flows, sys.packets, sys.ends) && Longer(sys, sys1, a.channelID);
      var k := a.channelID;
      EndGrows(sys.ends[k], sys.flows[k], sys1.flows[k], sys.packets[k], sys1.packets[k]);
    }
  }

  /** A step of the sender that leaves the flows alone. */
  lemma SenderChanges(sys: System, sys1: System)
    requires Inv(sys) && sys1 == sys.(sender := sys1.sender) && SenderOk(sys1.sender, sys.flows)
    ensures Inv(sys1)
  {
    hide SenderOk, EndOk, MessageOk, AckOk;
  }

  /** The packets stay the same when the logs do. */
  lemma SamePackets(sys: System, sys1: System)
    requires Inv(sys) && sys1.packets == sys.packets && |sys1.flows| == |sys.flows|
    requires forall k {:trigger sys1.flows[k]} :: 0 <= k < |sys.flows| ==>
      sys1.flows[k].log == sys.flows[k].log && Grows(sys.flows[k], sys1.flows[k])
    ensures forall k {:trigger Longer(sys, sys1, k)} :: 0 <= k < |sys.flows| ==> Longer(sys, sys1, k)
  {
    Sizes(sys);
    hide Inv, LogOk, AllNarrow, FlowOk, Grows;
    forall k {:trigger Longer(sys, sys1, k)} | 0 <= k < |sys.flows| ensures Longer(sys, sys1, k) {
      LogHere(sys, k);
      var _ := sys1.flows[k];
    }
  }

  lemma LogHere(sys: System, k: nat)
    requires Inv(sys) && k < |sys.flows|
    ensures |sys.ends| == |sys.flows| == |sys.packets|
    ensures LogOk(sys.flows[k].log, sys.packets[k]) && AllNarrow(sys.packets[k])
    ensures |sys.flows[k].log| == Before(sys.packets[k], |sys.packets[k]|)
  {
    assert EndOk(sys.ends[k], sys.flows[k], sys.packets[k]);
    hide SenderOk, Before, HeldOk, Represents, Has, MessageOk, AckOk, LogOk, AllNarrow, IsDue;
    LogFacts(sys.flows[k].log, sys.packets[k]);
  }

  lemma SubmitKeeps(sys: System, step: Step)
    requires Inv(sys) && Shapes(sys) && Enabled(sys, step) && step.Submit?
    ensures Inv(Next(sys, step))
  {
    hide SenderOk, EndOk, QueuedAll, Inv, LogOk, AllNarrow, ContentOf, ParcelOk, IsNarrow, Parts,
      FragmentFit.Packed, FragmentFit.PartSize, FragmentLength;
    Sizes(sys);
    InvParts(sys);
    var k := step.channelID;
    var p := FragmentFit.Packed(step.data, sys.sender.limits.mtu, step.checksum);
    var contents := ContentsOf(p, |sys.flows[k].log| + 1);
    FragmentFit.PartsFit(step.data, sys.sender.limits.mtu, step.checksum, |sys.flows[k].log| + 1);
    QueuedAllOk(sys.sender, sys.flows, k, contents, FragmentFit.PartSize(p));
    LogHere(sys, k);
    LogMore(sys.flows[k].log, sys.packets[k], p);
    NarrowMore(sys.packets[k], p);
    var sys1 := Next(sys, step);
    forall i {:trigger Longer(sys, sys1, i)} | 0 <= i < |sys.flows| ensures Longer(sys, sys1, i) {
      LogHere(sys, i);
      var _ := sys.flows[i];
    }
    FlowsGrow(sys, sys1);
  }

  lemma InvParts(sys: System)
    requires Inv(sys)
    ensures SenderOk(sys.sender, sys.flows)
    ensures forall k {:trigger sys.flows[k]} :: 0 <= k < |sys.flows| ==> sys.flows[k].first <= |sys.flows[k].log|
    ensures forall m {:trigger m in sys.wire} :: m in sys.wire ==> MessageOk(m, sys.flows)
    ensures forall a {:trigger a in sys.acks} :: a in sys.acks ==> AckOk(a, sys.flows, sys.packets, sys.ends)
  {
    Sizes(sys);
    hide SenderOk, EndOk, MessageOk, AckOk;
    assert forall k :: 0 <= k < |sys.flows| ==> FlowOk(sys.flows[k]);
  }

  lemma SubmitOwnKeeps(sys: System, step: Step)
    requires Inv(sys) && Shapes(sys) && Enabled(sys, step) && step.SubmitOwn?
    ensures Inv(Next(sys, step))
  {
    hide SenderOk, EndOk, LogOk, AllNarrow, QueuedOwn, Inv;
    Sizes(sys);
    InvParts(sys);
    QueuedOwnOk(sys.sender, sys.flows, step.number, step.commandSize);
    SenderChanges(sys, Next(sys, step));
  }

  lemma TransmitKeeps(sys: System, step: Step)
    requires Inv(sys) && Shapes(sys) && Enabled(sys, step) && step.Transmit?
    ensures Inv(Next(sys, step))
  {
    hide SenderOk, EndOk, LogOk, AllNarrow, Inv, Passed, SentFlows, OnWire, Messages, DatagramOk;
    Sizes(sys);
    InvParts(sys);
    AllFit(sys.sender, sys.flows);
    var d, now := step.datagram, step.now;
    var p := Pass(sys.sender, d, 0, false, false, true);
    StartsFlows(sys.flows, sys.sender.limits.mtu, d);
    PassedOk(p, sys.flows, sys.flows, now);
    var d1 := Passed(p, now).d;
    var flows1 := SentFlows(sys.flows, d1.commands);
    MessagesOk(d1.commands, flows1);
    AdvancedGrows(sys.flows, flows1, Passed(p, now).s);
    AdvancedLogs(sys.flows, flows1);
    SamePackets(sys, Next(sys, step));
    FlowsGrow(sys, Next(sys, step));
  }

  lemma StartsFlows(flows: Flows, mtu: nat, d: Datagram)
    requires d.commands == [] && DatagramOk(d, mtu)
    ensures SentFlows(flows, d.commands) == flows && AllOnWire(d.commands, flows) && d.packetSize <= mtu
  {
  }

  lemma AdvancedLogs(flows: Flows, flows1: Flows)
    requires Advanced(flows, flows1)
    ensures |flows1| == |flows| && forall k {:trigger flows1[k]} :: 0 <= k < |flows| ==> flows1[k].log == flows[k].log
  {
  }

  lemma AdvancedGrows(flows: Flows, flows1: Flows, s1: Sender)
    requires Advanced(flows, flows1) && SenderOk(s1, flows1)
    ensures |flows1| == |flows| && forall k {:trigger flows1[k]} :: 0 <= k < |flows| ==> Grows(flows[k], flows1[k])
  {
    hide ListsOk, NothingLost, CountersOk;
    assert forall k :: 0 <= k < |flows1| ==> FlowOk(flows1[k]);
  }

  lemma MessagesOk(commands: seq<Command>, flows: Flows)
    requires AllOnWire(commands, flows)
    ensures forall m {:trigger m in Messages(commands, |flows|)} :: m in Messages(commands, |flows|) ==>
      MessageOk(m, flows)
  {
    forall m | m in Messages(commands, |flows|) ensures MessageOk(m, flows) {
      var c :| c in commands && c.channelID < |flows|
        && m == Message(c.channelID, c.number, c.sequence, if c.packet.Data? then c.packet.content else Entire([]));
      assert OnWire(c, flows);
    }
  }

  lemma TimeoutsKeeps(sys: System, step: Step)
    requires Inv(sys) && Shapes(sys) && Enabled(sys, step) && step.Timeouts?
    ensures Inv(Next(sys, step))
  {
    hide SenderOk, EndOk, LogOk, AllNarrow, Inv, TimedOut;
    Sizes(sys);
    InvParts(sys);
    TimedOutOk(sys.sender, sys.flows, 0, 0, step.now);
    SenderChanges(sys, Next(sys, step));
  }

  lemma TuneKeeps(sys: System, step: Step)
    requires Inv(sys) && Shapes(sys) && Enabled(sys, step) && step.Tune?
    ensures Inv(Next(sys, step))
  {
    hide EndOk, Inv, LogOk, AllNarrow, SenderOk, LimitsOk;
    Sizes(sys);
    InvParts(sys);
    TunedOk(sys.sender, sys.flows, step.limits);
    SenderChanges(sys, Next(sys, step));
  }

  /** An acknowledgement that arrives was sent for a command the receiver has. */
  lemma DeliverAckKeeps(sys: System, step: Step)
    requires Inv(sys) && Shapes(sys) && Enabled(sys, step) && step.DeliverAck?
    ensures Inv(Next(sys, step))
  {
    hide SenderOk, Acknowledged, Represents, HeldOk, LogOk, AllNarrow, Has, Heard, IsDue, Before;
    Sizes(sys);
    var a := step.ack;
    assert AckOk(a, sys.flows, sys.packets, sys.ends);
    HeardOk(sys.sender, sys.flows);
    AcknowledgedOk(Heard(sys.sender), sys.flows, a.channelID, a.number);
    var sys1 := Next(sys, step);
    forall k | 0 <= k < |sys.flows| ensures EndOk(sys1.ends[k], sys1.flows[k], sys1.packets[k]) {
      assert EndOk(sys.ends[k], sys.flows[k], sys.packets[k]);
    }
    forall m | m in sys1.wire ensures MessageOk(m, sys1.flows) {
      assert MessageOk(m, sys.flows);
    }
    forall b | b in sys1.acks ensures AckOk(b, sys1.flows, sys1.packets, sys1.ends) {
      assert AckOk(b, sys.flows, sys.packets, sys.ends);
    }
  }

  lemma HeardOk(s: Sender, flows: Flows)
    requires SenderOk(s, flows) && ChannelsOk(s.channels)
    ensures SenderOk(Heard(s), flows) && Heard(s).channels == s.channels && ChannelsOk(Heard(s).channels)
  {
    OnlyTimes(s, Heard(s), flows);
  }

  /** An acknowledgement of one of the peer's own commands: a ping, or the answer to a connect. */
  lemma DeliverOwnAckKeeps(sys: System, step: Step)
    requires Inv(sys) && Shapes(sys) && Enabled(sys, step) && step.DeliverOwnAck?
    ensures Inv(Next(sys, step))
  {
    hide SenderOk, EndOk, LogOk, AllNarrow, Acknowledged, Inv, Heard;
    Sizes(sys);
    InvParts(sys);
    FlowsFew(sys.sender, sys.flows);
    HeardOk(sys.sender, sys.flows);
    OwnAcknowledgedOk(Heard(sys.sender), sys.flows, step.sequence);
    SenderChanges(sys, Next(sys, step));
  }

  lemma FlowsFew(s: Sender, flows: Flows)
    requires SenderOk(s, flows)
    ensures |flows| <= 0xFF
  {
  }

  /** What a receiving end makes of a message that may still arrive. */
  lemma ReceivedOk(end: End, f: Flow, ps: seq<Parcel>, m: Message, maximumPacketSize: nat, full: bool,
                   space: seq<uint8>)
    requires EndOk(end, f, ps) && FlowOk(f) && Window(f.first) <= Window(m.number) + 8 && |space| == Room(m.content)
    requires 1 <= m.number <= f.first <= |f.log| && m.sequence == Seq(m.number) && m.content == f.log[m.number - 1]
    ensures var (e, acknowledges) := Received(end, m, StartOf(ps, m.number), maximumPacketSize, full, space);
      && EndOk(e, f, ps) && Window(end.r) <= Window(e.r)
      && (acknowledges ==> HasNear(e, ps, m.number))
      && forall n {:trigger Has(e.r, e.held, ps, n)} :: Has(end.r, end.held, ps, n) ==> Has(e.r, e.held, ps, n)
  {
    hide *;
    MessagePlace(end, f, ps, m);
    ReachesOk(end, f, ps, m, maximumPacketSize, full, space);
    var a := Reaches(end.inlet, m, maximumPacketSize, full, space);
    if a.Stored? {
      StoredOk(end, f, ps, m, maximumPacketSize, full, space);
    } else {
      DroppedOk(end, f, ps, m, maximumPacketSize, full, space);
    }
  }

  /** Where a message stands to the receiver: behind it with its whole packet, or ahead of it with
      its packet's first command, never more than 7 windows ahead or 8 behind. */
  ghost predicate Placed(end: End, ps: seq<Parcel>, m: Message) {
    var s, n := StartOf(ps, m.number), m.number;
    && 1 <= n <= Before(ps, |ps|) && s == Start(ps, Holder(ps, n)) && s <= n
    && Window(end.r) <= Window(n) + 8 && Window(n) <= Window(end.r) + 7 && Window(n) <= Window(s) + 1
    && (s <= end.r ==> n <= end.r) && Window(s) <= Window(n)
    && ParcelOk(ps[Holder(ps, n)]) && n - s < Parts(ps[Holder(ps, n)])
    && m.content == ContentOf(ps[Holder(ps, n)], s, n - s) && m.sequence == Seq(n)
    && (m.content.Part? ==> s != end.r)
    && (m.content.Entire? ==> s == n)
  }

  lemma MessagePlace(end: End, f: Flow, ps: seq<Parcel>, m: Message)
    requires EndOk(end, f, ps) && FlowOk(f) && Window(f.first) <= Window(m.number) + 8
    requires 1 <= m.number <= f.first <= |f.log| && m.sequence == Seq(m.number) && m.content == f.log[m.number - 1]
    ensures Placed(end, ps, m)
  {
    hide *;
    GatingHolds(end, f, ps);
    EndFacts(end, f, ps);
    LogFacts(f.log, ps);
    var n := m.number;
    var j, done := Holder(ps, n), |end.dispatched|;
    LogAt(f.log, ps, n);
    NarrowAt(ps, j);
    InsideWindow(n, f.first);
    InsideWindow(n, Before(ps, j + 1));
    InsideWindow(Start(ps, j), n);
    PartsPositive(ps[j]);
    if j < done {
      BeforeGrows(ps, j + 1, done);
    } else {
      BeforeGrows(ps, done, j);
    }
    ContentKind(ps[j], Start(ps, j), n - Start(ps, j));
    MakePlaced(end, ps, m);
  }

  lemma LogAt(log: seq<Content>, ps: seq<Parcel>, n: nat)
    requires LogOk(log, ps) && 1 <= n <= |log| && |log| == Before(ps, |ps|)
    ensures var j := Holder(ps, n);
      && Start(ps, j) == Before(ps, j) + 1 <= n <= Before(ps, j + 1) && n - Start(ps, j) < Parts(ps[j])
      && ParcelOk(ps[j]) && log[n - 1] == ContentOf(ps[j], Start(ps, j), n - Start(ps, j))
  {
    hide HolderTo, Before, ContentOf, ParcelOk, Parts;
    var _ := ps[Holder(ps, n)];
  }

  lemma NarrowAt(ps: seq<Parcel>, j: nat)
    requires AllNarrow(ps) && j < |ps|
    ensures Before(ps, j + 1) == Start(ps, j) + Parts(ps[j]) - 1
    ensures Window(Before(ps, j + 1)) <= Window(Start(ps, j)) + 1
  {
    hide Parts, Window;
    NextBefore(ps, j);
    assert IsNarrow(Start(ps, j), Parts(ps[j]));
  }

  lemma MakePlaced(end: End, ps: seq<Parcel>, m: Message)
    requires 1 <= m.number <= Before(ps, |ps|)
    requires var n, j := m.number, Holder(ps, m.number);
      var s := Start(ps, j);
      && s <= n && Window(end.r) <= Window(n) + 8 && Window(n) <= Window(end.r) + 7 && Window(n) <= Window(s) + 1
      && (s <= end.r ==> n <= end.r) && Window(s) <= Window(n) && ParcelOk(ps[j]) && n - s < Parts(ps[j])
      && m.content == ContentOf(ps[j], s, n - s) && m.sequence == Seq(n)
      && (m.content.Part? ==> s != end.r) && (m.content.Entire? ==> s == n)
    ensures Placed(end, ps, m)
  {
    hide HolderTo, Before, ContentOf, ParcelOk, Parts, Window, Seq;
  }

  lemma ContentKind(p: Parcel, start: nat, i: nat)
    requires i < Parts(p)
    ensures ContentOf(p, start, i).Part? <==> p.length > 0
    ensures ContentOf(p, start, i).Entire? ==> i == 0
  {
  }

  /** What the queue makes of a message, against what the receiver holds. */
  lemma ReachesOk(end: End, f: Flow, ps: seq<Parcel>, m: Message, maximumPacketSize: nat, full: bool,
                  space: seq<uint8>)
    requires EndOk(end, f, ps) && Placed(end, ps, m) && |space| == Room(m.content) && m.number <= f.first
    ensures var s, a := StartOf(ps, m.number), Reaches(end.inlet, m, maximumPacketSize, full, space);
      && (a.Stored? ==>
            var held := end.held[s := Entry(end.held, s, m, space)];
            && end.r < s && Represents(a.channel, end.r, held) && HeldOk(held, ps, f.first)
            && Covers(held, ps, m.number)
            && forall n {:trigger Has(end.r, held, ps, n)} :: Has(end.r, end.held, ps, n) ==> Has(end.r, held, ps, n))
      && (a.Dropped? ==>
            Has(end.r, end.held, ps, m.number) || Window(m.number) == Window(end.r) + 7)
  {
    hide *;
    EndFacts(end, f, ps);
    if |Bytes(m.content)| > maximumPacketSize {
      TooLong(end.inlet, m, maximumPacketSize, full, space);
    } else if m.content.Entire? {
      EntireReaches(end, f, ps, m, maximumPacketSize, full, space);
    } else {
      PartReaches(end, f, ps, m, maximumPacketSize, full, space);
    }
  }

  lemma TooLong(c: Receiving.Inlet, m: Message, maximumPacketSize: nat, full: bool, space: seq<uint8>)
    requires |space| == Room(m.content) && |Bytes(m.content)| > maximumPacketSize
    ensures Reaches(c, m, maximumPacketSize, full, space) == Receiving.Arrival.Refused
  {
  }

  lemma EndFacts(end: End, f: Flow, ps: seq<Parcel>)
    requires EndOk(end, f, ps)
    ensures Represents(end.inlet, end.r, end.held) && HeldOk(end.held, ps, f.first) && Spaced(end.held)
    ensures |end.dispatched| <= |ps| && end.r == Before(ps, |end.dispatched|) <= f.first
    ensures end.dispatched == Datas(ps[..|end.dispatched|]) && !IsDue(end.r, end.held)
    ensures LogOk(f.log, ps) && AllNarrow(ps) && AllParcelsOk(ps)
    ensures end.inlet.incomingReliableSequenceNumber == Seq(end.r)
  {
    HeldSpaced(end.held, ps, f.first);
    hide Receiving.Sorted, HeldAt, Before, IsDue, Spaced, Datas;
  }

  /** A whole packet. */
  lemma EntireReaches(end: End, f: Flow, ps: seq<Parcel>, m: Message, maximumPacketSize: nat, full: bool,
                      space: seq<uint8>)
    requires Represents(end.inlet, end.r, end.held) && HeldOk(end.held, ps, f.first) && Placed(end, ps, m)
    requires |space| == Room(m.content) && m.number <= f.first && m.content.Entire?
    requires |Bytes(m.content)| <= maximumPacketSize
    ensures var s, a := StartOf(ps, m.number), Reaches(end.inlet, m, maximumPacketSize, full, space);
      && (a.Stored? ==>
            var held := end.held[s := Entry(end.held, s, m, space)];
            && end.r < s && Represents(a.channel, end.r, held) && HeldOk(held, ps, f.first)
            && Covers(held, ps, m.number)
            && forall n {:trigger Has(end.r, held, ps, n)} :: Has(end.r, end.held, ps, n) ==> Has(end.r, held, ps, n))
      && (a.Dropped? ==>
            Has(end.r, end.held, ps, m.number) || Window(m.number) == Window(end.r) + 7)
  {
    hide Represents, HeldOk, Before, HolderTo, Seq, Receiving.Arrives, Window, Parts;
    var n := m.number;
    var e := Receiving.Plain(m.sequence, m.content.packet);
    ArrivalRefines(end.inlet, end.r, end.held, n, e, full);
    if Takes(end.r, end.held, n) {
      PlainOk(ps[Holder(ps, n)], n, f.first);
      HeldWith(end.r, end.held, ps, f.first, n, e);
    } else if n in end.held {
      PlainHeld(end.held, ps, f.first, n);
    }
  }

  lemma PlainOk(p: Parcel, n: nat, first: nat)
    requires Parts(p) > 0 && ContentOf(p, n, 0).Entire? && n <= first
    ensures EntryOk(Receiving.Plain(Seq(n), ContentOf(p, n, 0).packet), p, n, first)
  {
  }

  lemma PlainHeld(held: Held, ps: seq<Parcel>, first: nat, n: nat)
    requires HeldOk(held, ps, first) && n in held && 1 <= n <= Before(ps, |ps|)
    requires var p, s := ps[Holder(ps, n)], Start(ps, Holder(ps, n));
      s <= n && n - s < Parts(p) && ContentOf(p, s, n - s).Entire?
    ensures Covers(held, ps, n)
  {
    hide HolderTo, Before;
    assert HeldAt(held, ps, first, n);
  }

  /** An entry is added or replaced, and has at least what was there. */
  lemma HeldWith(r: nat, held: Held, ps: seq<Parcel>, first: nat, s: nat, e: Receiving.Incoming)
    requires HeldOk(held, ps, first) && 1 <= s <= Before(ps, |ps|) && s == Start(ps, Holder(ps, s))
    requires EntryOk(e, ps[Holder(ps, s)], s, first)
    requires s in held ==> MoreThan(held[s], e)
    ensures HeldOk(held[s := e], ps, first)
    ensures forall n {:trigger Has(r, held[s := e], ps, n)} :: Has(r, held, ps, n) ==> Has(r, held[s := e], ps, n)
  {
    hide HolderTo, Before, EntryOk, Parts;
    forall n {:trigger n in held[s := e]} | n in held[s := e] ensures HeldAt(held[s := e], ps, first, n) {
      assert n != s ==> HeldAt(held, ps, first, n);
    }
  }

  /** All fragments that the one has, the other has. */
  ghost predicate MoreThan(e: Receiving.Incoming, e1: Receiving.Incoming) {
    e1.Plain? || (e.Fragmented? && |e.assembly.bits| == |e1.assembly.bits|
                  && forall i {:trigger e1.assembly.bits[i]} :: 0 <= i < |e.assembly.bits| && e.assembly.bits[i] ==>
                       e1.assembly.bits[i])
  }

  /** A fragment. */
  lemma PartReaches(end: End, f: Flow, ps: seq<Parcel>, m: Message, maximumPacketSize: nat, full: bool,
                    space: seq<uint8>)
    requires Represents(end.inlet, end.r, end.held) && HeldOk(end.held, ps, f.first) && Placed(end, ps, m)
    requires AllParcelsOk(ps) && |space| == Room(m.content) && m.number <= f.first && m.content.Part?
    requires |Bytes(m.content)| <= maximumPacketSize
    ensures var s, a := StartOf(ps, m.number), Reaches(end.inlet, m, maximumPacketSize, full, space);
      && (a.Stored? ==>
            var held := end.held[s := Entry(end.held, s, m, space)];
            && end.r < s && Represents(a.channel, end.r, held) && HeldOk(held, ps, f.first)
            && Covers(held, ps, m.number)
            && forall n {:trigger Has(end.r, held, ps, n)} :: Has(end.r, end.held, ps, n) ==> Has(end.r, held, ps, n))
      && (a.Dropped? ==>
            Has(end.r, end.held, ps, m.number) || Window(m.number) == Window(end.r) + 7)
  {
    hide Represents, HeldOk, Before, HolderTo, Seq, Receiving.FragmentArrives, Window, Parts, EntryOk, Malformed,
      Receiving.Matching, Added, ParcelOk, FragmentOf;
    var s, n, p := StartOf(ps, m.number), m.number, ps[Holder(ps, m.number)];
    var fragment := m.content.fragment;
    StartHolder(ps, n);
    PartIs(p, s, n - s);
    FragmentRefines(end.inlet, end.r, end.held, s, fragment, maximumPacketSize, full, space);
    var a := Reaches(end.inlet, m, maximumPacketSize, full, space);
    if a.Stored? {
      var e := if s in end.held then end.held[s] else Receiving.Begun(fragment, space);
      if s in end.held {
        EntryHere(end.held, ps, f.first, s);
      } else {
        BegunOk(p, s, n - s, f.first, space);
      }
      JoinedOk(e, p, s, n - s, f.first);
      FragmentFits(e, fragment, maximumPacketSize);
      HeldWith(end.r, end.held, ps, f.first, s, e.(assembly := Added(e.assembly, fragment)));
    }
  }

  lemma StartHolder(ps: seq<Parcel>, n: nat)
    requires AllParcelsOk(ps) && 1 <= n <= Before(ps, |ps|)
    ensures var s := Start(ps, Holder(ps, n)); s <= Before(ps, |ps|) && Holder(ps, s) == Holder(ps, n)
  {
    hide HolderTo, Before;
    var j := Holder(ps, n);
    PartsPositive(ps[j]);
    NextBefore(ps, j);
    HolderIs(ps, Start(ps, j), j);
  }

  lemma PartIs(p: Parcel, start: nat, i: nat)
    requires i < Parts(p) && ContentOf(p, start, i).Part?
    ensures p.length > 0 && i < FragmentCount(|p.data|, p.length)
    ensures ContentOf(p, start, i).fragment == FragmentOf(p.data, p.length, Seq(start), i)
    ensures ContentOf(p, start, i).fragment.startSequenceNumber == Seq(start)
  {
  }

  lemma EntryHere(held: Held, ps: seq<Parcel>, first: nat, s: nat)
    requires HeldOk(held, ps, first) && s in held
    ensures 1 <= s <= Before(ps, |ps|) && EntryOk(held[s], ps[Holder(ps, s)], s, first)
  {
    hide HolderTo, Before, EntryOk;
    assert HeldAt(held, ps, first, s);
  }

  lemma BegunOk(p: Parcel, s: nat, i: nat, first: nat, space: seq<uint8>)
    requires p.length > 0 && i < FragmentCount(|p.data|, p.length) && s <= first
    requires |space| == FragmentOf(p.data, p.length, Seq(s), i).totalLength
    ensures EntryOk(Receiving.Begun(FragmentOf(p.data, p.length, Seq(s), i), space), p, s, first)
  {
    StartsOk(p.data, p.length, space);
    hide FragmentCount, AssemblyOk;
  }

  /** A fragment that was sent joins what is held of its packet. */
  lemma JoinedOk(e: Receiving.Incoming, p: Parcel, s: nat, i: nat, first: nat)
    requires p.length > 0 && i < FragmentCount(|p.data|, p.length) && s + i <= first && EntryOk(e, p, s, first)
    ensures var f := FragmentOf(p.data, p.length, Seq(s), i);
      && f.fragmentNumber == i < |e.assembly.bits| && f.fragmentOffset + |f.data| <= |e.assembly.data|
      && var e1 := e.(assembly := Added(e.assembly, f));
      && EntryOk(e1, p, s, first) && MoreThan(e, e1) && i < |e1.assembly.bits| && e1.assembly.bits[i]
  {
    AddedOk(e.assembly, p.data, p.length, Seq(s), i);
    hide FragmentCount, AssemblyOk, Added, Offset, Fragmentation.End;
  }

  lemma DroppedOk(end: End, f: Flow, ps: seq<Parcel>, m: Message, maximumPacketSize: nat, full: bool,
                  space: seq<uint8>)
    requires EndOk(end, f, ps) && Placed(end, ps, m) && |space| == Room(m.content)
    requires var a := Reaches(end.inlet, m, maximumPacketSize, full, space);
      !a.Stored? && (a.Dropped? ==> Has(end.r, end.held, ps, m.number) || Window(m.number) == Window(end.r) + 7)
    ensures var (e, acknowledges) := Received(end, m, StartOf(ps, m.number), maximumPacketSize, full, space);
      e == end && (acknowledges ==> HasNear(end, ps, m.number))
  {
    EndFacts(end, f, ps);
    TestsExact(m.number, end.r);
    hide Reaches, RefusesAck, Has, EndOk, Seq, Window, Parts, HolderTo, Before, ContentOf, ParcelOk;
  }

  lemma StoredOk(end: End, f: Flow, ps: seq<Parcel>, m: Message, maximumPacketSize: nat, full: bool,
                 space: seq<uint8>)
    requires EndOk(end, f, ps) && FlowOk(f) && m.sequence == Seq(m.number) && |space| == Room(m.content)
    requires 1 <= m.number <= f.first && Window(f.first) <= Window(m.number) + 8
    requires var s, a := StartOf(ps, m.number), Reaches(end.inlet, m, maximumPacketSize, full, space);
      && a.Stored?
      && var held := end.held[s := Entry(end.held, s, m, space)];
      && Represents(a.channel, end.r, held) && HeldOk(held, ps, f.first) && Covers(held, ps, m.number)
      && forall n {:trigger Has(end.r, held, ps, n)} :: Has(end.r, end.held, ps, n) ==> Has(end.r, held, ps, n)
    ensures var (e, acknowledges) := Received(end, m, StartOf(ps, m.number), maximumPacketSize, full, space);
      && EndOk(e, f, ps) && Window(end.r) <= Window(e.r)
      && (acknowledges ==> HasNear(e, ps, m.number))
      && forall n {:trigger Has(e.r, e.held, ps, n)} :: Has(end.r, end.held, ps, n) ==> Has(e.r, e.held, ps, n)
  {
    hide *;
    var s, c := StartOf(ps, m.number), Reaches(end.inlet, m, maximumPacketSize, full, space).channel;
    var held := end.held[s := Entry(end.held, s, m, space)];
    StoredIs(end, m, s, maximumPacketSize, full, space);
    EndFacts(end, f, ps);
    HeldSpaced(held, ps, f.first);
    DispatchRefines(c, end.r, held);
    var done1 := DeliversPackets(end.r, held, ps, |end.dispatched|, f.first);
    DatasJoin(ps, |end.dispatched|, done1);
    var e := End(Receiving.Dispatched(c), end.dispatched + Receiving.DispatchedData(c), Cursor(end.r, held),
                 Left(end.r, held));
    CursorForward(end.r, held);
    forall n {:trigger Has(e.r, e.held, ps, n)} | Has(end.r, end.held, ps, n) ensures Has(e.r, e.held, ps, n) {
      assert Has(end.r, held, ps, n);
      HasKept(end.r, held, e.r, e.held, ps, done1, n);
    }
    HasThis(end.r, held, ps, m.number);
    HasKept(end.r, held, e.r, e.held, ps, done1, m.number);
    AckedNear(end, f, ps, e);
    MakeEndOk(e, f, ps);
    GatingHolds(e, f, ps);
    AckIsNear(e, f, ps, m.number);
  }

  lemma StoredIs(end: End, m: Message, s: nat, maximumPacketSize: nat, full: bool, space: seq<uint8>)
    requires |space| == Room(m.content) && Reaches(end.inlet, m, maximumPacketSize, full, space).Stored?
    ensures var c := Reaches(end.inlet, m, maximumPacketSize, full, space).channel;
      var held := end.held[s := Entry(end.held, s, m, space)];
      Received(end, m, s, maximumPacketSize, full, space)
      == (End(Receiving.Dispatched(c), end.dispatched + Receiving.DispatchedData(c), Cursor(end.r, held),
              Left(end.r, held)),
          !RefusesAck(m.sequence, Receiving.Dispatched(c).incomingReliableSequenceNumber))
  {
    hide Reaches, Entry, RefusesAck, Receiving.Dispatched, Receiving.DispatchedData, Cursor, Left;
  }

  lemma CursorForward(r: nat, held: Held)
    ensures r <= Cursor(r, held) && Window(r) <= Window(Cursor(r, held))
  {
    InsideWindow(r, Cursor(r, held));
    hide Cursor;
  }

  lemma HasThis(r: nat, held: Held, ps: seq<Parcel>, n: nat)
    requires Covers(held, ps, n)
    ensures Has(r, held, ps, n)
  {
  }

  lemma AckedNear(end: End, f: Flow, ps: seq<Parcel>, e: End)
    requires EndOk(end, f, ps) && Window(end.r) <= Window(e.r)
    requires forall n {:trigger Has(e.r, e.held, ps, n)} :: Has(end.r, end.held, ps, n) ==> Has(e.r, e.held, ps, n)
    ensures forall n {:trigger n in f.acked} :: n in f.acked ==> HasNear(e, ps, n)
  {
    hide Represents, HeldOk, LogOk, AllNarrow, Has, IsDue, Before, Window;
    forall n {:trigger n in f.acked} | n in f.acked ensures HasNear(e, ps, n) {
      assert HasNear(end, ps, n);
    }
  }

  lemma MakeEndOk(end: End, f: Flow, ps: seq<Parcel>)
    requires Represents(end.inlet, end.r, end.held) && HeldOk(end.held, ps, f.first)
    requires LogOk(f.log, ps) && AllNarrow(ps) && |end.dispatched| <= |ps|
    requires end.dispatched == Datas(ps[..|end.dispatched|])
    requires end.r == Before(ps, |end.dispatched|) <= f.first && !IsDue(end.r, end.held)
    requires forall n {:trigger n in f.acked} :: n in f.acked ==> HasNear(end, ps, n)
    ensures EndOk(end, f, ps)
  {
    hide Represents, HeldOk, LogOk, AllNarrow, HasNear, IsDue, Before, Datas;
  }

  /** A command that is acknowledged is not too far ahead. */
  lemma AckIsNear(e: End, f: Flow, ps: seq<Parcel>, n: nat)
    requires EndOk(e, f, ps) && Has(e.r, e.held, ps, n) && 1 <= n <= f.first && Window(f.first) <= Window(n) + 8
    requires Window(e.r) <= Window(f.first) <= Window(e.r) + 7
    ensures !RefusesAck(Seq(n), e.inlet.incomingReliableSequenceNumber) ==> HasNear(e, ps, n)
  {
    EndFacts(e, f, ps);
    InsideWindow(n, f.first);
    TestsExact(n, e.r);
    hide EndOk, Has, RefusesAck, Seq, Window;
  }

  lemma DeliverKeeps(sys: System, step: Step)
    requires Inv(sys) && Shapes(sys) && Enabled(sys, step) && step.Deliver?
    ensures Inv(Next(sys, step))
  {
    hide *;
    DeliverFacts(sys, step);
    DeliverIs(sys, step);
    MessageComes(sys, Next(sys, step), step.message, step.full, step.space);
  }

  lemma MessageComes(sys: System, sys1: System, m: Message, full: bool, space: seq<uint8>)
    requires Inv(sys) && m in sys.wire && Alive(sys.flows, m.channelID, m.number) && |space| == Room(m.content)
    requires m.channelID < |sys.ends| == |sys.packets|
    requires var k := m.channelID;
      var (e, acknowledges) :=
        Received(sys.ends[k], m, StartOf(sys.packets[k], m.number), sys.maximumPacketSize, full, space);
      sys1 == sys.(ends := sys.ends[k := e],
                   acks := if acknowledges then sys.acks + {Ack(k, m.number, m.sequence)} else sys.acks)
    ensures Inv(sys1)
  {
    hide *;
    var k := m.channelID;
    EndHere(sys, m);
    AliveIs(sys, m);
    ReceivedOk(sys.ends[k], sys.flows[k], sys.packets[k], m, sys.maximumPacketSize, full, space);
    EndChanges(sys, sys1, m);
  }

  lemma DeliverFacts(sys: System, step: Step)
    requires Enabled(sys, step) && step.Deliver?
    ensures var m := step.message;
      m in sys.wire && Alive(sys.flows, m.channelID, m.number) && |step.space| == Room(m.content)
  {
  }

  lemma DeliverIs(sys: System, step: Step)
    requires Shapes(sys) && Enabled(sys, step) && step.Deliver?
    ensures var m := step.message;
      var k := m.channelID;
      && k < |sys.ends| == |sys.packets|
      && var (e, acknowledges) := Received(sys.ends[k], m, StartOf(sys.packets[k], m.number), sys.maximumPacketSize,
                                          step.full, step.space);
        Next(sys, step) == sys.(ends := sys.ends[k := e],
                                acks := if acknowledges then sys.acks + {Ack(k, m.number, m.sequence)} else sys.acks)
  {
    hide Received, StartOf;
  }

  lemma EndHere(sys: System, m: Message)
    requires Inv(sys) && m in sys.wire && Alive(sys.flows, m.channelID, m.number)
    ensures m.channelID < |sys.ends| == |sys.flows| == |sys.packets|
    ensures var k := m.channelID;
      && MessageOk(m, sys.flows) && EndOk(sys.ends[k], sys.flows[k], sys.packets[k]) && FlowOk(sys.flows[k])
  {
    Sizes(sys);
    hide SenderOk, EndOk, FlowOk;
  }

  /** One end takes a message in, and perhaps acknowledges it. */
  lemma EndChanges(sys: System, sys1: System, m: Message)
    requires Inv(sys) && MessageOk(m, sys.flows) && |sys1.ends| == |sys.ends|
    requires sys1 == sys.(ends := sys.ends[m.channelID := sys1.ends[m.channelID]], acks := sys1.acks)
    requires var (k, n) := (m.channelID, m.number);
      var (end, e, ps) := (sys.ends[k], sys1.ends[k], sys.packets[k]);
      && EndOk(e, sys.flows[k], ps) && Window(end.r) <= Window(e.r)
      && (forall i {:trigger Has(e.r, e.held, ps, i)} :: Has(end.r, end.held, ps, i) ==> Has(e.r, e.held, ps, i))
      && (sys1.acks == sys.acks || (sys1.acks == sys.acks + {Ack(k, n, m.sequence)} && HasNear(e, ps, n)))
    ensures Inv(sys1)
  {
    hide SenderOk, EndOk, Has, Window;
    forall a | a in sys1.acks ensures AckOk(a, sys1.flows, sys1.packets, sys1.ends) {
      if a in sys.acks {
        assert AckOk(a, sys.flows, sys.packets, sys.ends);
        assert HasNear(sys.ends[a.channelID], sys.packets[a.channelID], a.number);
      }
    }
  }

  lemma StepKeeps(sys: System, step: Step)
    requires Inv(sys) && Shapes(sys) && Enabled(sys, step)
    ensures Inv(Next(sys, step))
  {
    hide *;
    match step
    case Submit(_, _, _) => SubmitKeeps(sys, step);
    case SubmitOwn(_, _) => SubmitOwnKeeps(sys, step);
    case Transmit(_, _) => TransmitKeeps(sys, step);
    case Timeouts(_) => TimeoutsKeeps(sys, step);
    case Tune(_) => TuneKeeps(sys, step);
    case Deliver(_, _, _) => DeliverKeeps(sys, step);
    case DeliverAck(_) => DeliverAckKeeps(sys, step);
    case DeliverOwnAck(_) => DeliverOwnAckKeeps(sys, step);
  }

  // ----- runs -----

  /** A connection's start: nothing sent, nothing received. */
  ghost predicate Initial(sys: System) {
    && |sys.sender.channels| == |sys.flows| == |sys.ends| == |sys.packets| <= 0xFF
    && (forall k {:trigger sys.sender.channels[k]} :: 0 <= k < |sys.sender.channels| ==>
          sys.sender.channels[k] == Channel(0, {}, seq(WINDOWS, i => 0)))
    && (forall k {:trigger sys.flows[k]} :: 0 <= k < |sys.flows| ==> sys.flows[k] == Flow([], 0, {}))
    && (forall k {:trigger sys.packets[k]} :: 0 <= k < |sys.packets| ==> sys.packets[k] == [])
    && (forall k {:trigger sys.ends[k]} :: 0 <= k < |sys.ends| ==>
         sys.ends[k] == End(Receiving.Inlet(0, []), [], 0, map[]))
    && sys.sender.outgoing == [] && sys.sender.sent == [] && sys.sender.inTransit == sys.sender.earliestTimeout == 0
    && LimitsOk(sys.sender.limits) && sys.wire == {} && sys.acks == {}
  }

  ghost predicate IsRun(run: seq<System>, steps: seq<Step>) {
    && |run| == |steps| + 1 && Initial(run[0])
    && forall i {:trigger steps[i]} :: 0 <= i < |steps| ==>
         Shapes(run[i]) && Enabled(run[i], steps[i]) && run[i + 1] == Next(run[i], steps[i])
  }

  lemma InitialOk(sys: System)
    requires Initial(sys)
    ensures Inv(sys)
  {
    EmptyRepresents();
    forall k | 0 <= k < |sys.flows| ensures FlowOk(sys.flows[k]) && CountersOk(sys.sender.channels[k], sys.flows[k]) {
      forall w | 0 <= w < WINDOWS ensures OpenIn(sys.flows[k], w) == {} {
      }
      assert sys.flows[k] == Flow([], 0, {});
    }
    hide Represents, FlowOk, CountersOk;
  }

  lemma {:induction false} RunOk(run: seq<System>, steps: seq<Step>, i: nat)
    requires IsRun(run, steps) && i < |run|
    ensures Inv(run[i]) && Shapes(run[i])
    decreases i
  {
    if i == 0 {
      InitialOk(run[0]);
    } else {
      RunOk(run, steps, i - 1);
      hide Inv, Shapes, Enabled, Next, Initial;
      assert run[i - 1 + 1] == Next(run[i - 1], steps[i - 1]);
      StepKeeps(run[i - 1], steps[i - 1]);
    }
    InvShapes(run[i]);
  }

  /** The receiver's queue has what command `n` carries. */
  ghost predicate InQueue(queue: seq<Receiving.Incoming>, r: nat, ps: seq<Parcel>, n: nat) {
    && 1 <= n <= Before(ps, |ps|)
    && exists q {:trigger queue[q]} :: 0 <= q < |queue| && QueueHas(queue[q], r, Start(ps, Holder(ps, n)), n)
  }

  predicate QueueHas(e: Receiving.Incoming, r: nat, s: nat, n: nat)
    requires s <= n
  {
    && NumberOf(e.sequence, r) == s
    && (e.Plain? || (n - s < |e.assembly.bits| && e.assembly.bits[n - s]))
  }

  /** Reliable delivery: in every state of every run, the commands of a channel carry its packets
      one after the other; the packets dispatched are the first of those sent, each as it was sent;
      every command is one of theirs, or queued at the receiver, or still held by the sender; and
      the next packet waits only for commands that have not come. */
  lemma ReliablyDelivered(run: seq<System>, steps: seq<Step>, i: nat, k: nat)
    requires IsRun(run, steps) && i < |run| && k < |run[i].flows|
    ensures |run[i].ends| == |run[i].flows| == |run[i].packets|
    ensures var (end, log, ps) := (run[i].ends[k], run[i].flows[k].log, run[i].packets[k]);
      && LogOk(log, ps)
      && end.dispatched <= Datas(ps)
      && (forall n {:trigger Kept(run[i].sender, k, n)} :: 1 <= n <= |log| ==>
            || n <= Before(ps, |end.dispatched|)
            || InQueue(end.inlet.incomingReliableCommands, Before(ps, |end.dispatched|), ps, n)
            || Kept(run[i].sender, k, n))
      && (|end.dispatched| < |ps| ==>
            exists n :: Before(ps, |end.dispatched|) < n <= Before(ps, |end.dispatched| + 1)
              && !InQueue(end.inlet.incomingReliableCommands, Before(ps, |end.dispatched|), ps, n))
  {
    RunOk(run, steps, i);
    var sys := run[i];
    var end, f, ps := sys.ends[k], sys.flows[k], sys.packets[k];
    Sizes(sys);
    assert EndOk(end, f, ps);
    hide IsRun, Shapes, ListsOk, FlowsOk, LogOk, HeldOk, AllNarrow, Represents, Before, HolderTo, Has, IsDue, InQueue;
    assert Datas(ps)[..|end.dispatched|] == Datas(ps[..|end.dispatched|]);
    forall n {:trigger Kept(sys.sender, k, n)} | 1 <= n <= |f.log|
      ensures n <= end.r || InQueue(end.inlet.incomingReliableCommands, end.r, ps, n) || Kept(sys.sender, k, n)
    {
      if n in f.acked {
        assert HasNear(end, ps, n);
        HasQueued(end, ps, n);
      }
    }
    if |end.dispatched| < |ps| {
      var n := StillMissing(end, f, ps);
    }
  }

  lemma HasQueued(end: End, ps: seq<Parcel>, n: nat)
    requires Represents(end.inlet, end.r, end.held) && Has(end.r, end.held, ps, n)
    ensures n <= end.r || InQueue(end.inlet.incomingReliableCommands, end.r, ps, n)
  {
    if n > end.r {
      var s := Start(ps, Holder(ps, n));
      var q := QueuedAt(end.inlet, end.r, end.held, s);
      assert QueueHas(end.inlet.incomingReliableCommands[q], end.r, s, n);
    }
    hide HolderTo, Before, NumberOf, Receiving.Sorted;
  }

  /** Some command of the next packet has not come. */
  lemma StillMissing(end: End, f: Flow, ps: seq<Parcel>) returns (n: nat)
    requires EndOk(end, f, ps) && |end.dispatched| < |ps|
    ensures Before(ps, |end.dispatched|) < n <= Before(ps, |end.dispatched| + 1)
    ensures !InQueue(end.inlet.incomingReliableCommands, end.r, ps, n)
  {
    var j, r := |end.dispatched|, end.r;
    hide EndOk, HolderTo, Before, NumberOf, HeldOk, LogOk, AllNarrow, Represents, EntryOk, ParcelOk, Parts,
      Receiving.Complete, Datas;
    EndFacts(end, f, ps);
    PartsPositive(ps[j]);
    NextBefore(ps, j);
    n := r + 1;
    if r + 1 in end.held {
      EntryHere(end.held, ps, f.first, r + 1);
      HolderIs(ps, r + 1, j);
      var i := MissingPart(end.held[r + 1], ps[j], r + 1, f.first);
      n := r + 1 + i;
    }
    HolderIs(ps, n, j);
    NotQueued(end, ps, n);
  }

  lemma NotQueued(end: End, ps: seq<Parcel>, n: nat)
    requires Represents(end.inlet, end.r, end.held) && end.r < n && 1 <= n <= Before(ps, |ps|)
    requires Start(ps, Holder(ps, n)) == end.r + 1
    requires end.r + 1 in end.held ==>
      var e := end.held[end.r + 1];
      e.Fragmented? && n - end.r - 1 < |e.assembly.bits| && !e.assembly.bits[n - end.r - 1]
    ensures !InQueue(end.inlet.incomingReliableCommands, end.r, ps, n)
  {
    hide HolderTo, Before, NumberOf, Represents;
    var queue := end.inlet.incomingReliableCommands;
    forall q {:trigger queue[q]} | 0 <= q < |queue| ensures !QueueHas(queue[q], end.r, end.r + 1, n) {
      QueuedHeld(end.inlet, end.r, end.held, q);
    }
  }

  lemma QueuedHeld(c: Receiving.Inlet, r: nat, held: Held, q: nat)
    requires Represents(c, r, held) && q < |c.incomingReliableCommands|
    ensures var n := NumberOf(c.incomingReliableCommands[q].sequence, r);
      n in held && held[n] == c.incomingReliableCommands[q]
  {
    hide NumberOf, Receiving.Sorted;
    var _ := c.incomingReliableCommands[q];
  }

  lemma MissingPart(e: Receiving.Incoming, p: Parcel, n: nat, first: nat) returns (i: nat)
    requires EntryOk(e, p, n, first) && ParcelOk(p) && !Receiving.Complete(e)
    ensures i < Parts(p) && e.Fragmented? && i < |e.assembly.bits| && !e.assembly.bits[i]
  {
    ClearNone(e.assembly.bits);
    hide FragmentCount, Clear, Owner;
    i :| 0 <= i < |e.assembly.bits| && !e.assembly.bits[i];
  }

  /** In flight, in every state of every run: the data in transit is that of the sent
      commands and at most 65536 bytes, a window's counter is the number of its open
      commands and at most 4096, its bit says whether it is 0, and retried commands come
      first in the queue. */
  lemma InFlightAccounted(run: seq<System>, steps: seq<Step>, i: nat)
    requires IsRun(run, steps) && i < |run|
    ensures var s, flows := run[i].sender, run[i].flows;
      && s.inTransit == DataSum(s.sent) <= 65536
      && |s.channels| == |flows|
      && (forall k, w {:trigger s.channels[k].reliableWindows[w]} ::
           0 <= k < |flows| && 0 <= w < 16 && w < |s.channels[k].reliableWindows| ==>
            && s.channels[k].reliableWindows[w] == |OpenIn(flows[k], w)| <= 4096
            && (w in s.channels[k].used <==> s.channels[k].reliableWindows[w] > 0))
      && QueueOk(s.outgoing, |flows|) && AllAttempted(s.sent)
  {
    RunOk(run, steps, i);
    var s, flows := run[i].sender, run[i].flows;
    hide IsRun, Shapes, NothingLost, EndOk, MessageOk, AckOk, QueueOk, Apart, Disjoint, AllOk, AllAttempted;
    forall k, w | 0 <= k < |flows| && 0 <= w < 16 && w < |s.channels[k].reliableWindows|
      ensures s.channels[k].reliableWindows[w] == |OpenIn(flows[k], w)| <= 4096
      ensures w in s.channels[k].used <==> s.channels[k].reliableWindows[w] > 0
    {
      assert FlowOk(flows[k]) && CountersOk(s.channels[k], flows[k]);
      CounterBounded(flows[k], w);
    }
  }

  /** No step takes a receiving end back, or forward by more than 7 windows. */
  lemma CursorSteps(run: seq<System>, steps: seq<Step>, i: nat, k: nat)
    requires IsRun(run, steps) && i < |steps| && k < |run[i].ends|
    ensures k < |run[i + 1].ends|
    ensures run[i].ends[k].r <= run[i + 1].ends[k].r && Window(run[i + 1].ends[k].r) <= Window(run[i].ends[k].r) + 7
  {
    RunOk(run, steps, i);
    RunOk(run, steps, i + 1);
    StepIs(run, steps, i);
    var s, s1 := run[i], run[i + 1];
    hide IsRun, Shapes;
    Sizes(s);
    Sizes(s1);
    EndsStay(s, steps[i]);
    assert EndOk(s.ends[k], s.flows[k], s.packets[k]) && FlowOk(s.flows[k]);
    assert EndOk(s1.ends[k], s1.flows[k], s1.packets[k]);
    GatingHolds(s.ends[k], s.flows[k], s.packets[k]);
    if s1.ends[k] != s.ends[k] {
      InsideWindow(s1.ends[k].r, s1.flows[k].first);
    }
    hide SenderOk, Represents, HeldOk, LogOk, AllNarrow, Before, IsDue;
  }

  lemma StepIs(run: seq<System>, steps: seq<Step>, i: nat)
    requires IsRun(run, steps) && i < |steps|
    ensures Shapes(run[i]) && Enabled(run[i], steps[i]) && run[i + 1] == Next(run[i], steps[i])
  {
    hide Shapes, Enabled, Next, Initial;
    var _ := steps[i];
  }

  /** Only a message that comes changes an end, and it leaves the flows alone. */
  lemma EndsStay(sys: System, step: Step)
    requires Shapes(sys) && Enabled(sys, step)
    ensures var sys1 := Next(sys, step);
      sys1.ends == sys.ends
      || (sys1.flows == sys.flows && |sys1.ends| == |sys.ends|
          && forall k {:trigger sys1.ends[k]} :: 0 <= k < |sys.ends| ==> sys.ends[k].r <= sys1.ends[k].r)
  {
    hide Passed, TimedOut, QueuedAll, QueuedOwn, Acknowledged, Reaches, Entry, Cursor, Left;
    if step.Deliver? {
      DeliverIs(sys, step);
    }
  }

  /** The 16 bits that decide whether a message is taken: its own, or those of its packet's first
      fragment. */
  function Decides(m: Message): uint16 {
    if m.content.Part? then m.content.fragment.startSequenceNumber else m.sequence
  }

  /** Window arithmetic is sound: of every message that may arrive in any run, the receiver's
      16-bit tests decide what whole numbers would. */
  lemma NeverConfused(run: seq<System>, steps: seq<Step>, i: nat, m: Message)
    requires IsRun(run, steps) && i < |run| && m in run[i].wire && Alive(run[i].flows, m.channelID, m.number)
    ensures m.channelID < |run[i].ends| == |run[i].packets|
    ensures var end, ps, n := run[i].ends[m.channelID], run[i].packets[m.channelID], m.number;
      var s, incoming := StartOf(ps, n), end.inlet.incomingReliableSequenceNumber;
      && s <= n && (Accepts(Decides(m), incoming) <==> end.r <= s && Window(s) <= Window(end.r) + 6)
      && (Decides(m) == incoming <==> s == end.r)
      && (RefusesAck(m.sequence, incoming) <==> Window(n) == Window(end.r) + 7 || Window(n) + 8 == Window(end.r))
      && |end.dispatched| <= |ps| && end.r == Before(ps, |end.dispatched|) && Window(n) <= Window(end.r) + 7
  {
    RunOk(run, steps, i);
    var sys := run[i];
    Sizes(sys);
    var k := m.channelID;
    assert MessageOk(m, sys.flows) && EndOk(sys.ends[k], sys.flows[k], sys.packets[k]) && FlowOk(sys.flows[k]);
    hide *;
    assert MessageOk(m, sys.flows) && Alive(sys.flows, k, m.number);
    AliveIs(sys, m);
    MessagePlace(sys.ends[k], sys.flows[k], sys.packets[k], m);
    EndFacts(sys.ends[k], sys.flows[k], sys.packets[k]);
    PlaceFacts(sys.ends[k], sys.packets[k], m);
    TestsExact(m.number, sys.ends[k].r);
    DecidesWell(sys.ends[k], sys.packets[k], m);
  }

  lemma AliveIs(sys: System, m: Message)
    requires MessageOk(m, sys.flows) && Alive(sys.flows, m.channelID, m.number)
    ensures var f := sys.flows[m.channelID];
      && 1 <= m.number <= f.first <= |f.log| && m.sequence == Seq(m.number) && m.content == f.log[m.number - 1]
      && Window(f.first) <= Window(m.number) + 8
  {
  }

  lemma PlaceFacts(end: End, ps: seq<Parcel>, m: Message)
    requires Placed(end, ps, m)
    ensures StartOf(ps, m.number) <= m.number && m.sequence == Seq(m.number)
    ensures Window(end.r) <= Window(m.number) + 8 && Window(m.number) <= Window(end.r) + 7
  {
    hide HolderTo, Before, Parts, ParcelOk, ContentOf, Window, Seq;
  }

  lemma DecidesWell(end: End, ps: seq<Parcel>, m: Message)
    requires Placed(end, ps, m)
    ensures var s := StartOf(ps, m.number);
      && (Accepts(Decides(m), Seq(end.r)) <==> end.r <= s && Window(s) <= Window(end.r) + 6)
      && (Decides(m) == Seq(end.r) <==> s == end.r)
  {
    var s, n := StartOf(ps, m.number), m.number;
    hide Accepts, HolderTo, Before, Parts, ParcelOk, FragmentOf, Window, Seq;
    if m.content.Part? {
      PartIs(ps[Holder(ps, n)], s, n - s);
      StartTest(s, end.r);
    } else {
      TestsExact(n, end.r);
    }
  }

  /** Not everything is well: a command whose acknowledgements were all lost until the
      receiver was 8 windows further on is never acknowledged again, and as long as it is
      open the window after that cannot be begun. */
  lemma EightBehind(end: End, channel: Channel, f: Flow, ps: seq<Parcel>, m: Message, maximumPacketSize: nat,
                    full: bool, space: seq<uint8>, c: Command)
    requires EndOk(end, f, ps) && FlowOk(f) && CountersOk(channel, f) && Open(f, m.number)
    requires m.sequence == Seq(m.number) && m.number <= |f.log| && m.content == f.log[m.number - 1]
    requires |space| == Room(m.content) && Window(end.r) == Window(m.number) + 8
    requires c.sequence == Seq(c.number) && c.sendAttempts < 1 && c.number == f.first + 1
    requires c.number % WINDOW_SIZE == 0
    ensures Received(end, m, StartOf(ps, m.number), maximumPacketSize, full, space) == (end, false)
    ensures Blocked(channel, c)
  {
    RefusedBehind(end, f, ps, m, maximumPacketSize, full, space);
    GatingHolds(end, f, ps);
    hide EndOk, Received, Room;
    WindowOfSeq(c.number);
    SplitWindow(c.number);
    SplitWindow(f.first);
    WindowOfSeq(m.number);
    NineBack(Window(m.number), Window(c.number));
    assert m.number in OpenIn(f, Window(m.number) % WINDOWS);
    assert channel.reliableWindows[Window(m.number) % WINDOWS] == |OpenIn(f, Window(m.number) % WINDOWS)|;
    assert Window(m.number) % WINDOWS in channel.used * Mask(Window(c.number) % WINDOWS);
  }

  lemma RefusedBehind(end: End, f: Flow, ps: seq<Parcel>, m: Message, maximumPacketSize: nat, full: bool,
                      space: seq<uint8>)
    requires EndOk(end, f, ps) && FlowOk(f) && Open(f, m.number)
    requires m.sequence == Seq(m.number) && m.number <= |f.log| && m.content == f.log[m.number - 1]
    requires |space| == Room(m.content) && Window(end.r) == Window(m.number) + 8
    ensures Received(end, m, StartOf(ps, m.number), maximumPacketSize, full, space) == (end, false)
  {
    assert Window(f.first) <= Window(m.number) + 8 && f.first <= |f.log|;
    MessagePlace(end, f, ps, m);
    ReachesOk(end, f, ps, m, maximumPacketSize, full, space);
    EndFacts(end, f, ps);
    TestsExact(m.number, end.r);
    hide EndOk, FlowOk, Reaches, RefusesAck, HolderTo, Before, Parts, ContentOf, ParcelOk, Seq;
    if end.r < m.number {
      InsideWindow(end.r, m.number);
    }
  }
}
