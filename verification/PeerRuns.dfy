/** Every run of a host keeps the invariants of its peers. */
module PeerRuns {
  import Sums
  import opened PeerStates
  import opened PeerInvariants

  // ----- the dispatch queue -----

  lemma {:induction false} RemovedDistinct(queue: seq<nat>, i: nat)
    requires Distinct(queue)
    ensures Distinct(Removed(queue, i))
    decreases |queue|
  {
    if queue != [] {
      var rest := queue[1..];
      assert forall j {:trigger rest[j]} :: 0 <= j < |rest| ==> rest[j] == queue[j + 1];
      RemovedDistinct(rest, i);
      if queue[0] != i {
        var r := Removed(rest, i);
        assert queue[0] !in rest;
        assert forall j {:trigger ([queue[0]] + r)[j]} :: 1 <= j <= |r| ==>
          ([queue[0]] + r)[j] == r[j - 1] && r[j - 1] in r;
      }
    }
  }

  /** What the invariant says of one peer and the queue. */
  lemma PeerFacts(h: HostState, i: nat)
    requires Inv(h) && i < |h.peers|
    ensures MarkOk(h.peers[i]) && AnnouncedOk(h.peers[i]) && Distinct(h.dispatchQueue)
    ensures h.peers[i].needsDispatch <==> i in h.dispatchQueue
    ensures QueueNet(h.dispatchQueue, h.dispatchQueue, i, h.peers[i].needsDispatch)
    ensures QueueNet(h.dispatchQueue, Removed(h.dispatchQueue, i), i, false)
    ensures !h.peers[i].needsDispatch ==> QueueNet(h.dispatchQueue, h.dispatchQueue + [i], i, true)
    ensures QueueNet(h.dispatchQueue, Removed(h.dispatchQueue, i) + [i], i, true)
  {
    RemovedDistinct(h.dispatchQueue, i);
    AppendDistinct(Removed(h.dispatchQueue, i), i);
    if i !in h.dispatchQueue { AppendDistinct(h.dispatchQueue, i); }
    hide EventsOk, CountersOk, MarkOk, AnnouncedOk;
    var _ := h.peers[i];
    AnnouncedHere(h, i);
  }

  lemma AnnouncedHere(h: HostState, i: nat)
    requires Inv(h) && i < |h.peers|
    ensures AnnouncedOk(h.peers[i])
  {
    hide CountersOk, QueueOk, AnnouncedOk;
  }

  lemma AppendDistinct(queue: seq<nat>, i: nat)
    requires Distinct(queue) && i !in queue
    ensures Distinct(queue + [i])
  {
    assert forall j :: 0 <= j < |queue| ==> queue[j] in queue;
  }

  /** Taking the first peer off the queue. */
  lemma FirstRemoved(queue: seq<nat>)
    requires Distinct(queue) && queue != []
    ensures Removed(queue, queue[0]) == queue[1..]
  {
    NotThere(queue[1..], queue[0]);
  }

  lemma {:induction false} NotThere(queue: seq<nat>, i: nat)
    requires i !in queue
    ensures Removed(queue, i) == queue
    decreases |queue|
  {
    if queue != [] {
      NotThere(queue[1..], i);
    }
  }

  lemma {:induction false} RemovedMore(queue: seq<nat>, i: nat)
    requires i !in queue
    ensures Removed(queue + [i], i) == queue
    decreases |queue|
  {
    if queue == [] {
      assert ([] + [i])[1..] == [];
    } else {
      assert (queue + [i])[1..] == queue[1..] + [i];
      RemovedMore(queue[1..], i);
    }
  }

  // ----- the steps, one by one -----

  /** A peer that has had all that arrived on its connection, or has it ready. */
  predicate Live(p: Peer) { Unconnected(p.state) || InData(p.state) || p.dispatchedCommands != [] }

  /** No packet is handed over, and what is ready stays, unless it is dropped with all the rest. */
  ghost predicate NoneHanded(h: HostState, h1: HostState, i: nat)
    requires i < |h.peers| == |h1.peers|
  {
    var p, p1 := h.peers[i], h1.peers[i];
    && (h1.events == h.events || (|h1.events| == |h.events| + 1 && !IsPacket(h1.events[|h.events|].kind)))
    && (p1.dispatchedCommands == p.dispatchedCommands || p1.dispatchedCommands == [])
    && (p1.epoch != p.epoch ==> p1.epoch == p.epoch + 1 && p1.dispatchedCommands == [])
    && (p1.epoch == p.epoch && Live(p1) ==> Live(p) && p1.dispatchedCommands == p.dispatchedCommands)
  }

  /** The first packet that is ready is handed over. */
  ghost predicate FirstHanded(h: HostState, h1: HostState, i: nat)
    requires i < |h.peers| == |h1.peers|
  {
    var p, p1 := h.peers[i], h1.peers[i];
    && |h1.events| == |h.events| + 1 && p1.epoch == p.epoch && p1.state == p.state
    && var e := h1.events[|h.events|];
       && IsPacket(e.kind) && e.slot == i && e.epoch == p.epoch
       && p.dispatchedCommands == [e.kind.packet] + p1.dispatchedCommands
  }

  /** A step that changes peer `i`, with what it hands over of the packets. */
  ghost predicate Hands(h: HostState, h1: HostState, i: nat) {
    && Net(h, h1, i) && h.events <= h1.events
    && (NoneHanded(h, h1, i) || FirstHanded(h, h1, i))
  }

  lemma SameNet(h: HostState, h1: HostState, i: nat)
    requires Inv(h) && i < |h.peers| && h1 == h
    ensures Hands(h, h1, i)
  {
    PeerFacts(h, i);
    assert h.peers[i := h.peers[i]] == h.peers;
    hide Inv, MarkOk, AnnouncedOk, QueueNet;
  }

  lemma BegunNet(h: HostState, i: nat, s: State, incomingBandwidth: nat, eventData: nat)
    requires Inv(h) && i < |h.peers| && h.peers[i].state.Disconnected? && (s.Connecting? || s.AcknowledgingConnect?)
    ensures Hands(h, With(h, i, Begun(h.peers[i], s, incomingBandwidth, eventData)), i)
  {
    PeerFacts(h, i);
    hide Inv, QueueNet;
  }

  lemma ConnectNet(h: HostState, i: nat, incomingBandwidth: nat, event: bool)
    requires Inv(h) && i < |h.peers| && (h.peers[i].state.Connecting? || h.peers[i].state.AcknowledgingConnect?)
    ensures Hands(h, NotifyConnect(With(h, i, h.peers[i].(incomingBandwidth := incomingBandwidth)), i, event), i)
  {
    PeerFacts(h, i);
    hide Inv, QueueNet, Removed;
    var h1 := NotifyConnect(With(h, i, h.peers[i].(incomingBandwidth := incomingBandwidth)), i, event);
    if event {
      var e := Event(i, h.peers[i].epoch, Connect, h.peers[i].eventData);
      assert h1.events == h.events + [e];
    }
  }

  /** The peer is marked for dispatch in a new state. */
  lemma ZombieNet(h: HostState, i: nat, data: nat)
    requires Inv(h) && i < |h.peers| && !h.peers[i].state.Disconnected?
    ensures Hands(h, DispatchState(With(h, i, h.peers[i].(eventData := data)), i, Zombie), i)
    ensures Hands(h, DispatchState(With(h, i, h.peers[i].(owesDisconnect := false)), i, Zombie), i)
  {
    MarkedZombieNet(h, i, h.peers[i].(eventData := data));
    MarkedZombieNet(h, i, h.peers[i].(owesDisconnect := false));
  }

  lemma MarkedZombieNet(h: HostState, i: nat, p: Peer)
    requires Inv(h) && i < |h.peers| && !h.peers[i].state.Disconnected?
    requires p == h.peers[i].(eventData := p.eventData, owesDisconnect := p.owesDisconnect)
    ensures Hands(h, DispatchState(With(h, i, p), i, Zombie), i)
  {
    PeerFacts(h, i);
    hide Inv, QueueNet, Removed;
  }

  lemma ResetNet(h: HostState, i: nat)
    requires Inv(h) && i < |h.peers|
    ensures Hands(h, Reset(h, i), i)
    ensures Hands(h, Reset(h.(recalculateBandwidthLimits := true), i), i)
  {
    PeerFacts(h, i);
    hide Inv, QueueNet, Removed;
  }

  lemma ResetTwiceNet(h: HostState, i: nat)
    requires Inv(h) && i < |h.peers|
    ensures Hands(h, Reset(ResetQueues(h, i), i), i)
    ensures Hands(h, Reset(ResetQueues(h, i).(recalculateBandwidthLimits := true), i), i)
  {
    PeerFacts(h, i);
    hide Inv, QueueNet, Removed;
  }

  /** A disconnect is reported and the slot reset at once. */
  lemma ReportResetNet(h: HostState, h0: HostState, i: nat, data: nat)
    requires Inv(h) && i < |h.peers| && !h.peers[i].state.Disconnected?
    requires h0 == h || h0 == h.(recalculateBandwidthLimits := true)
    ensures Hands(h, Reset(Reported(h0, i, Disconnect, data), i), i)
  {
    PeerFacts(h, i);
    hide Inv, QueueNet, Removed;
    var e := Event(i, h.peers[i].epoch, Disconnect, data);
    assert Reset(Reported(h0, i, Disconnect, data), i).events == h.events + [e];
  }

  lemma NotifyDisconnectNet(h: HostState, i: nat, event: bool)
    requires Inv(h) && i < |h.peers| && !h.peers[i].state.Disconnected?
    ensures Hands(h, NotifyDisconnect(h, i, event), i)
  {
    hide Inv, Hands, Reset, Reported, DispatchState;
    ResetNet(h, i);
    ReportResetNet(h, h, i, 0);
    ReportResetNet(h, h.(recalculateBandwidthLimits := true), i, 0);
    ZombieNet(h, i, 0);
    RecalculateNet(h, DispatchState(With(h, i, h.peers[i].(eventData := 0)), i, Zombie), i);
    RecalculateLater(h, i, h.peers[i].(eventData := 0));
  }

  lemma RecalculateLater(h: HostState, i: nat, p: Peer)
    requires i < |h.peers|
    ensures DispatchState(With(h.(recalculateBandwidthLimits := true), i, p), i, Zombie)
         == DispatchState(With(h, i, p), i, Zombie).(recalculateBandwidthLimits := true)
  {
  }

  lemma RecalculateNet(h: HostState, h1: HostState, i: nat)
    requires Hands(h, h1, i)
    ensures Hands(h, h1.(recalculateBandwidthLimits := true), i)
  {
    hide MarkOk, AnnouncedOk, QueueNet, Counts, CountsLimited;
    var h2 := h1.(recalculateBandwidthLimits := true);
    if !(h1.events == h.events) {
      var kind, data :| h1.events == h.events + [Event(i, h.peers[i].epoch, kind, data)]
        && h1.peers[i].epoch == h.peers[i].epoch && !h.peers[i].state.Disconnected? && (
          match kind
          case Connect => !h.peers[i].announced && h1.peers[i].announced && !h1.peers[i].state.Disconnected?
          case Disconnect => h1.peers[i].announced == h.peers[i].announced && h1.peers[i].state.Disconnected?
          case _ => h.peers[i].announced && h1.peers[i].announced && !h1.peers[i].state.Disconnected?);
      var e := Event(i, h.peers[i].epoch, kind, data);
      assert h2.events == h.events + [e];
    }
  }

  lemma PeerDisconnectNet(h: HostState, i: nat)
    requires Inv(h) && i < |h.peers|
    ensures Hands(h, PeerDisconnect(h, i), i)
  {
    PeerFacts(h, i);
    ResetTwiceNet(h, i);
    SameNet(h, h, i);
    hide Inv, QueueNet, Removed, Reset;
  }

  /** The peer's queues are cleared and it becomes a zombie, with the other side's data. */
  lemma ClearedZombieNet(h: HostState, i: nat, data: nat)
    requires Inv(h) && i < |h.peers| && !h.peers[i].state.Disconnected?
    ensures |DispatchState(ResetQueues(h, i), i, Zombie).peers| == |h.peers|
    ensures var h2 := DispatchState(ResetQueues(h, i), i, Zombie);
      h2.peers[i].state.Zombie? && Hands(h, With(h2, i, h2.peers[i].(eventData := data)), i)
  {
    PeerFacts(h, i);
    hide Inv, QueueNet, Removed;
  }

  lemma ClearedAcknowledgingNet(h: HostState, i: nat, data: nat)
    requires Inv(h) && i < |h.peers| && InData(h.peers[i].state)
    ensures |ChangeState(ResetQueues(h, i), i, AcknowledgingDisconnect).peers| == |h.peers|
    ensures var h2 := ChangeState(ResetQueues(h, i), i, AcknowledgingDisconnect);
      h2.peers[i].state.AcknowledgingDisconnect? && Hands(h, With(h2, i, h2.peers[i].(eventData := data)), i)
  {
    PeerFacts(h, i);
    hide Inv, QueueNet, Removed;
  }

  lemma HandleDisconnectNet(h: HostState, i: nat, acknowledges: bool, data: nat)
    requires Inv(h) && i < |h.peers|
    ensures Hands(h, HandleDisconnect(h, i, acknowledges, data), i)
  {
    hide Inv, Hands, Reset, ResetQueues, DispatchState, ChangeState;
    var s := h.peers[i].state;
    if s.Disconnected? || s.Zombie? || s.AcknowledgingDisconnect? {
      SameNet(h, h, i);
    } else {
      ResetQueuesKeeps(h, i);
      ClearedZombieNet(h, i, data);
      ResetTwiceNet(h, i);
      ResetEnds(ResetQueues(h, i), i);
      ResetEnds(ResetQueues(h, i).(recalculateBandwidthLimits := true), i);
      if InData(s) { ClearedAcknowledgingNet(h, i, data); }
    }
  }

  lemma ResetEnds(h: HostState, i: nat)
    requires i < |h.peers|
    ensures |Reset(h, i).peers| == |h.peers| && Reset(h, i).peers[i].state.Disconnected?
  {
  }

  lemma BandwidthNet(h: HostState, i: nat, incomingBandwidth: nat)
    requires Inv(h) && i < |h.peers|
    ensures Hands(h, HandleBandwidthLimit(h, i, incomingBandwidth), i)
  {
    PeerFacts(h, i);
    SameNet(h, h, i);
    hide Inv, QueueNet, Removed;
  }

  lemma ArrivedNet(h: HostState, i: nat, packets: seq<nat>)
    requires Inv(h) && i < |h.peers|
    ensures Net(h, Arrived(h, i, packets), i)
  {
    PeerFacts(h, i);
    SameNet(h, h, i);
    hide Inv, QueueNet, Removed;
  }

  lemma SmallNets(h: HostState, i: nat, data: nat)
    requires Inv(h) && i < |h.peers|
    ensures Hands(h, OwesDisconnect(h, i), i)
    ensures InData(h.peers[i].state) ==>
      Hands(h, With(h, i, h.peers[i].(state := DisconnectLater, eventData := data)), i)
  {
    PeerFacts(h, i);
    SameNet(h, h, i);
    hide Inv, QueueNet, Removed;
  }

  lemma TakeNet(h: HostState, i: nat)
    requires Inv(h) && i < |h.peers|
    ensures Hands(h, PeerReceive(h, i), i)
  {
    PeerFacts(h, i);
    SameNet(h, h, i);
    hide Inv, QueueNet, Removed;
    var p := h.peers[i];
    if p.dispatchedCommands != [] {
      assert PeerReceive(h, i).events == h.events + [Event(i, p.epoch, Taken(p.dispatchedCommands[0]), 0)];
    }
  }

  /** A peer taken off the queue, its mark cleared. */
  function Unmarked(h: HostState, i: nat): HostState
    requires i < |h.peers| && h.dispatchQueue != []
  {
    With(h.(dispatchQueue := h.dispatchQueue[1..]), i, h.peers[i].(needsDispatch := false))
  }

  lemma FirstFacts(h: HostState, i: nat)
    requires Inv(h) && h.dispatchQueue != [] && i == h.dispatchQueue[0] && i < |h.peers|
    ensures MarkOk(h.peers[i]) && AnnouncedOk(h.peers[i])
    ensures QueueNet(h.dispatchQueue, h.dispatchQueue[1..], i, false)
    ensures QueueNet(h.dispatchQueue, h.dispatchQueue[1..] + [i], i, true)
    ensures Removed(h.dispatchQueue[1..], i) == h.dispatchQueue[1..]
  {
    FirstIsPeer(h);
    PeerFacts(h, i);
    FirstRemoved(h.dispatchQueue);
    NotThere(h.dispatchQueue[1..], i);
  }

  lemma ConnectedNet(h: HostState, i: nat)
    requires Inv(h) && h.dispatchQueue != [] && i == h.dispatchQueue[0] && i < |h.peers|
    requires h.peers[i].state.ConnectionPending? || h.peers[i].state.ConnectionSucceeded?
    ensures Hands(h, Reported(ChangeState(Unmarked(h, i), i, Connected), i, Connect, h.peers[i].eventData), i)
  {
    FirstFacts(h, i);
    hide Inv, QueueNet, Removed;
    var e := Event(i, h.peers[i].epoch, Connect, h.peers[i].eventData);
    assert Reported(ChangeState(Unmarked(h, i), i, Connected), i, Connect, h.peers[i].eventData).events
      == h.events + [e];
  }

  lemma DisconnectedNet(h: HostState, i: nat)
    requires Inv(h) && h.dispatchQueue != [] && i == h.dispatchQueue[0] && i < |h.peers| && h.peers[i].state.Zombie?
    ensures Hands(h, Reset(Reported(Unmarked(h, i).(recalculateBandwidthLimits := true), i, Disconnect,
                                  h.peers[i].eventData), i), i)
  {
    FirstFacts(h, i);
    hide Inv, QueueNet, Removed;
    var e := Event(i, h.peers[i].epoch, Disconnect, h.peers[i].eventData);
    assert Reset(
        Reported(Unmarked(h, i).(recalculateBandwidthLimits := true), i, Disconnect, h.peers[i].eventData), i).events
        == h.events + [e];
  }

  lemma ReceivedNet(h: HostState, i: nat)
    requires Inv(h) && h.dispatchQueue != [] && i == h.dispatchQueue[0] && i < |h.peers|
    requires h.peers[i].state.Connected? && h.peers[i].dispatchedCommands != []
    ensures |Unmarked(h, i).peers| == |h.peers|
    ensures var p := Unmarked(h, i).peers[i];
      p.dispatchedCommands != [] &&
      var h2 := Reported(With(Unmarked(h, i), i, p.(dispatchedCommands := p.dispatchedCommands[1..])), i,
                         Receive(p.dispatchedCommands[0]), 0);
      |h2.peers| == |h.peers| && Hands(h, if p.dispatchedCommands[1..] != [] then Enqueued(h2, i) else h2, i)
  {
    FirstFacts(h, i);
    hide Inv, QueueNet, Removed;
    var p := Unmarked(h, i).peers[i];
    var h2 := Reported(With(Unmarked(h, i), i, p.(dispatchedCommands := p.dispatchedCommands[1..])), i,
                       Receive(p.dispatchedCommands[0]), 0);
    var e := Event(i, h.peers[i].epoch, Receive(p.dispatchedCommands[0]), 0);
    assert h2.events == h.events + [e] && Enqueued(h2, i).events == h.events + [e];
  }

  lemma UnmarkedNet(h: HostState, i: nat)
    requires Inv(h) && h.dispatchQueue != [] && i == h.dispatchQueue[0] && i < |h.peers|
    requires !MustDispatch(h.peers[i].state) && !(h.peers[i].state.Connected? && h.peers[i].dispatchedCommands != [])
    ensures Hands(h, Unmarked(h, i), i)
  {
    FirstFacts(h, i);
    hide Inv, QueueNet, Removed;
  }

  /** Dispatching the first peer of the queue. */
  lemma DispatchFirstNet(h: HostState)
    requires Inv(h) && h.dispatchQueue != []
    ensures h.dispatchQueue[0] < |h.peers| && Hands(h, DispatchFirst(h).0, h.dispatchQueue[0])
  {
    hide Inv, Hands, Reported, ChangeState, Reset, Enqueued;
    FirstIsPeer(h);
    var i := h.dispatchQueue[0];
    var p := h.peers[i];
    if p.state.ConnectionPending? || p.state.ConnectionSucceeded? {
      ConnectedNet(h, i);
    } else if p.state.Zombie? {
      DisconnectedNet(h, i);
    } else if p.state.Connected? && p.dispatchedCommands != [] {
      ReceivedNet(h, i);
    } else {
      UnmarkedNet(h, i);
    }
  }

  lemma FirstIsPeer(h: HostState)
    requires Inv(h) && h.dispatchQueue != []
    ensures QueueInside(h) && h.dispatchQueue[0] < |h.peers| && h.dispatchQueue[0] !in h.dispatchQueue[1..]
  {
    var q := h.dispatchQueue;
    assert forall k {:trigger q[k]} :: 0 <= k < |q| ==> q[k] in q;
    hide CountersOk, EventsOk;
  }

  // ----- runs -----

  datatype Step =
    | HostConnect | HostAccept(incomingBandwidth: nat, data: nat)
    | VerifyConnect(slot: nat, valid: bool, incomingBandwidth: nat, event: bool)
    | Acknowledge(slot: nat, acked: Acked, drained: bool, event: bool)
    | DisconnectArrives(slot: nat, acknowledges: bool, data: nat)
    | OwesAcknowledgement(slot: nat) | AcknowledgeDisconnect(slot: nat)
    | BandwidthLimit(slot: nat, incomingBandwidth: nat)
    | Packets(slot: nat, packets: seq<nat>)
    | TimeOut(slot: nat, event: bool)
    | DispatchEvents
    | AskDisconnect(slot: nat) | AskDisconnectNow(slot: nat) | AskDisconnectLater(slot: nat, drained: bool, data: nat)
    | AskReset(slot: nat) | Take(slot: nat)

  /** A slot that exists; a timeout is checked for a peer that was not disconnected when its turn
      to send began (it may have become a zombie in that turn). */
  ghost predicate Enabled(h: HostState, step: Step) {
    && QueueInside(h)
    && match step
       case HostConnect => true
       case HostAccept(_, _) => true
       case DispatchEvents => true
       case TimeOut(i, _) => i < |h.peers| && !h.peers[i].state.Disconnected?
       case _ => step.slot < |h.peers|
  }

  ghost function Next(h: HostState, step: Step): HostState
    requires Enabled(h, step)
  {
    match step
    case HostConnect =>
      var i := FreeSlot(h.peers);
      if i == |h.peers| then h else With(h, i, Begun(h.peers[i], Connecting, 0, 0))
    case HostAccept(incomingBandwidth, data) =>
      var i := FreeSlot(h.peers);
      if i == |h.peers| then h else With(h, i, Begun(h.peers[i], AcknowledgingConnect, incomingBandwidth, data))
    case VerifyConnect(i, valid, incomingBandwidth, event) => HandleVerifyConnect(h, i, valid, incomingBandwidth, event)
    case Acknowledge(i, acked, drained, event) => HandleAcknowledge(h, i, acked, drained, event)
    case DisconnectArrives(i, acknowledges, data) => HandleDisconnect(h, i, acknowledges, data)
    case OwesAcknowledgement(i) => OwesDisconnect(h, i)
    case AcknowledgeDisconnect(i) => SendDisconnectAcknowledgement(h, i)
    case BandwidthLimit(i, incomingBandwidth) => HandleBandwidthLimit(h, i, incomingBandwidth)
    case Packets(i, packets) => Arrived(h, i, packets)
    case TimeOut(i, event) => NotifyDisconnect(h, i, event)
    case DispatchEvents => Dispatch(h).0
    case AskDisconnect(i) => PeerDisconnect(h, i)
    case AskDisconnectNow(i) => PeerDisconnectNow(h, i)
    case AskDisconnectLater(i, drained, data) => PeerDisconnectLater(h, i, drained, data)
    case AskReset(i) => Reset(h, i)
    case Take(i) => PeerReceive(h, i)
  }

  lemma {:induction false} DispatchKeeps(h: HostState)
    requires Inv(h) && QueueInside(h)
    ensures Inv(Dispatch(h).0)
    decreases |h.dispatchQueue|
  {
    hide Inv, DispatchFirst, Hands;
    if h.dispatchQueue != [] {
      DispatchFirstNet(h);
      HandsKeeps(h, DispatchFirst(h).0, h.dispatchQueue[0]);
      FirstInside(h);
      if !DispatchFirst(h).1 {
        DispatchKeeps(DispatchFirst(h).0);
      }
    }
  }

  lemma BeginKeeps(h: HostState, s: State, incomingBandwidth: nat, data: nat)
    requires Inv(h) && (s.Connecting? || s.AcknowledgingConnect?)
    ensures var i := FreeSlot(h.peers);
      i < |h.peers| ==> Inv(With(h, i, Begun(h.peers[i], s, incomingBandwidth, data)))
  {
    hide Inv, Hands;
    var i := FreeSlot(h.peers);
    if i < |h.peers| {
      BegunNet(h, i, s, incomingBandwidth, data);
      HandsKeeps(h, With(h, i, Begun(h.peers[i], s, incomingBandwidth, data)), i);
    }
  }

  lemma VerifyConnectNet(h: HostState, i: nat, valid: bool, incomingBandwidth: nat, event: bool)
    requires Inv(h) && i < |h.peers|
    ensures Hands(h, HandleVerifyConnect(h, i, valid, incomingBandwidth, event), i)
  {
    hide Inv, Hands, DispatchState, NotifyConnect;
    SameNet(h, h, i);
    if h.peers[i].state.Connecting? {
      ZombieNet(h, i, 0);
      ConnectNet(h, i, incomingBandwidth, event);
    }
  }

  lemma AcknowledgeNet(h: HostState, i: nat, acked: Acked, drained: bool, event: bool)
    requires Inv(h) && i < |h.peers|
    ensures Hands(h, HandleAcknowledge(h, i, acked, drained, event), i)
  {
    hide Inv, Hands, NotifyConnect, NotifyDisconnect, PeerDisconnect;
    SameNet(h, h, i);
    PeerDisconnectNet(h, i);
    if h.peers[i].state.AcknowledgingConnect? {
      ConnectNet(h, i, h.peers[i].incomingBandwidth, event);
      assert h.peers[i := h.peers[i]] == h.peers;
    } else if h.peers[i].state.Disconnecting? {
      NotifyDisconnectNet(h, i, event);
    }
  }

  lemma AcknowledgeDisconnectNet(h: HostState, i: nat)
    requires Inv(h) && i < |h.peers|
    ensures Hands(h, SendDisconnectAcknowledgement(h, i), i)
  {
    PeerFacts(h, i);
    hide Inv, Hands, DispatchState, AnnouncedOk, QueueNet;
    SameNet(h, h, i);
    if h.peers[i].owesDisconnect {
      ZombieNet(h, i, 0);
    }
  }

  lemma DisconnectNowNet(h: HostState, i: nat)
    requires Inv(h) && i < |h.peers|
    ensures Hands(h, PeerDisconnectNow(h, i), i)
  {
    hide Inv, Hands, Reset, ResetQueues;
    SameNet(h, h, i);
    ResetNet(h, i);
    ResetQueuesKeeps(h, i);
    ResetTwiceNet(h, i);
  }

  lemma DisconnectLaterNet(h: HostState, i: nat, drained: bool, data: nat)
    requires Inv(h) && i < |h.peers|
    ensures Hands(h, PeerDisconnectLater(h, i, drained, data), i)
  {
    hide Inv, Hands, PeerDisconnect;
    PeerDisconnectNet(h, i);
    SmallNets(h, i, data);
  }

  /** Every step on one slot, but for packets that become ready. */
  lemma StepHands(h: HostState, step: Step)
    requires Inv(h) && Enabled(h, step)
    requires !step.HostConnect? && !step.HostAccept? && !step.DispatchEvents? && !step.Packets?
    ensures Hands(h, Next(h, step), step.slot)
  {
    hide Inv, Hands, QueueInside, HandleVerifyConnect, HandleAcknowledge, HandleDisconnect, OwesDisconnect,
      SendDisconnectAcknowledgement, HandleBandwidthLimit, NotifyDisconnect, PeerDisconnect, PeerDisconnectNow,
      PeerDisconnectLater, Reset, PeerReceive;
    match step
    case VerifyConnect(i, valid, bandwidth, event) => VerifyConnectNet(h, i, valid, bandwidth, event);
    case Acknowledge(i, acked, drained, event) => AcknowledgeNet(h, i, acked, drained, event);
    case DisconnectArrives(i, acknowledges, data) => HandleDisconnectNet(h, i, acknowledges, data);
    case OwesAcknowledgement(i) => SmallNets(h, i, 0);
    case AcknowledgeDisconnect(i) => AcknowledgeDisconnectNet(h, i);
    case BandwidthLimit(i, bandwidth) => BandwidthNet(h, i, bandwidth);
    case TimeOut(i, event) => NotifyDisconnectNet(h, i, event);
    case AskDisconnect(i) => PeerDisconnectNet(h, i);
    case AskDisconnectNow(i) => DisconnectNowNet(h, i);
    case AskDisconnectLater(i, drained, data) => DisconnectLaterNet(h, i, drained, data);
    case AskReset(i) => ResetNet(h, i);
    case Take(i) => TakeNet(h, i);
  }

  lemma HandsKeeps(h: HostState, h1: HostState, i: nat)
    requires Inv(h) && Hands(h, h1, i)
    ensures Inv(h1)
  {
    hide Inv, Net;
    NetKeeps(h, h1, i);
  }

  lemma StepKeeps(h: HostState, step: Step)
    requires Inv(h) && Enabled(h, step)
    ensures Inv(Next(h, step))
  {
    hide Inv, Net, Hands, QueueInside, Begun, HandleVerifyConnect, HandleAcknowledge, HandleDisconnect, OwesDisconnect,
      SendDisconnectAcknowledgement, HandleBandwidthLimit, Arrived, NotifyDisconnect, Dispatch, PeerDisconnect,
      PeerDisconnectNow, PeerDisconnectLater, Reset, PeerReceive, With;
    match step
    case HostConnect => BeginKeeps(h, Connecting, 0, 0);
    case HostAccept(incomingBandwidth, data) => BeginKeeps(h, AcknowledgingConnect, incomingBandwidth, data);
    case DispatchEvents => DispatchKeeps(h);
    case Packets(i, packets) => ArrivedNet(h, i, packets); NetKeeps(h, Next(h, step), i);
    case _ => StepHands(h, step); HandsKeeps(h, Next(h, step), step.slot);
  }

  ghost predicate IsRun(run: seq<HostState>, steps: seq<Step>) {
    && |run| == |steps| + 1
    && (forall i {:trigger run[0].peers[i]} :: 0 <= i < |run[0].peers| ==> run[0].peers[i] == FreshPeer())
    && run[0] == HostState(run[0].peers, [], 0, 0, false, [])
    && forall k {:trigger steps[k]} :: 0 <= k < |steps| ==>
         Enabled(run[k], steps[k]) && run[k + 1] == Next(run[k], steps[k])
  }

  /** In every state of every run the counters are the counts over the peers, and the
      dispatch queue holds exactly the marked peers, each once. */
  lemma {:induction false} RunOk(run: seq<HostState>, steps: seq<Step>, k: nat)
    requires IsRun(run, steps) && k < |run|
    ensures Inv(run[k])
    decreases k
  {
    if k == 0 {
      FreshOk(run[0]);
    } else {
      RunOk(run, steps, k - 1);
      hide Inv, Next, Enabled;
      assert run[k - 1 + 1] == Next(run[k - 1], steps[k - 1]);
      StepKeeps(run[k - 1], steps[k - 1]);
    }
  }

  lemma FreshOk(h: HostState)
    requires forall i {:trigger h.peers[i]} :: 0 <= i < |h.peers| ==> h.peers[i] == FreshPeer()
    requires h == HostState(h.peers, [], 0, 0, false, [])
    ensures Inv(h)
  {
    NoneCounted(h.peers);
  }

  lemma {:induction false} NoneCounted(peers: seq<Peer>)
    requires forall i {:trigger peers[i]} :: 0 <= i < |peers| ==> peers[i] == FreshPeer()
    ensures Sums.Count(peers, p => Counts(p)) == 0 && Sums.Count(peers, p => CountsLimited(p)) == 0
    decreases |peers|
  {
    if peers != [] {
      NoneCounted(peers[..|peers| - 1]);
    }
  }

  /** In every run, no packet of a connection is reported before the connection or after its
      end, a connection is reported at most once and before anything else of it, and its end
      at most once. */
  lemma EventsInOrder(run: seq<HostState>, steps: seq<Step>, k: nat, n: nat)
    requires IsRun(run, steps) && k < |run| && n < |run[k].events|
    ensures InOrder(run[k].events, n)
  {
    RunOk(run, steps, k);
    hide IsRun, CountersOk, QueueOk;
  }
}
