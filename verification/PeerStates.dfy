/** The states of a host's peers, the counters and the dispatch queue that follow them, and
    the events a host reports. */
module PeerStates {
  import opened Words

  datatype State =
    | Disconnected | Connecting | AcknowledgingConnect | ConnectionPending | ConnectionSucceeded
    | Connected | DisconnectLater | Disconnecting | AcknowledgingDisconnect | Zombie

  /** What of a peer bears on its state.  `epoch` counts the connections of this slot and
      `announced` says whether the present one was reported; both are history, and nothing
      decides on them. */
  datatype Peer = Peer(
    state: State, incomingBandwidth: nat, eventData: nat, needsDispatch: bool, dispatchedCommands: seq<nat>,
    owesDisconnect: bool, epoch: nat, announced: bool)

  /** A packet is reported, or taken by the application of its own accord. */
  datatype Kind = Connect | Disconnect | Receive(packet: nat) | Taken(packet: nat)

  /** An event, as the application sees it, with the connection it belongs to. */
  datatype Event = Event(slot: nat, epoch: nat, kind: Kind, data: nat)

  /** `events` is the history of everything reported and taken. */
  datatype HostState = HostState(
    peers: seq<Peer>, dispatchQueue: seq<nat>, connectedPeers: int, bandwidthLimitedPeers: int,
    recalculateBandwidthLimits: bool, events: seq<Event>)

  predicate InData(s: State) { s.Connected? || s.DisconnectLater? }

  function With(h: HostState, i: nat, p: Peer): HostState
    requires i < |h.peers|
  {
    h.(peers := h.peers[i := p])
  }

  function One(b: bool): int { if b then 1 else 0 }

  // ----- counters -----

  function OnConnect(h: HostState, i: nat): HostState
    requires i < |h.peers|
  {
    var p := h.peers[i];
    if InData(p.state) then h
    else h.(bandwidthLimitedPeers := h.bandwidthLimitedPeers + One(p.incomingBandwidth != 0),
            connectedPeers := h.connectedPeers + 1)
  }

  function OnDisconnect(h: HostState, i: nat): HostState
    requires i < |h.peers|
  {
    var p := h.peers[i];
    if !InData(p.state) then h
    else h.(bandwidthLimitedPeers := h.bandwidthLimitedPeers - One(p.incomingBandwidth != 0),
            connectedPeers := h.connectedPeers - 1)
  }

  function ChangeState(h: HostState, i: nat, s: State): HostState
    requires i < |h.peers|
  {
    var h1 := if InData(s) then OnConnect(h, i) else OnDisconnect(h, i);
    With(h1, i, h1.peers[i].(state := s))
  }

  // ----- the dispatch queue -----

  /** The queue without a peer. */
  function Removed(queue: seq<nat>, i: nat): (r: seq<nat>)
    ensures forall j :: j in r <==> j in queue && j != i
    decreases |queue|
  {
    if queue == [] then []
    else if queue[0] == i then Removed(queue[1..], i)
    else [queue[0]] + Removed(queue[1..], i)
  }

  function Enqueued(h: HostState, i: nat): HostState
    requires i < |h.peers|
  {
    if h.peers[i].needsDispatch then h
    else With(h.(dispatchQueue := h.dispatchQueue + [i]), i, h.peers[i].(needsDispatch := true))
  }

  function DispatchState(h: HostState, i: nat, s: State): HostState
    requires i < |h.peers|
  {
    Enqueued(ChangeState(h, i, s), i)
  }

  // ----- resetting -----

  function ResetQueues(h: HostState, i: nat): HostState
    requires i < |h.peers|
  {
    var h1 := if h.peers[i].needsDispatch then h.(dispatchQueue := Removed(h.dispatchQueue, i)) else h;
    With(h1, i, h1.peers[i].(needsDispatch := false, dispatchedCommands := [], owesDisconnect := false))
  }

  function Reset(h: HostState, i: nat): HostState
    requires i < |h.peers|
  {
    var h1 := OnDisconnect(h, i);
    ResetQueues(With(h1, i, h1.peers[i].(state := Disconnected, incomingBandwidth := 0, eventData := 0)), i)
  }

  // ----- events -----

  /** An event is reported; a connection's first one is remembered. */
  function Reported(h: HostState, i: nat, kind: Kind, data: nat): HostState
    requires i < |h.peers|
  {
    var p := h.peers[i];
    With(h.(events := h.events + [Event(i, p.epoch, kind, data)]), i, p.(announced := p.announced || kind.Connect?))
  }

  function NotifyConnect(h: HostState, i: nat, event: bool): HostState
    requires i < |h.peers|
  {
    var h1 := h.(recalculateBandwidthLimits := true);
    if event then Reported(ChangeState(h1, i, Connected), i, Connect, h1.peers[i].eventData)
    else DispatchState(h1, i, if h1.peers[i].state.Connecting? then ConnectionSucceeded else ConnectionPending)
  }

  predicate AtLeastPending(s: State) {
    !(s.Disconnected? || s.Connecting? || s.AcknowledgingConnect?)
  }

  function NotifyDisconnect(h: HostState, i: nat, event: bool): HostState
    requires i < |h.peers|
  {
    var s := h.peers[i].state;
    var h1 := if AtLeastPending(s) then h.(recalculateBandwidthLimits := true) else h;
    if !s.Connecting? && (s.Disconnected? || s.AcknowledgingConnect? || s.ConnectionPending?) then Reset(h1, i)
    else if event then Reset(Reported(h1, i, Disconnect, 0), i)
    else DispatchState(With(h1, i, h1.peers[i].(eventData := 0)), i, Zombie)
  }

  /** What dispatching the first peer of the queue does, and whether it reports an event. */
  function DispatchFirst(h: HostState): (HostState, bool)
    requires h.dispatchQueue != [] && h.dispatchQueue[0] < |h.peers|
  {
    var i := h.dispatchQueue[0];
    var h1 := With(h.(dispatchQueue := h.dispatchQueue[1..]), i, h.peers[i].(needsDispatch := false));
    var p := h1.peers[i];
    if p.state.ConnectionPending? || p.state.ConnectionSucceeded? then
      (Reported(ChangeState(h1, i, Connected), i, Connect, p.eventData), true)
    else if p.state.Zombie? then
      (Reset(Reported(h1.(recalculateBandwidthLimits := true), i, Disconnect, p.eventData), i), true)
    else if p.state.Connected? && p.dispatchedCommands != [] then (
      var h2 := Reported(With(h1, i, p.(dispatchedCommands := p.dispatchedCommands[1..])), i,
                         Receive(p.dispatchedCommands[0]), 0);
      (if p.dispatchedCommands[1..] != [] then Enqueued(h2, i) else h2, true))
    else (h1, false)
  }

  ghost predicate QueueInside(h: HostState) {
    forall k {:trigger h.dispatchQueue[k]} :: 0 <= k < |h.dispatchQueue| ==> h.dispatchQueue[k] < |h.peers|
  }

  lemma FirstInside(h: HostState)
    requires h.dispatchQueue != [] && QueueInside(h)
    ensures h.dispatchQueue[0] < |h.peers| && |DispatchFirst(h).0.peers| == |h.peers|
    ensures !DispatchFirst(h).1 ==>
      QueueInside(DispatchFirst(h).0) && DispatchFirst(h).0.dispatchQueue == h.dispatchQueue[1..]
  {
    var q := h.dispatchQueue[1..];
    assert forall k {:trigger q[k]} :: 0 <= k < |q| ==> q[k] == h.dispatchQueue[k + 1];
  }

  /** Peers are dispatched until one reports an event. */
  function Dispatch(h: HostState): (HostState, bool)
    requires QueueInside(h)
    decreases |h.dispatchQueue|
  {
    if h.dispatchQueue == [] then (h, false) else (
      FirstInside(h);
      var (h1, reported) := DispatchFirst(h);
      if reported then (h1, true) else Dispatch(h1))
  }

  // ----- what arrives -----

  /** The first slot that is free, or the number of slots. */
  function FreeSlot(peers: seq<Peer>): (i: nat)
    ensures i <= |peers| && (i < |peers| ==> peers[i].state.Disconnected?)
    ensures forall j :: 0 <= j < i ==> !peers[j].state.Disconnected?
    decreases |peers|
  {
    if peers == [] then 0
    else if peers[0].state.Disconnected? then 0
    else 1 + FreeSlot(peers[1..])
  }

  /** A slot begins a connection. */
  function Begun(p: Peer, s: State, incomingBandwidth: nat, eventData: nat): Peer {
    p.(state := s, incomingBandwidth := incomingBandwidth, eventData := eventData, epoch := p.epoch + 1,
       announced := false)
  }

  /** A connect request was verified, or found to be invalid. */
  function HandleVerifyConnect(h: HostState, i: nat, valid: bool, incomingBandwidth: nat, event: bool): HostState
    requires i < |h.peers|
  {
    var p := h.peers[i];
    if !p.state.Connecting? then h
    else if !valid then DispatchState(With(h, i, p.(eventData := 0)), i, Zombie)
    else NotifyConnect(With(h, i, p.(incomingBandwidth := incomingBandwidth)), i, event)
  }

  datatype Acked = VerifyConnectCommand | DisconnectCommand | OtherCommand

  /** An acknowledgement took a command off the peer; `drained` says that nothing is left to send. */
  function HandleAcknowledge(h: HostState, i: nat, acked: Acked, drained: bool, event: bool): HostState
    requires i < |h.peers|
  {
    var s := h.peers[i].state;
    if s.AcknowledgingConnect? && acked.VerifyConnectCommand? then NotifyConnect(h, i, event)
    else if s.Disconnecting? && acked.DisconnectCommand? then NotifyDisconnect(h, i, event)
    else if s.DisconnectLater? && drained then PeerDisconnect(h, i)
    else h
  }

  /** A disconnect command arrived; `acknowledges` says that it wants an acknowledgement. */
  function HandleDisconnect(h: HostState, i: nat, acknowledges: bool, data: nat): HostState
    requires i < |h.peers|
  {
    var s := h.peers[i].state;
    if s.Disconnected? || s.Zombie? || s.AcknowledgingDisconnect? then h else (
      var h1 := ResetQueues(h, i);
      var h2 :=
        if s.ConnectionSucceeded? || s.Disconnecting? || s.Connecting? then DispatchState(h1, i, Zombie)
        else if !InData(s) then
          Reset(if s.ConnectionPending? then h1.(recalculateBandwidthLimits := true) else h1, i)
        else if acknowledges then ChangeState(h1, i, AcknowledgingDisconnect)
        else DispatchState(h1, i, Zombie);
      if h2.peers[i].state.Disconnected? then h2 else With(h2, i, h2.peers[i].(eventData := data)))
  }

  /** After a command that wants an acknowledgement: only a disconnect is owed one while a peer
      acknowledges its disconnect. */
  function OwesDisconnect(h: HostState, i: nat): HostState
    requires i < |h.peers|
  {
    if h.peers[i].state.AcknowledgingDisconnect? then With(h, i, h.peers[i].(owesDisconnect := true)) else h
  }

  /** The acknowledgement of a disconnect goes out. */
  function SendDisconnectAcknowledgement(h: HostState, i: nat): HostState
    requires i < |h.peers|
  {
    if h.peers[i].owesDisconnect then DispatchState(With(h, i, h.peers[i].(owesDisconnect := false)), i, Zombie) else h
  }

  function HandleBandwidthLimit(h: HostState, i: nat, incomingBandwidth: nat): HostState
    requires i < |h.peers|
  {
    var p := h.peers[i];
    if !InData(p.state) then h
    else With(h.(bandwidthLimitedPeers := h.bandwidthLimitedPeers - One(p.incomingBandwidth != 0)
      + One(incomingBandwidth != 0)),
              i, p.(incomingBandwidth := incomingBandwidth))
  }

  /** Packets become ready on a connected peer. */
  function Arrived(h: HostState, i: nat, packets: seq<nat>): HostState
    requires i < |h.peers|
  {
    if !InData(h.peers[i].state) || packets == [] then h
    else Enqueued(With(h, i, h.peers[i].(dispatchedCommands := h.peers[i].dispatchedCommands + packets)), i)
  }

  // ----- what the application asks for -----

  function PeerDisconnect(h: HostState, i: nat): HostState
    requires i < |h.peers|
  {
    var s := h.peers[i].state;
    if s.Disconnecting? || s.Disconnected? || s.AcknowledgingDisconnect? || s.Zombie? then h else (
      var h1 := ResetQueues(h, i);
      if InData(s) then (
        var h2 := OnDisconnect(h1, i);
        With(h2, i, h2.peers[i].(state := Disconnecting)))
      else Reset(h1, i))
  }

  function PeerDisconnectNow(h: HostState, i: nat): HostState
    requires i < |h.peers|
  {
    var s := h.peers[i].state;
    if s.Disconnected? then h
    else Reset(if s.Zombie? || s.Disconnecting? then h else ResetQueues(h, i), i)
  }

  function PeerDisconnectLater(h: HostState, i: nat, drained: bool, data: nat): HostState
    requires i < |h.peers|
  {
    if InData(h.peers[i].state) && !drained then With(h, i, h.peers[i].(state := DisconnectLater, eventData := data))
    else PeerDisconnect(h, i)
  }

  /** The application takes a packet without waiting for an event. */
  function PeerReceive(h: HostState, i: nat): HostState
    requires i < |h.peers|
  {
    var p := h.peers[i];
    if p.dispatchedCommands == [] then h
    else Reported(With(h, i, p.(dispatchedCommands := p.dispatchedCommands[1..])), i, Taken(p.dispatchedCommands[0]), 0)
  }

  // ----- the host -----

  class Host {
    const peers: array<Peer>
    var dispatchQueue: seq<nat>
    var connectedPeers: int
    var bandwidthLimitedPeers: int
    var recalculateBandwidthLimits: bool
    ghost var events: seq<Event>

    ghost function Value(): HostState
      reads this, peers
    {
      HostState(peers[..], dispatchQueue, connectedPeers, bandwidthLimitedPeers, recalculateBandwidthLimits, events)
    }

    constructor (peerCount: nat)
      ensures Value() == HostState(seq(peerCount, i => FreshPeer()), [], 0, 0, false, []) && fresh(peers)
    {
      peers := new Peer[peerCount](i => FreshPeer());
      dispatchQueue, connectedPeers, bandwidthLimitedPeers := [], 0, 0;
      recalculateBandwidthLimits := false;
      events := [];
    }

    method Put(i: nat, p: Peer)
      requires i < peers.Length
      modifies peers
      ensures Value() == With(old(Value()), i, p)
    {
      ghost var s := peers[..];
      peers[i] := p;
      assert peers[..] == s[i := p];
    }

    method Report(i: nat, kind: Kind, data: nat)
      requires i < peers.Length
      modifies this`events, peers
      ensures Value() == Reported(old(Value()), i, kind, data)
    {
      events := events + [Event(i, peers[i].epoch, kind, data)];
      Put(i, peers[i].(announced := peers[i].announced || kind.Connect?));
    }

    method CountConnect(i: nat)
      requires i < peers.Length
      modifies this`connectedPeers, this`bandwidthLimitedPeers
      ensures Value() == OnConnect(old(Value()), i)
    {
      if !peers[i].state.Connected? && !peers[i].state.DisconnectLater? {
        if peers[i].incomingBandwidth != 0 {
          bandwidthLimitedPeers := bandwidthLimitedPeers + 1;
        }
        connectedPeers := connectedPeers + 1;
      }
    }

    method CountDisconnect(i: nat)
      requires i < peers.Length
      modifies this`connectedPeers, this`bandwidthLimitedPeers
      ensures Value() == OnDisconnect(old(Value()), i)
    {
      if peers[i].state.Connected? || peers[i].state.DisconnectLater? {
        if peers[i].incomingBandwidth != 0 {
          bandwidthLimitedPeers := bandwidthLimitedPeers - 1;
        }
        connectedPeers := connectedPeers - 1;
      }
    }

    method Change(i: nat, state: State)
      requires i < peers.Length
      modifies this`connectedPeers, this`bandwidthLimitedPeers, peers
      ensures Value() == ChangeState(old(Value()), i, state)
    {
      if state.Connected? || state.DisconnectLater? {
        CountConnect(i);
      } else {
        CountDisconnect(i);
      }
      Put(i, peers[i].(state := state));
    }

    method Enqueue(i: nat)
      requires i < peers.Length
      modifies this`dispatchQueue, peers
      ensures Value() == Enqueued(old(Value()), i)
    {
      if !peers[i].needsDispatch {
        dispatchQueue := dispatchQueue + [i];
        Put(i, peers[i].(needsDispatch := true));
      }
    }

    method DispatchAs(i: nat, state: State)
      requires i < peers.Length
      modifies this`connectedPeers, this`bandwidthLimitedPeers, this`dispatchQueue, peers
      ensures Value() == DispatchState(old(Value()), i, state)
    {
      hide ChangeState, Enqueued;
      Change(i, state);
      Enqueue(i);
    }

    method ClearQueues(i: nat)
      requires i < peers.Length
      modifies this`dispatchQueue, peers
      ensures Value() == ResetQueues(old(Value()), i)
    {
      if peers[i].needsDispatch {
        dispatchQueue := Removed(dispatchQueue, i);
      }
      Put(i, peers[i].(needsDispatch := false, dispatchedCommands := [], owesDisconnect := false));
    }

    method ResetPeer(i: nat)
      requires i < peers.Length
      modifies this`connectedPeers, this`bandwidthLimitedPeers, this`dispatchQueue, peers
      ensures Value() == Reset(old(Value()), i)
    {
      hide OnDisconnect, ResetQueues;
      CountDisconnect(i);
      Put(i, peers[i].(state := Disconnected, incomingBandwidth := 0, eventData := 0));
      ClearQueues(i);
    }

    method ReportConnect(i: nat, event: bool)
      requires i < peers.Length
      modifies this, peers
      ensures Value() == NotifyConnect(old(Value()), i, event)
    {
      hide ChangeState, DispatchState, Reported;
      recalculateBandwidthLimits := true;
      if event {
        var data := peers[i].eventData;
        Change(i, Connected);
        Report(i, Connect, data);
      } else {
        DispatchAs(i, if peers[i].state.Connecting? then ConnectionSucceeded else ConnectionPending);
      }
    }

    method ReportDisconnect(i: nat, event: bool)
      requires i < peers.Length
      modifies this, peers
      ensures Value() == NotifyDisconnect(old(Value()), i, event)
    {
      hide Reset, DispatchState, Reported, AtLeastPending;
      var s := peers[i].state;
      if AtLeastPending(s) {
        recalculateBandwidthLimits := true;
      }
      if !s.Connecting? && (s.Disconnected? || s.AcknowledgingConnect? || s.ConnectionPending?) {
        ResetPeer(i);
      } else if event {
        Report(i, Kind.Disconnect, 0);
        ResetPeer(i);
      } else {
        Put(i, peers[i].(eventData := 0));
        DispatchAs(i, Zombie);
      }
    }

    /** Takes peers off the dispatch queue until one of them has an event to report. */
    method DispatchIncomingCommands() returns (reported: bool)
      requires QueueInside(Value())
      modifies this, peers
      ensures (Value(), reported) == Dispatch(old(Value()))
    {
      hide ChangeState, Reset, Reported, Enqueued;
      ghost var start := Value();
      while dispatchQueue != []
        invariant QueueInside(Value()) && Dispatch(start) == Dispatch(Value())
        decreases |dispatchQueue|
      {
        FirstInside(Value());
        ghost var h := Value();
        var i := dispatchQueue[0];
        dispatchQueue := dispatchQueue[1..];
        Put(i, peers[i].(needsDispatch := false));
        var p := peers[i];
        if p.state.ConnectionPending? || p.state.ConnectionSucceeded? {
          Change(i, Connected);
          Report(i, Connect, p.eventData);
          return true;
        } else if p.state.Zombie? {
          recalculateBandwidthLimits := true;
          Report(i, Kind.Disconnect, p.eventData);
          ResetPeer(i);
          return true;
        } else if p.state.Connected? && p.dispatchedCommands != [] {
          Put(i, p.(dispatchedCommands := p.dispatchedCommands[1..]));
          Report(i, Receive(p.dispatchedCommands[0]), 0);
          if p.dispatchedCommands[1..] != [] {
            Enqueue(i);
          }
          return true;
        }
        assert Value() == DispatchFirst(h).0;
      }
      return false;
    }

    /** The first free slot. */
    method FindSlot() returns (i: nat)
      ensures i == FreeSlot(peers[..])
    {
      i := 0;
      assert peers[0..] == peers[..];
      while i < peers.Length
        invariant i <= peers.Length && i + FreeSlot(peers[i..]) == FreeSlot(peers[..])
      {
        assert peers[i..][1..] == peers[i + 1..];
        if peers[i].state.Disconnected? {
          break;
        }
        i := i + 1;
      }
    }

    method Disconnect(i: nat)
      requires i < peers.Length
      modifies this, peers
      ensures Value() == PeerDisconnect(old(Value()), i)
    {
      hide ResetQueues, OnDisconnect, Reset;
      var s := peers[i].state;
      if s.Disconnecting? || s.Disconnected? || s.AcknowledgingDisconnect? || s.Zombie? {
        return;
      }
      ResetQueuesKeeps(Value(), i);
      ClearQueues(i);
      if peers[i].state.Connected? || peers[i].state.DisconnectLater? {
        CountDisconnect(i);
        Put(i, peers[i].(state := Disconnecting));
      } else {
        ResetPeer(i);
      }
    }

    method DisconnectNow(i: nat)
      requires i < peers.Length
      modifies this, peers
      ensures Value() == PeerDisconnectNow(old(Value()), i)
    {
      hide ResetQueues, Reset;
      if peers[i].state.Disconnected? {
        return;
      }
      if !peers[i].state.Zombie? && !peers[i].state.Disconnecting? {
        ClearQueues(i);
      }
      ResetPeer(i);
    }

    method DisconnectAfterwards(i: nat, drained: bool, data: nat)
      requires i < peers.Length
      modifies this, peers
      ensures Value() == PeerDisconnectLater(old(Value()), i, drained, data)
    {
      hide PeerDisconnect;
      if (peers[i].state.Connected? || peers[i].state.DisconnectLater?) && !drained {
        Put(i, peers[i].(state := DisconnectLater, eventData := data));
      } else {
        Disconnect(i);
      }
    }

    /** Hands the application the first packet that is ready, if there is one. */
    method TakePacket(i: nat) returns (packet: Option<nat>)
      requires i < peers.Length
      modifies this`events, peers
      ensures Value() == PeerReceive(old(Value()), i)
      ensures packet.None? <==> Value().events == old(Value().events)
      ensures packet.Some? ==>
        Value().events == old(Value().events) + [Event(i, old(peers[i].epoch), Taken(packet.value), 0)]
    {
      var p := peers[i];
      if p.dispatchedCommands == [] {
        return None;
      }
      Put(i, p.(dispatchedCommands := p.dispatchedCommands[1..]));
      Report(i, Taken(p.dispatchedCommands[0]), 0);
      return Some(p.dispatchedCommands[0]);
    }

    /** The answer to a connect request. */
    method ReceiveVerifyConnect(i: nat, valid: bool, incomingBandwidth: nat, event: bool)
      requires i < peers.Length
      modifies this, peers
      ensures Value() == HandleVerifyConnect(old(Value()), i, valid, incomingBandwidth, event)
    {
      hide DispatchState, NotifyConnect;
      if !peers[i].state.Connecting? {
        return;
      }
      if !valid {
        Put(i, peers[i].(eventData := 0));
        DispatchAs(i, Zombie);
        return;
      }
      Put(i, peers[i].(incomingBandwidth := incomingBandwidth));
      ReportConnect(i, event);
    }

    method ReceiveBandwidthLimit(i: nat, incomingBandwidth: nat)
      requires i < peers.Length
      modifies this, peers
      ensures Value() == HandleBandwidthLimit(old(Value()), i, incomingBandwidth)
    {
      if !peers[i].state.Connected? && !peers[i].state.DisconnectLater? {
        return;
      }
      if peers[i].incomingBandwidth != 0 {
        bandwidthLimitedPeers := bandwidthLimitedPeers - 1;
      }
      Put(i, peers[i].(incomingBandwidth := incomingBandwidth));
      if peers[i].incomingBandwidth != 0 {
        bandwidthLimitedPeers := bandwidthLimitedPeers + 1;
      }
    }

    /** A disconnect command from the other side. */
    method ReceiveDisconnect(i: nat, acknowledges: bool, data: nat)
      requires i < peers.Length
      modifies this, peers
      ensures Value() == HandleDisconnect(old(Value()), i, acknowledges, data)
    {
      hide ResetQueues, DispatchState, Reset, ChangeState;
      var s := peers[i].state;
      if s.Disconnected? || s.Zombie? || s.AcknowledgingDisconnect? {
        return;
      }
      ResetQueuesKeeps(Value(), i);
      ClearQueues(i);
      if peers[i].state.ConnectionSucceeded? || peers[i].state.Disconnecting? || peers[i].state.Connecting? {
        DispatchAs(i, Zombie);
      } else if !peers[i].state.Connected? && !peers[i].state.DisconnectLater? {
        if peers[i].state.ConnectionPending? {
          recalculateBandwidthLimits := true;
        }
        ResetPeer(i);
      } else if acknowledges {
        Change(i, AcknowledgingDisconnect);
      } else {
        DispatchAs(i, Zombie);
      }
      if !peers[i].state.Disconnected? {
        Put(i, peers[i].(eventData := data));
      }
    }

    /** An acknowledgement was taken off the peer's commands. */
    method ReceiveAcknowledge(i: nat, acked: Acked, drained: bool, event: bool)
      requires i < peers.Length
      modifies this, peers
      ensures Value() == HandleAcknowledge(old(Value()), i, acked, drained, event)
    {
      hide NotifyConnect, NotifyDisconnect, PeerDisconnect;
      match peers[i].state
      case AcknowledgingConnect =>
        if acked.VerifyConnectCommand? {
          ReportConnect(i, event);
        }
      case Disconnecting =>
        if acked.DisconnectCommand? {
          ReportDisconnect(i, event);
        }
      case DisconnectLater =>
        if drained {
          Disconnect(i);
        }
      case _ =>
    }
  }

  function FreshPeer(): Peer { Peer(Disconnected, 0, 0, false, [], false, 0, false) }

  lemma ResetQueuesKeeps(h: HostState, i: nat)
    requires i < |h.peers|
    ensures |ResetQueues(h, i).peers| == |h.peers| && ResetQueues(h, i).peers[i].state == h.peers[i].state
  {
  }
}
