/** What always holds of a host's peers, whatever arrives and whatever the application asks for. */
module PeerInvariants {
  import opened Sums
  import opened PeerStates

  predicate Counts(p: Peer) { InData(p.state) }

  predicate CountsLimited(p: Peer) { InData(p.state) && p.incomingBandwidth != 0 }

  /** The host-wide counters are the counts over the peers. */
  ghost predicate CountersOk(h: HostState) {
    && h.connectedPeers == Count(h.peers, p => Counts(p))
    && h.bandwidthLimitedPeers == Count(h.peers, p => CountsLimited(p))
  }

  /** On the way to being connected. */
  predicate Unconnected(s: State) {
    s.Connecting? || s.AcknowledgingConnect? || s.ConnectionPending? || s.ConnectionSucceeded?
  }

  predicate MustDispatch(s: State) { s.ConnectionPending? || s.ConnectionSucceeded? || s.Zombie? }

  ghost predicate Distinct(queue: seq<nat>) {
    forall j, k {:trigger queue[j], queue[k]} :: 0 <= j < k < |queue| ==> queue[j] != queue[k]
  }

  /** A peer is in the dispatch queue at most once, and exactly when it is marked; pending,
      succeeded and zombie peers always are. */
  ghost predicate QueueOk(h: HostState) {
    && (forall j {:trigger j in h.dispatchQueue} :: j in h.dispatchQueue <==>
         0 <= j < |h.peers| && h.peers[j].needsDispatch)
    && Distinct(h.dispatchQueue)
    && (forall j {:trigger h.peers[j]} :: 0 <= j < |h.peers| ==> MarkOk(h.peers[j]))
  }

  ghost predicate MarkOk(p: Peer) {
    && (MustDispatch(p.state) ==> p.needsDispatch)
    && (p.state.Connected? && p.dispatchedCommands != [] ==> p.needsDispatch)
    && (p.state.Disconnected? ==> !p.needsDispatch && p.dispatchedCommands == [])
    && (Unconnected(p.state) ==> p.dispatchedCommands == [])
    && (p.owesDisconnect ==> p.state.AcknowledgingDisconnect? || p.state.Zombie?)
  }

  predicate SameConnection(e: Event, f: Event) { e.slot == f.slot && e.epoch == f.epoch }

  predicate IsPacket(kind: Kind) { kind.Receive? || kind.Taken? }

  /** Event `k` is in order: a connection is reported first and once, its packets before any
      disconnect, and at most one disconnect. */
  ghost predicate InOrder(events: seq<Event>, k: nat)
    requires k < |events|
  {
    match events[k].kind
    case Connect => forall j {:trigger events[j]} :: 0 <= j < k ==> !SameConnection(events[j], events[k])
    case Disconnect => forall j {:trigger events[j]} :: 0 <= j < k && SameConnection(events[j], events[k]) ==>
      !events[j].kind.Disconnect?
    case _ =>
      && (exists j {:trigger events[j]} ::
           0 <= j < k && SameConnection(events[j], events[k]) && events[j].kind.Connect?)
      && (forall j {:trigger events[j]} :: 0 <= j < k && SameConnection(events[j], events[k]) ==>
           !events[j].kind.Disconnect?)
  }

  /** A peer's state says whether its connection was reported. */
  ghost predicate AnnouncedOk(p: Peer) {
    && (InData(p.state) || p.state.Disconnecting? || p.state.AcknowledgingDisconnect? ==> p.announced)
    && (Unconnected(p.state) ==> !p.announced)
    && (p.dispatchedCommands != [] ==> p.announced)
  }

  /** An event against the slot it belongs to. */
  ghost predicate EventOk(e: Event, peers: seq<Peer>) {
    && e.slot < |peers| && e.epoch <= peers[e.slot].epoch
    && (e.epoch == peers[e.slot].epoch ==>
          if e.kind.Disconnect? then peers[e.slot].state.Disconnected? else peers[e.slot].announced)
  }

  ghost predicate Remembered(events: seq<Event>, slot: nat, epoch: nat) {
    exists j {:trigger events[j]} ::
      0 <= j < |events| && events[j].slot == slot && events[j].epoch == epoch && events[j].kind.Connect?
  }

  ghost predicate EventsOk(h: HostState) {
    && (forall k {:trigger h.events[k]} :: 0 <= k < |h.events| ==> EventOk(h.events[k], h.peers))
    && (forall k {:trigger InOrder(h.events, k)} :: 0 <= k < |h.events| ==> InOrder(h.events, k))
    && (forall i {:trigger h.peers[i]} :: 0 <= i < |h.peers| ==> AnnouncedOk(h.peers[i]))
    && (forall i {:trigger Remembered(h.events, i, h.peers[i].epoch)} ::
         0 <= i < |h.peers| && h.peers[i].announced && !h.peers[i].state.Disconnected? ==>
          Remembered(h.events, i, h.peers[i].epoch))
  }

  ghost predicate Inv(h: HostState) { CountersOk(h) && QueueOk(h) && EventsOk(h) }

  // ----- one peer changes -----

  /** The queue holds the same other peers, and peer `i` as its mark says. */
  ghost predicate QueueNet(q: seq<nat>, q1: seq<nat>, i: nat, marked: bool) {
    && (forall j {:trigger j in q1} :: j in q1 <==> (if j == i then marked else j in q))
    && Distinct(q1)
  }

  /** What happened to the events: nothing; or nothing, on a new connection; or the last one
      is that of peer `i`. */
  ghost predicate EventsNet(h: HostState, h1: HostState, i: nat)
    requires i < |h.peers| == |h1.peers|
  {
    var p, p1 := h.peers[i], h1.peers[i];
    || (h1.events == h.events && p1.epoch == p.epoch && p1.announced == p.announced
        && (p.state.Disconnected? ==> p1.state.Disconnected?))
    || (h1.events == h.events && p.state.Disconnected? && p1.epoch == p.epoch + 1 && !p1.announced)
    || (exists kind, data {:trigger Event(i, p.epoch, kind, data)} ::
          h1.events == h.events + [Event(i, p.epoch, kind, data)] && p1.epoch == p.epoch && !p.state.Disconnected? && (
          match kind
          case Connect => !p.announced && p1.announced && !p1.state.Disconnected?
          case Disconnect => p1.announced == p.announced && p1.state.Disconnected?
          case _ => p.announced && p1.announced && !p1.state.Disconnected?))
  }

  /** A step that changes peer `i` and what depends on it. */
  ghost predicate Net(h: HostState, h1: HostState, i: nat) {
    && i < |h.peers| == |h1.peers| && h1.peers == h.peers[i := h1.peers[i]]
    && h1.connectedPeers == h.connectedPeers - One(Counts(h.peers[i])) + One(Counts(h1.peers[i]))
    && h1.bandwidthLimitedPeers
       == h.bandwidthLimitedPeers - One(CountsLimited(h.peers[i])) + One(CountsLimited(h1.peers[i]))
    && QueueNet(h.dispatchQueue, h1.dispatchQueue, i, h1.peers[i].needsDispatch)
    && MarkOk(h1.peers[i]) && AnnouncedOk(h1.peers[i])
    && EventsNet(h, h1, i)
  }

  lemma NetKeeps(h: HostState, h1: HostState, i: nat)
    requires Inv(h) && Net(h, h1, i)
    ensures Inv(h1)
  {
    var p1 := h1.peers[i];
    CountUpdate(h.peers, i, p1, p => Counts(p));
    CountUpdate(h.peers, i, p1, p => CountsLimited(p));
    assert CountersOk(h1);
    hide CountersOk, MarkOk;
    assert QueueOk(h1);
    hide QueueOk, QueueNet;
    NetEvents(h, h1, i);
  }

  lemma NetEvents(h: HostState, h1: HostState, i: nat)
    requires EventsOk(h) && i < |h.peers| == |h1.peers| && h1.peers == h.peers[i := h1.peers[i]]
    requires AnnouncedOk(h1.peers[i]) && EventsNet(h, h1, i)
    ensures EventsOk(h1)
  {
    var p, p1 := h.peers[i], h1.peers[i];
    hide AnnouncedOk;
    if h1.events == h.events {
      QuietEvents(h, h1, i);
    } else {
      var kind, data :|
        && h1.events == h.events + [Event(i, p.epoch, kind, data)]
        && p1.epoch == p.epoch && !p.state.Disconnected? && (
          match kind
          case Connect => !p.announced && p1.announced && !p1.state.Disconnected?
          case Disconnect => p1.announced == p.announced && p1.state.Disconnected?
          case _ => p.announced && p1.announced && !p1.state.Disconnected?);
      OneEvent(h, h1, i, Event(i, p.epoch, kind, data));
    }
  }

  lemma QuietEvents(h: HostState, h1: HostState, i: nat)
    requires EventsOk(h) && i < |h.peers| == |h1.peers| && h1.peers == h.peers[i := h1.peers[i]]
    requires AnnouncedOk(h1.peers[i]) && h1.events == h.events
    requires var p, p1 := h.peers[i], h1.peers[i];
      || (p1.epoch == p.epoch && p1.announced == p.announced && (p.state.Disconnected? ==> p1.state.Disconnected?))
      || (p.state.Disconnected? && p1.epoch == p.epoch + 1 && !p1.announced)
    ensures EventsOk(h1)
  {
    hide AnnouncedOk, InOrder, Remembered;
    forall k {:trigger h1.events[k]} | 0 <= k < |h1.events| ensures EventOk(h1.events[k], h1.peers) {
      assert EventOk(h.events[k], h.peers);
    }
    forall j | 0 <= j < |h1.peers| && h1.peers[j].announced && !h1.peers[j].state.Disconnected?
      ensures Remembered(h1.events, j, h1.peers[j].epoch)
    {
      var _ := h.peers[j];
      assert Remembered(h.events, j, h.peers[j].epoch);
    }
    assert forall j {:trigger h1.peers[j]} :: 0 <= j < |h1.peers| ==>
      h1.peers[j] == if j == i then h1.peers[i] else h.peers[j];
    forall j {:trigger h1.peers[j]} | 0 <= j < |h1.peers| ensures AnnouncedOk(h1.peers[j]) {
      var _ := h.peers[j];
    }
    forall k {:trigger InOrder(h1.events, k)} | 0 <= k < |h1.events| ensures InOrder(h1.events, k) {
      assert InOrder(h.events, k);
    }
  }

  lemma OneEvent(h: HostState, h1: HostState, i: nat, e: Event)
    requires EventsOk(h) && i < |h.peers| == |h1.peers| && h1.peers == h.peers[i := h1.peers[i]]
    requires AnnouncedOk(h1.peers[i]) && h1.events == h.events + [e] && e.slot == i && e.epoch == h.peers[i].epoch
    requires var p, p1 := h.peers[i], h1.peers[i];
      && p1.epoch == p.epoch && !p.state.Disconnected?
      && match e.kind
         case Connect => !p.announced && p1.announced && !p1.state.Disconnected?
         case Disconnect => p1.announced == p.announced && p1.state.Disconnected?
         case _ => p.announced && p1.announced && !p1.state.Disconnected?
    ensures EventsOk(h1)
  {
    hide AnnouncedOk, InOrder, Remembered;
    var n := |h.events|;
    forall k {:trigger h1.events[k]} | 0 <= k < |h1.events| ensures EventOk(h1.events[k], h1.peers) {
      if k < n {
        assert h1.events[k] == h.events[k] && EventOk(h.events[k], h.peers);
      }
    }
    forall k {:trigger InOrder(h1.events, k)} | 0 <= k < |h1.events| ensures InOrder(h1.events, k) {
      if k < n {
        assert InOrder(h.events, k);
        StaysInOrder(h.events, e, k);
      } else {
        LastInOrder(h, i, e);
      }
    }
    forall j {:trigger h1.peers[j]} | 0 <= j < |h1.peers| ensures AnnouncedOk(h1.peers[j]) {
      var _ := h.peers[j];
    }
    forall j | 0 <= j < |h1.peers| && h1.peers[j].announced && !h1.peers[j].state.Disconnected?
      ensures Remembered(h1.events, j, h1.peers[j].epoch)
    {
      var _ := h.peers[j];
      if j == i && e.kind.Connect? {
        RememberedLast(h.events, e);
      } else {
        assert Remembered(h.events, j, h.peers[j].epoch);
        StaysRemembered(h.events, e, j, h.peers[j].epoch);
      }
    }
  }

  lemma StaysInOrder(events: seq<Event>, e: Event, k: nat)
    requires k < |events| && InOrder(events, k)
    ensures InOrder(events + [e], k)
  {
    var events1 := events + [e];
    assert forall j {:trigger events1[j]} :: 0 <= j <= k ==> events1[j] == events[j];
    if IsPacket(events[k].kind) {
      var j :| 0 <= j < k && SameConnection(events[j], events[k]) && events[j].kind.Connect?;
      assert events1[j] == events[j];
    }
  }

  lemma RememberedLast(events: seq<Event>, e: Event)
    requires e.kind.Connect?
    ensures Remembered(events + [e], e.slot, e.epoch)
  {
    assert (events + [e])[|events|] == e;
  }

  lemma StaysRemembered(events: seq<Event>, e: Event, slot: nat, epoch: nat)
    requires Remembered(events, slot, epoch)
    ensures Remembered(events + [e], slot, epoch)
  {
    var j :| 0 <= j < |events| && events[j].slot == slot && events[j].epoch == epoch && events[j].kind.Connect?;
    assert (events + [e])[j] == events[j];
  }

  /** A new event is in order, for the slot's state remembers what was reported. */
  lemma LastInOrder(h: HostState, i: nat, e: Event)
    requires EventsOk(h) && i < |h.peers| && e.slot == i && e.epoch == h.peers[i].epoch
    requires !h.peers[i].state.Disconnected?
    requires e.kind.Connect? ==> !h.peers[i].announced
    requires IsPacket(e.kind) ==> h.peers[i].announced
    ensures InOrder(h.events + [e], |h.events|)
  {
    hide AnnouncedOk;
    var events1, n := h.events + [e], |h.events|;
    assert forall j {:trigger events1[j]} :: 0 <= j < n ==> events1[j] == h.events[j] && EventOk(h.events[j], h.peers);
    if IsPacket(e.kind) {
      assert Remembered(h.events, i, h.peers[i].epoch);
      var j :| 0 <= j < n && h.events[j].slot == i && h.events[j].epoch == e.epoch && h.events[j].kind.Connect?;
      assert SameConnection(events1[j], events1[n]);
    }
  }
}
