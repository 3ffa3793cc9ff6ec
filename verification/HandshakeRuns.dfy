/** Hosts that connect to each other over a network that loses, repeats, reorders and delays
    datagrams, and what the two ends of a connection agree on. */
module HandshakeRuns {
  import opened Handshake
  import opened PeerStates
  import opened Words

  datatype Command = Connect(request: ConnectCommand) | VerifyConnect(answer: VerifyCommand) | Acknowledge

  datatype Datagram = Datagram(from: Address, to: Address, peerID: nat, sessionID: nat, command: Command)

  /** One connection as its server knows it. */
  datatype Key = Key(server: Address, client: Address, connectID: nat)

  /** `sent` is everything ever put on the network: a datagram may arrive never, once or often.
      `connects` counts the requests each host made, and `resets` holds the connections whose
      server slot was reset. */
  datatype System = System(hosts: map<Address, Handshake.HostState>, connects: map<Address, nat>, sent: set<Datagram>,
                           resets: set<Key>)

  datatype Step =
    | ConnectTo(host: Address, to: Address, channelCount: nat, data: nat)
    | Deliver(datagram: Datagram, event: bool)
    | Advance(host: Address, slot: nat, state: State, cleared: bool)
    | Forget(host: Address, slot: nat)
    | SetThrottle(host: Address, slot: nat, throttle: Throttle)
    | Configure(host: Address, channelLimit: nat, mtu: nat, incoming: nat, outgoing: nat, duplicates: nat)

  /** How a peer's state changes besides the handshake and a reset. */
  predicate Advances(s: State, t: State) {
    || t == s
    || (Live(s) && t.Zombie?)
    || ((s.ConnectionPending? || s.ConnectionSucceeded?) && t.Connected?)
    || (InData(s) && (t.DisconnectLater? || t.Disconnecting? || t.AcknowledgingDisconnect?))
  }

  /** A peer that is on its way out has given its channels back. */
  predicate Leaving(s: State) { s.Disconnecting? || s.AcknowledgingDisconnect? }

  /** A peer that still has its channels; a zombie may have, or not. */
  predicate HasChannels(s: State) { !Leaving(s) && !s.Zombie? }

  predicate Enabled(s: System, step: Step) {
    match step
    case ConnectTo(a, _, _, _) => a in s.hosts && a in s.connects
    case Deliver(d, _) => d in s.sent && d.to in s.hosts
    case Advance(a, i, t, cleared) =>
      a in s.hosts && i < |s.hosts[a].slots| && Advances(s.hosts[a].slots[i].state, t) && (cleared ==> t.Zombie?)
    case Forget(a, i) => a in s.hosts && i < |s.hosts[a].slots|
    case SetThrottle(a, i, _) => a in s.hosts && i < |s.hosts[a].slots|
    case Configure(a, limit, _, _, _, _) => a in s.hosts && 1 <= limit <= MAXIMUM_CHANNELS
  }

  function PutHost(s: System, a: Address, h: Handshake.HostState): System { s.(hosts := s.hosts[a := h]) }

  function PutSlot(s: System, a: Address, i: nat, p: Slot): System
    requires a in s.hosts && i < |s.hosts[a].slots|
  {
    PutHost(s, a, WithSlot(s.hosts[a], i, p))
  }

  function Send(s: System, d: Datagram): System { s.(sent := s.sent + {d}) }

  function AnswerDatagram(from: Address, p: Slot, v: VerifyCommand): Datagram {
    Datagram(from, p.address, p.outgoingPeerID, p.outgoingSessionID, VerifyConnect(v))
  }

  /** Whether a command that wants an acknowledgement is acknowledged. */
  predicate AcknowledgesVerify(s: State) {
    !(s.Disconnecting? || s.AcknowledgingConnect? || s.Disconnected? || s.Zombie? || s.AcknowledgingDisconnect?)
  }

  function Receive(s: System, d: Datagram, event: bool): System
    requires d.to in s.hosts
  {
    var h, a := s.hosts[d.to], d.to;
    if d.peerID == NO_PEER then
      if !d.command.Connect? then s else (
        var (h1, r) := HandleConnect(h, d.from, d.command.request);
        if r.None? then s
        else Send(PutHost(s, a, h1),
                  AnswerDatagram(a, Accepting(h.slots[r.value.0], h, d.from, d.command.request), r.value.1)))
    else if !Admitted(h, d.from, d.peerID, d.sessionID) then s
    else
      match d.command
      case Connect(_) => s
      case VerifyConnect(v) =>
        var (p, ok) := HandleVerify(h.slots[d.peerID], v, event);
        var s1 := PutSlot(s, a, d.peerID, p);
        if ok && AcknowledgesVerify(p.state) then
          Send(s1, Datagram(a, p.address, p.outgoingPeerID, p.outgoingSessionID, Acknowledge))
        else s1
      case Acknowledge => PutSlot(s, a, d.peerID, HandleAcknowledgement(h.slots[d.peerID], event))
  }

  function Advanced(p: Slot, t: State, cleared: bool): Slot {
    p.(state := t, channelCount := if cleared || Leaving(t) then 0 else p.channelCount)
  }

  function Next(s: System, step: Step): System
    requires Enabled(s, step)
  {
    match step
    case ConnectTo(a, to, channelCount, data) =>
      var (h, r) := HostConnect(s.hosts[a], to, channelCount, data);
      if r.None? then s
      else Send(PutHost(s, a, h).(connects := s.connects[a := s.connects[a] + 1]),
                Datagram(a, to, NO_PEER, 0, Command.Connect(r.value.1)))
    case Deliver(d, event) => Receive(s, d, event)
    case Advance(a, i, t, cleared) => PutSlot(s, a, i, Advanced(s.hosts[a].slots[i], t, cleared))
    case Forget(a, i) =>
      var p := s.hosts[a].slots[i];
      PutSlot(if Serving(p) then s.(resets := s.resets + {Key(a, p.address, p.connectID)})
        else s, a, i, ResetSlot(p, s.hosts[a]))
    case SetThrottle(a, i, t) => PutSlot(s, a, i, s.hosts[a].slots[i].(throttle := t))
    case Configure(a, limit, mtu, incoming, outgoing, duplicates) =>
      PutHost(s, a, s.hosts[a].(channelLimit := limit, mtu := mtu, incomingBandwidth := incoming,
                                outgoingBandwidth := outgoing,
                                duplicatePeers := duplicates))
  }

  // ----- what always holds -----

  /** A slot that a request from outside took. */
  predicate Serving(p: Slot) { Live(p.state) && p.accepted }

  /** A slot whose own request was answered. */
  predicate Joined(p: Slot) { Live(p.state) && !p.accepted && !p.state.Connecting? && !p.state.Zombie? }

  predicate Asks(m: Datagram, a: Address, i: nat, p: Slot) {
    && m.command.Connect? && m.from == a && m.to == p.address && m.command.request.connectID == p.connectID
    && m.command.request.outgoingPeerID == i
  }

  predicate Offers(d: Datagram, a: Address, i: nat, p: Slot) {
    && d.command.VerifyConnect? && d.from == a && d.to == p.address && d.peerID == p.outgoingPeerID
    && var v := d.command.answer;
      && v.connectID == p.connectID && v.outgoingPeerID == i
      && v.incomingSessionID == p.outgoingSessionID && v.outgoingSessionID == p.incomingSessionID
      && v.mtu == p.mtu && (HasChannels(p.state) ==> v.channelCount == p.channelCount)
  }

  predicate Took(d: Datagram, m: Datagram, a: Address, i: nat, p: Slot) {
    && d.command.VerifyConnect? && m.command.Connect? && d.from == p.address && d.to == a && d.peerID == i
    && var v, c := d.command.answer, m.command.request;
      && v.connectID == p.connectID && v.outgoingPeerID == p.outgoingPeerID
      && v.incomingSessionID == p.incomingSessionID && v.outgoingSessionID == p.outgoingSessionID
      && (HasChannels(p.state) ==> p.channelCount == Min(v.channelCount, c.channelCount))
      && p.mtu == Min(Between(MINIMUM_MTU, v.mtu, MAXIMUM_MTU), c.mtu)
  }

  predicate Replies(d: Datagram, m: Datagram) {
    && d.command.VerifyConnect? && m.command.Connect? && m.from == d.to && m.to == d.from
    && var v, c := d.command.answer, m.command.request;
      && v.connectID == c.connectID && c.outgoingPeerID == d.peerID && v.channelCount <= c.channelCount
      && v.mtu == Between(MINIMUM_MTU, c.mtu, MAXIMUM_MTU)
  }

  ghost predicate HasOffer(sent: set<Datagram>, a: Address, i: nat, p: Slot) {
    exists d {:trigger Offers(d, a, i, p)} :: d in sent && Offers(d, a, i, p)
  }

  /** The request that a connecting slot was made for. */
  predicate AsksAs(m: Datagram, a: Address, i: nat, p: Slot) {
    Asks(m, a, i, p) && m.command.request.channelCount == p.channelCount && m.command.request.mtu == p.mtu
  }

  ghost predicate HasRequest(sent: set<Datagram>, a: Address, i: nat, p: Slot) {
    exists m {:trigger AsksAs(m, a, i, p)} :: m in sent && AsksAs(m, a, i, p)
  }

  ghost predicate HasAnswer(sent: set<Datagram>, a: Address, i: nat, p: Slot) {
    exists d, m {:trigger Took(d, m, a, i, p)} :: d in sent && m in sent && Asks(m, a, i, p) && Took(d, m, a, i, p)
  }

  ghost predicate IsReply(sent: set<Datagram>, d: Datagram) {
    exists m {:trigger Replies(d, m)} :: m in sent && Replies(d, m)
  }

  ghost predicate SlotOk(sent: set<Datagram>, a: Address, i: nat, p: Slot) {
    && (Serving(p) ==> Occupied(p) && HasOffer(sent, a, i, p))
    && (!p.accepted && p.state.Connecting? ==> HasRequest(sent, a, i, p))
    && (Joined(p) ==> HasAnswer(sent, a, i, p))
  }

  /** A connect identifier is among the last `count` that a seed counted to. */
  predicate Recent(seed: nat, count: nat, id: nat) { (seed - id) % TWO_32 < count }

  ghost predicate DatagramOk(s: System, d: Datagram) {
    match d.command
    case Connect(c) =>
      && d.from in s.hosts && d.from in s.connects && c.connectID < TWO_32
      && Recent(s.hosts[d.from].randomSeed, s.connects[d.from], c.connectID)
    case VerifyConnect(v) => IsReply(s.sent, d) && d.from in s.hosts && v.outgoingPeerID < |s.hosts[d.from].slots|
    case Acknowledge => true
  }

  function KeyOf(d: Datagram): Key
    requires d.command.VerifyConnect?
  {
    Key(d.from, d.to, d.command.answer.connectID)
  }

  /** An answer of a connection whose server slot was not reset: the slot is still there. */
  ghost predicate Held(s: System, d: Datagram)
    requires d.command.VerifyConnect?
  {
    && d.from in s.hosts && d.command.answer.outgoingPeerID < |s.hosts[d.from].slots|
    && var p := s.hosts[d.from].slots[d.command.answer.outgoingPeerID];
      Serving(p) && p.address == d.to && p.connectID == d.command.answer.connectID
  }

  predicate Current(s: System, d: Datagram) { d.command.VerifyConnect? && KeyOf(d) !in s.resets }

  predicate SameRequest(d: Datagram, e: Datagram) {
    && d.command.Connect? && e.command.Connect? && d.from == e.from
    && d.command.request.connectID == e.command.request.connectID
  }

  ghost predicate HostsOk(s: System) {
    forall a {:trigger s.hosts[a]} :: a in s.hosts ==> a in s.connects && 1 <= s.hosts[a].channelLimit
  }

  ghost predicate SlotsOk(s: System) {
    forall a, i {:trigger s.hosts[a].slots[i]} :: a in s.hosts && 0 <= i < |s.hosts[a].slots| ==>
      SlotOk(s.sent, a, i, s.hosts[a].slots[i])
  }

  ghost predicate DatagramsOk(s: System) { forall d {:trigger DatagramOk(s, d)} :: d in s.sent ==> DatagramOk(s, d) }

  ghost predicate AnswersHeld(s: System) {
    forall d {:trigger Current(s, d)} :: d in s.sent && Current(s, d) ==> Held(s, d)
  }

  /** A connection whose server slot was not reset was answered once. */
  ghost predicate OneAnswer(s: System) {
    forall d, e {:trigger Current(s, d), Current(s, e)} ::
      d in s.sent && e in s.sent && Current(s, d) && Current(s, e) && KeyOf(d) == KeyOf(e) ==> d == e
  }

  /** While connect identifiers have not come round, each names one request of its host. */
  ghost predicate OneRequest(s: System) {
    forall d, e {:trigger SameRequest(d, e)} ::
      d in s.sent && e in s.sent && SameRequest(d, e) && d.from in s.connects && s.connects[d.from] <= TWO_32 ==> d == e
  }

  /** No two slots serve the same address under the same connect identifier. */
  ghost predicate OneSlot(slots: seq<Slot>) {
    forall i, j {:trigger slots[i], slots[j]} :: 0 <= i < j < |slots| && Serving(slots[i]) && Serving(slots[j]) ==>
      !(slots[i].address == slots[j].address && slots[i].connectID == slots[j].connectID)
  }

  ghost predicate SlotsDiffer(s: System) {
    forall a {:trigger s.hosts[a]} :: a in s.hosts ==> OneSlot(s.hosts[a].slots)
  }

  ghost predicate Inv(s: System) {
    && HostsOk(s) && SlotsOk(s) && DatagramsOk(s) && AnswersHeld(s) && OneAnswer(s) && OneRequest(s) && SlotsDiffer(s)
  }

  // ----- one slot of one host changes -----

  /** `s1` is `s` with a slot replaced, and perhaps more datagrams and resets. */
  ghost predicate Changed(s: System, s1: System, a: Address, i: nat) {
    && a in s.hosts && s1.hosts.Keys == s.hosts.Keys && s1.connects.Keys == s.connects.Keys
    && i < |s.hosts[a].slots| == |s1.hosts[a].slots|
    && s1.hosts[a].slots == s.hosts[a].slots[i := s1.hosts[a].slots[i]]
    && 1 <= s1.hosts[a].channelLimit
    && (forall b {:trigger s1.hosts[b]} :: b in s.hosts && b != a ==> s1.hosts[b] == s.hosts[b])
    && s.sent <= s1.sent && s.resets <= s1.resets
  }

  /** The seeds and counts of requests are the same. */
  ghost predicate SameSeeds(s: System, s1: System) {
    s1.connects == s.connects && forall b {:trigger s1.hosts[b]} :: b in s.hosts && b in s1.hosts ==>
      s1.hosts[b].randomSeed == s.hosts[b].randomSeed
  }

  /** What a slot serves it goes on serving, or its reset is recorded. */
  predicate KeepsServing(s1: System, a: Address, p: Slot, p1: Slot) {
    Serving(p) ==>
      || (Serving(p1) && p1.address == p.address && p1.connectID == p.connectID)
      || Key(a, p.address, p.connectID) in s1.resets
  }

  lemma SlotStays(sent: set<Datagram>, sent1: set<Datagram>, a: Address, i: nat, p: Slot)
    requires SlotOk(sent, a, i, p) && sent <= sent1
    ensures SlotOk(sent1, a, i, p)
  {
    hide Took, Offers;
    if Serving(p) {
      var d :| d in sent && Offers(d, a, i, p);
      assert d in sent1;
    }
    if !p.accepted && p.state.Connecting? {
      var m :| m in sent && AsksAs(m, a, i, p);
      assert m in sent1;
    }
    if Joined(p) {
      var d, m :| d in sent && m in sent && Asks(m, a, i, p) && Took(d, m, a, i, p);
      assert d in sent1 && m in sent1;
    }
  }

  lemma SlotsStay(s: System, s1: System, a: Address, i: nat)
    requires HostsOk(s) && SlotsOk(s) && Changed(s, s1, a, i) && SlotOk(s1.sent, a, i, s1.hosts[a].slots[i])
    ensures HostsOk(s1) && SlotsOk(s1)
  {
    hide SlotOk;
    forall b {:trigger s1.hosts[b]} | b in s1.hosts ensures b in s1.connects && 1 <= s1.hosts[b].channelLimit {
      assert b in s.hosts;
      var _ := s.hosts[b];
    }
    forall b, j {:trigger s1.hosts[b].slots[j]} | b in s1.hosts && 0 <= j < |s1.hosts[b].slots|
      ensures SlotOk(s1.sent, b, j, s1.hosts[b].slots[j])
    {
      if b != a || j != i {
        assert b in s.hosts && s1.hosts[b].slots[j] == s.hosts[b].slots[j];
        SlotStays(s.sent, s1.sent, b, j, s.hosts[b].slots[j]);
      }
    }
  }

  lemma DatagramStays(s: System, s1: System, a: Address, i: nat, d: Datagram)
    requires DatagramOk(s, d) && Changed(s, s1, a, i) && SameSeeds(s, s1)
    ensures DatagramOk(s1, d)
  {
    hide Recent, Replies;
    if d.command.VerifyConnect? {
      var m :| m in s.sent && Replies(d, m);
      assert m in s1.sent;
    } else if d.command.Connect? {
      assert s1.hosts[d.from].randomSeed == s.hosts[d.from].randomSeed;
    }
  }

  lemma HeldStay(s: System, s1: System, a: Address, i: nat, d: Datagram)
    requires Changed(s, s1, a, i) && KeepsServing(s1, a, s.hosts[a].slots[i], s1.hosts[a].slots[i])
    requires d.command.VerifyConnect? && Held(s, d) && Current(s1, d)
    ensures Held(s1, d)
  {
    if d.from != a || d.command.answer.outgoingPeerID != i {
      assert s1.hosts[d.from].slots[d.command.answer.outgoingPeerID]
        == s.hosts[d.from].slots[d.command.answer.outgoingPeerID];
    }
  }

  /** The slot serves nothing new, or something that no other slot of its host serves. */
  ghost predicate StaysApart(slots: seq<Slot>, i: nat, p1: Slot)
    requires i < |slots|
  {
    || !Serving(p1)
    || (Serving(slots[i]) && p1.address == slots[i].address && p1.connectID == slots[i].connectID)
    || (forall j {:trigger slots[j]} :: 0 <= j < |slots| && j != i && Serving(slots[j]) ==>
          !(slots[j].address == p1.address && slots[j].connectID == p1.connectID))
  }

  lemma SlotsStayApart(s: System, s1: System, a: Address, i: nat)
    requires SlotsDiffer(s) && Changed(s, s1, a, i) && StaysApart(s.hosts[a].slots, i, s1.hosts[a].slots[i])
    ensures SlotsDiffer(s1)
  {
    forall b {:trigger s1.hosts[b]} | b in s1.hosts ensures OneSlot(s1.hosts[b].slots) {
      assert b in s.hosts && OneSlot(s.hosts[b].slots);
      if b == a {
        ApartAfter(s.hosts[a].slots, i, s1.hosts[a].slots[i]);
      }
    }
  }

  lemma ApartAfter(slots: seq<Slot>, i: nat, p1: Slot)
    requires i < |slots| && OneSlot(slots) && StaysApart(slots, i, p1)
    ensures OneSlot(slots[i := p1])
  {
  }

  // ----- steps that send no answer and no request -----

  predicate IsQuiet(d: Datagram) { d.command.Acknowledge? }

  ghost predicate OnlyQuiet(s: System, s1: System) {
    forall d {:trigger d in s1.sent} :: d in s1.sent ==> d in s.sent || IsQuiet(d)
  }

  ghost predicate NoAnswers(s: System, s1: System) {
    forall d {:trigger d in s1.sent} :: d in s1.sent ==> d in s.sent || !d.command.VerifyConnect?
  }

  lemma QuietKeeps(s: System, s1: System, a: Address, i: nat)
    requires Inv(s) && Changed(s, s1, a, i) && SameSeeds(s, s1) && OnlyQuiet(s, s1)
    requires SlotOk(s1.sent, a, i, s1.hosts[a].slots[i])
    requires KeepsServing(s1, a, s.hosts[a].slots[i], s1.hosts[a].slots[i])
    requires StaysApart(s.hosts[a].slots, i, s1.hosts[a].slots[i])
    ensures Inv(s1)
  {
    hide *;
    InvFacts(s);
    SlotsStay(s, s1, a, i);
    SlotsStayApart(s, s1, a, i);
    QuietDatagrams(s, s1, a, i);
    QuietOnce(s, s1);
    QuietHeld(s, s1, a, i);
    MakeInv(s1);
  }

  lemma InvFacts(s: System)
    requires Inv(s)
    ensures HostsOk(s) && SlotsOk(s) && DatagramsOk(s) && AnswersHeld(s) && OneAnswer(s) && OneRequest(s)
    ensures SlotsDiffer(s)
  {
  }

  lemma MakeInv(s: System)
    requires HostsOk(s) && SlotsOk(s) && DatagramsOk(s) && AnswersHeld(s) && OneAnswer(s) && OneRequest(s)
    requires SlotsDiffer(s)
    ensures Inv(s)
  {
  }

  lemma QuietDatagrams(s: System, s1: System, a: Address, i: nat)
    requires DatagramsOk(s) && Changed(s, s1, a, i) && SameSeeds(s, s1) && OnlyQuiet(s, s1)
    ensures DatagramsOk(s1)
  {
    hide Changed, SameSeeds, DatagramOk;
    forall d {:trigger DatagramOk(s1, d)} | d in s1.sent ensures DatagramOk(s1, d) {
      if d in s.sent {
        assert DatagramOk(s, d);
        DatagramStays(s, s1, a, i, d);
      } else {
        QuietOk(s1, d);
      }
    }
  }

  lemma QuietOk(s: System, d: Datagram)
    requires IsQuiet(d)
    ensures DatagramOk(s, d)
  {
  }

  lemma QuietHeld(s: System, s1: System, a: Address, i: nat)
    requires AnswersHeld(s) && OneAnswer(s) && Changed(s, s1, a, i) && NoAnswers(s, s1)
    requires KeepsServing(s1, a, s.hosts[a].slots[i], s1.hosts[a].slots[i])
    ensures AnswersHeld(s1) && OneAnswer(s1)
  {
    hide KeepsServing, Held;
    forall d {:trigger Current(s1, d)} | d in s1.sent && Current(s1, d) ensures Held(s1, d) {
      assert d in s.sent && Current(s, d);
      HeldStay(s, s1, a, i, d);
    }
    forall d, e {:trigger Current(s1, d), Current(s1, e)}
      | d in s1.sent && e in s1.sent && Current(s1, d) && Current(s1, e) && KeyOf(d) == KeyOf(e)
      ensures d == e
    {
      assert Current(s, d) && Current(s, e);
    }
  }

  lemma QuietOnce(s: System, s1: System)
    requires OneRequest(s) && OnlyQuiet(s, s1) && SameSeeds(s, s1)
    ensures OneRequest(s1) && NoAnswers(s, s1)
  {
    forall d, e {:trigger SameRequest(d, e)}
      | d in s1.sent && e in s1.sent && SameRequest(d, e) && d.from in s1.connects && s1.connects[d.from] <= TWO_32
      ensures d == e
    {
      assert d in s.sent && e in s.sent;
    }
  }

  /** A changed slot that is still the same end of the same connection. */
  predicate SameEnd(p: Slot, p1: Slot) {
    && p1 == p.(state := p1.state, throttle := p1.throttle, eventData := p1.eventData, channelCount := p1.channelCount)
    && (HasChannels(p1.state) ==> HasChannels(p.state) && p1.channelCount == p.channelCount)
  }

  lemma SameEndOk(sent: set<Datagram>, a: Address, i: nat, p: Slot, p1: Slot)
    requires SlotOk(sent, a, i, p) && SameEnd(p, p1)
    requires p.state.Disconnected? ==> p1.state.Disconnected?
    requires p1.state.Connecting? ==> p.state.Connecting?
    requires p.state.Connecting? ==> p1.state.Connecting? || p1.state.Zombie?
    requires p.state.Zombie? ==> p1.state.Zombie?
    ensures SlotOk(sent, a, i, p1)
  {
    if Serving(p1) {
      var d :| d in sent && Offers(d, a, i, p);
      assert Offers(d, a, i, p1);
    }
    if !p1.accepted && p1.state.Connecting? {
      var m :| m in sent && AsksAs(m, a, i, p);
      assert AsksAs(m, a, i, p1);
    }
    if Joined(p1) {
      var d, m :| d in sent && m in sent && Asks(m, a, i, p) && Took(d, m, a, i, p);
      assert Asks(m, a, i, p1) && Took(d, m, a, i, p1);
    }
  }

  lemma PutChanged(s: System, a: Address, i: nat, p1: Slot)
    requires HostsOk(s) && a in s.hosts && i < |s.hosts[a].slots|
    ensures Changed(s, PutSlot(s, a, i, p1), a, i) && SameSeeds(s, PutSlot(s, a, i, p1))
    ensures OnlyQuiet(s, PutSlot(s, a, i, p1))
    ensures PutSlot(s, a, i, p1).hosts[a].slots[i] == p1 && PutSlot(s, a, i, p1).sent == s.sent
    ensures PutSlot(s, a, i, p1).resets == s.resets
  {
  }

  lemma SlotHere(s: System, a: Address, i: nat)
    requires Inv(s) && a in s.hosts && i < |s.hosts[a].slots|
    ensures SlotOk(s.sent, a, i, s.hosts[a].slots[i]) && 1 <= s.hosts[a].channelLimit && HostsOk(s)
  {
    var _ := s.hosts[a].slots[i];
  }

  /** A slot's state or settings change within its connection. */
  lemma SameEndKeeps(s: System, a: Address, i: nat, p1: Slot)
    requires Inv(s) && a in s.hosts && i < |s.hosts[a].slots|
    requires var p := s.hosts[a].slots[i];
      && SameEnd(p, p1) && (p.state.Disconnected? <==> p1.state.Disconnected?)
      && (p1.state.Connecting? ==> p.state.Connecting?)
      && (p.state.Connecting? ==> p1.state.Connecting? || p1.state.Zombie?) && (p.state.Zombie? ==> p1.state.Zombie?)
    ensures Inv(PutSlot(s, a, i, p1))
  {
    hide Inv, PutSlot, SlotOk, Changed, SameSeeds, OnlyQuiet, HostsOk;
    SlotHere(s, a, i);
    PutChanged(s, a, i, p1);
    SameEndOk(s.sent, a, i, s.hosts[a].slots[i], p1);
    QuietKeeps(s, PutSlot(s, a, i, p1), a, i);
  }

  lemma ForgetKeeps(s: System, a: Address, i: nat)
    requires Inv(s) && Enabled(s, Forget(a, i))
    ensures Inv(Next(s, Forget(a, i)))
  {
    var p := s.hosts[a].slots[i];
    var s1 := Next(s, Forget(a, i));
    hide Inv, SlotOk;
    SlotHere(s, a, i);
    var p1 := ResetSlot(p, s.hosts[a]);
    assert s1 == PutSlot(s, a, i, p1).(resets := s1.resets);
    PutChanged(s, a, i, p1);
    IdleOk(s1.sent, a, i, p1);
    QuietKeeps(s, s1, a, i);
  }

  lemma IdleOk(sent: set<Datagram>, a: Address, i: nat, p: Slot)
    requires p.state.Disconnected?
    ensures SlotOk(sent, a, i, p)
  {
  }

  /** The client takes an answer: it and the request are what the slot now stands on. */
  lemma EstablishedOk(s: System, d: Datagram, event: bool)
    requires d in s.sent && d.to in s.hosts && Admitted(s.hosts[d.to], d.from, d.peerID, d.sessionID)
    requires d.command.VerifyConnect?
    requires var p := s.hosts[d.to].slots[d.peerID];
      p.state.Connecting? && SlotOk(s.sent, d.to, d.peerID, p) && Matches(p, d.command.answer)
    ensures SlotOk(s.sent, d.to, d.peerID, Established(s.hosts[d.to].slots[d.peerID], d.command.answer, event))
  {
    var p, v := s.hosts[d.to].slots[d.peerID], d.command.answer;
    var p1 := Established(p, v, event);
    hide Between;
    if !p.accepted {
      var m :| m in s.sent && AsksAs(m, d.to, d.peerID, p);
      assert Asks(m, d.to, d.peerID, p1) && Took(d, m, d.to, d.peerID, p1);
    }
  }

  lemma VerifyKeeps(s: System, d: Datagram, event: bool)
    requires Inv(s) && Enabled(s, Deliver(d, event)) && d.peerID != NO_PEER && d.command.VerifyConnect?
    ensures Inv(Receive(s, d, event))
  {
    hide Inv, SlotOk, Changed, SameSeeds, OnlyQuiet, HostsOk, Established, AcknowledgesVerify, HostConnect,
      HandleConnect, PutSlot;
    if Admitted(s.hosts[d.to], d.from, d.peerID, d.sessionID) {
      var a, i, p := d.to, d.peerID, s.hosts[d.to].slots[d.peerID];
      var p1 := HandleVerify(p, d.command.answer, event).0;
      SlotHere(s, a, i);
      PutChanged(s, a, i, p1);
      if p.state.Connecting? && Matches(p, d.command.answer) {
        EstablishedOk(s, d, event);
        EstablishedEnd(s.sent, a, i, p, d.command.answer, event);
      } else {
        SameEndOk(s.sent, a, i, p, p1);
      }
      var ack := Datagram(a, p1.address, p1.outgoingPeerID, p1.outgoingSessionID, Acknowledge);
      MoreQuiet(s, PutSlot(s, a, i, p1), a, i, ack);
      QuietKeeps(s, PutSlot(s, a, i, p1), a, i);
      QuietKeeps(s, Send(PutSlot(s, a, i, p1), ack), a, i);
    }
  }

  lemma EstablishedEnd(sent: set<Datagram>, a: Address, i: nat, p: Slot, v: VerifyCommand, event: bool)
    requires SlotOk(sent, a, i, p) && p.state.Connecting?
    ensures var p1 := Established(p, v, event);
      p1.address == p.address && p1.connectID == p.connectID && !Serving(p) && !Serving(p1)
  {
  }

  lemma MoreQuiet(s: System, s1: System, a: Address, i: nat, d: Datagram)
    requires Changed(s, s1, a, i) && SameSeeds(s, s1) && OnlyQuiet(s, s1) && IsQuiet(d)
    requires SlotOk(s1.sent, a, i, s1.hosts[a].slots[i])
    ensures Changed(s, Send(s1, d), a, i) && SameSeeds(s, Send(s1, d)) && OnlyQuiet(s, Send(s1, d))
    ensures SlotOk(Send(s1, d).sent, a, i, s1.hosts[a].slots[i])
  {
    SlotStays(s1.sent, Send(s1, d).sent, a, i, s1.hosts[a].slots[i]);
  }

  lemma AcknowledgementKeeps(s: System, d: Datagram, event: bool)
    requires Inv(s) && Enabled(s, Deliver(d, event)) && d.peerID != NO_PEER && d.command.Acknowledge?
    ensures Inv(Receive(s, d, event))
  {
    hide Inv, SlotOk, Changed, SameSeeds, OnlyQuiet, HostsOk, PutSlot, HandleConnect;
    if Admitted(s.hosts[d.to], d.from, d.peerID, d.sessionID) {
      SameEndKeeps(s, d.to, d.peerID, HandleAcknowledgement(s.hosts[d.to].slots[d.peerID], event));
    }
  }

  // ----- a request is accepted -----

  /** What accepting changes, by name. */
  ghost predicate Accepts(s: System, s1: System, d: Datagram, i: nat, p1: Slot, reply: Datagram) {
    && d in s.sent && d.command.Connect? && d.to in s.hosts && i < |s.hosts[d.to].slots|
    && s1 == Send(PutSlot(s, d.to, i, p1), reply)
    && s.hosts[d.to].slots[i].state.Disconnected?
    && Serving(p1) && Occupied(p1) && p1.address == d.from && p1.connectID == d.command.request.connectID
    && Offers(reply, d.to, i, p1) && Replies(reply, d)
    && !Served(s.hosts[d.to].slots, d.from, p1.connectID)
  }

  lemma AcceptsByName(s: System, d: Datagram, event: bool)
    requires Inv(s) && Enabled(s, Deliver(d, event)) && d.peerID == NO_PEER && d.command.Connect?
    requires !Refused(s.hosts[d.to], d.from, d.command.request)
    ensures var h, c := s.hosts[d.to], d.command.request;
      var i := FirstFree(h.slots);
      var p1 := Accepting(h.slots[i], h, d.from, c);
      Accepts(s, Receive(s, d, event), d, i, p1, AnswerDatagram(d.to, p1, Answer(p1, h, i, c)))
  {
    hide FirstFree, Between, SendWindow, ReceiveWindow, NextSession, Inv;
  }

  lemma AcceptKeeps(s: System, s1: System, d: Datagram, i: nat, p1: Slot, reply: Datagram)
    requires Inv(s) && Accepts(s, s1, d, i, p1, reply)
    ensures Inv(s1)
  {
    var a := d.to;
    hide *;
    AcceptFacts(s, s1, d, i, p1, reply);
    SlotsStay(s, s1, a, i);
    SlotsStayApart(s, s1, a, i);
    InvFacts(s);
    AcceptDatagrams(s, s1, d, i, p1, reply);
    AcceptHeld(s, s1, d, i, p1, reply);
    AcceptOnce(s, s1, d, i, p1, reply);
    MakeInv(s1);
  }

  lemma AcceptFacts(s: System, s1: System, d: Datagram, i: nat, p1: Slot, reply: Datagram)
    requires Inv(s) && Accepts(s, s1, d, i, p1, reply)
    ensures HostsOk(s) && SlotsOk(s) && SlotsDiffer(s)
    ensures Changed(s, s1, d.to, i) && SameSeeds(s, s1) && s1.hosts[d.to].slots[i] == p1 && reply in s1.sent
    ensures SlotOk(s1.sent, d.to, i, p1) && KeepsServing(s1, d.to, s.hosts[d.to].slots[i], p1)
    ensures StaysApart(s.hosts[d.to].slots, i, p1)
  {
    hide HasAnswer, HasRequest, HasOffer, Replies;
    assert reply in s1.sent;
    HasThisOffer(s1.sent, d.to, i, p1, reply);
    SlotHere(s, d.to, i);
    forall j {:trigger s.hosts[d.to].slots[j]}
      | 0 <= j < |s.hosts[d.to].slots| && j != i && Serving(s.hosts[d.to].slots[j])
      ensures !(s.hosts[d.to].slots[j].address == p1.address && s.hosts[d.to].slots[j].connectID == p1.connectID)
    {
      SlotHere(s, d.to, j);
      assert !Serves(s.hosts[d.to].slots[j], d.from, p1.connectID);
    }
  }

  lemma HasThisOffer(sent: set<Datagram>, a: Address, i: nat, p: Slot, d: Datagram)
    requires d in sent && Offers(d, a, i, p)
    ensures HasOffer(sent, a, i, p)
  {
  }

  lemma AcceptDatagrams(s: System, s1: System, d: Datagram, i: nat, p1: Slot, reply: Datagram)
    requires DatagramsOk(s) && Accepts(s, s1, d, i, p1, reply) && Changed(s, s1, d.to, i) && SameSeeds(s, s1)
    ensures DatagramsOk(s1)
  {
    hide Changed, SameSeeds, DatagramOk, Replies;
    forall e {:trigger DatagramOk(s1, e)} | e in s1.sent ensures DatagramOk(s1, e) {
      if e in s.sent {
        assert DatagramOk(s, e);
        DatagramStays(s, s1, d.to, i, e);
      } else {
        ReplyOk(s1, d, reply, i);
      }
    }
  }

  lemma ReplyOk(s: System, d: Datagram, reply: Datagram, i: nat)
    requires d in s.sent && Replies(reply, d) && reply.from in s.hosts && i < |s.hosts[reply.from].slots|
    requires reply.command.VerifyConnect? && reply.command.answer.outgoingPeerID == i
    ensures DatagramOk(s, reply)
  {
  }

  lemma AcceptHeld(s: System, s1: System, d: Datagram, i: nat, p1: Slot, reply: Datagram)
    requires AnswersHeld(s) && Accepts(s, s1, d, i, p1, reply) && Changed(s, s1, d.to, i)
    requires KeepsServing(s1, d.to, s.hosts[d.to].slots[i], p1) && s1.hosts[d.to].slots[i] == p1
    ensures AnswersHeld(s1)
  {
    hide KeepsServing, Changed, Replies;
    forall e {:trigger Current(s1, e)} | e in s1.sent && Current(s1, e) ensures Held(s1, e) {
      if e in s.sent {
        assert Current(s, e);
        HeldStay(s, s1, d.to, i, e);
      } else {
        assert e == reply;
      }
    }
  }

  /** No earlier answer is under the same connection: its slot would have refused the request. */
  lemma AcceptOnce(s: System, s1: System, d: Datagram, i: nat, p1: Slot, reply: Datagram)
    requires Inv(s) && Accepts(s, s1, d, i, p1, reply)
    ensures OneAnswer(s1) && OneRequest(s1)
  {
    hide DatagramsOk, SlotOk, SlotsOk, HostsOk, SlotsDiffer, Replies;
    forall e {:trigger Current(s1, e)} | e in s.sent && Current(s1, e) ensures KeyOf(e) != KeyOf(reply) {
      assert Current(s, e) && Held(s, e);
      HeldServes(s, e);
    }
    forall e, f {:trigger Current(s1, e), Current(s1, f)}
      | e in s1.sent && f in s1.sent && Current(s1, e) && Current(s1, f) && KeyOf(e) == KeyOf(f)
      ensures e == f
    {
      if e in s.sent && f in s.sent {
        assert Current(s, e) && Current(s, f);
      }
    }
    assert OneAnswer(s1);
    forall e, f {:trigger SameRequest(e, f)}
      | e in s1.sent && f in s1.sent && SameRequest(e, f) && e.from in s1.connects && s1.connects[e.from] <= TWO_32
      ensures e == f
    {
      assert e in s.sent && f in s.sent;
    }
  }

  lemma HeldServes(s: System, e: Datagram)
    requires SlotsOk(s) && e.command.VerifyConnect? && Held(s, e)
    ensures Served(s.hosts[e.from].slots, e.to, e.command.answer.connectID)
  {
    var _ := s.hosts[e.from].slots[e.command.answer.outgoingPeerID];
  }

  // ----- a request is made -----

  ghost predicate Makes(s: System, s1: System, a: Address, i: nat, p1: Slot, m: Datagram) {
    && a in s.hosts && a in s.connects && i < |s.hosts[a].slots| && s.hosts[a].slots[i].state.Disconnected?
    && p1.state.Connecting? && !p1.accepted && m.command.Connect? && Asks(m, a, i, p1)
    && m.command.request.channelCount == p1.channelCount && m.command.request.mtu == p1.mtu
    && p1.connectID == (s.hosts[a].randomSeed + 1) % TWO_32
    && s1 == Send(PutHost(s, a,
                          WithSlot(s.hosts[a].(randomSeed := p1.connectID), i, p1)).(connects :=
                            s.connects[a := s.connects[a] + 1]), m)
  }

  lemma MakesByName(s: System, a: Address, to: Address, channelCount: nat, data: nat)
    requires Enabled(s, ConnectTo(a, to, channelCount, data)) && FirstFree(s.hosts[a].slots) < |s.hosts[a].slots|
    ensures var (h, i) := (s.hosts[a], FirstFree(s.hosts[a].slots));
      var p1 := Asking(h.slots[i], h, to, channelCount, (h.randomSeed + 1) % TWO_32);
      Makes(s, Next(s, ConnectTo(a, to, channelCount, data)), a, i, p1,
            Datagram(a, to, NO_PEER, 0, Command.Connect(Request(p1, h, i, data))))
  {
    hide FirstFree, Between, SendWindow;
  }

  lemma MakeKeeps(s: System, s1: System, a: Address, i: nat, p1: Slot, m: Datagram)
    requires Inv(s) && Makes(s, s1, a, i, p1, m)
    ensures Inv(s1)
  {
    hide *;
    MakeFacts(s, s1, a, i, p1, m);
    SlotsStay(s, s1, a, i);
    SlotsStayApart(s, s1, a, i);
    QuietHeld(s, s1, a, i);
    InvFacts(s);
    MakeDatagrams(s, s1, a, i, p1, m);
    MakeOnce(s, s1, a, i, p1, m);
    MakeInv(s1);
  }

  lemma MakeFacts(s: System, s1: System, a: Address, i: nat, p1: Slot, m: Datagram)
    requires Inv(s) && Makes(s, s1, a, i, p1, m)
    ensures HostsOk(s) && SlotsOk(s) && SlotsDiffer(s) && AnswersHeld(s) && OneAnswer(s)
    ensures Changed(s, s1, a, i) && NoAnswers(s, s1) && s1.hosts[a].slots[i] == p1
    ensures SlotOk(s1.sent, a, i, p1) && KeepsServing(s1, a, s.hosts[a].slots[i], p1)
    ensures StaysApart(s.hosts[a].slots, i, p1)
  {
    hide HasAnswer, HasOffer, SlotsOk, DatagramsOk, OneAnswer, AnswersHeld, OneRequest, SlotsDiffer;
    SlotHere(s, a, i);
    assert m in s1.sent && AsksAs(m, a, i, p1);
  }

  lemma SeedMoves(seed: nat, count: nat, id: nat)
    requires id < TWO_32
    ensures Recent(seed, count, id) ==> Recent((seed + 1) % TWO_32, count + 1, id)
    ensures Recent((seed + 1) % TWO_32, count + 1, (seed + 1) % TWO_32)
    ensures Recent(seed, count, id) && count < TWO_32 ==> id != (seed + 1) % TWO_32
  {
  }

  lemma MakeDatagrams(s: System, s1: System, a: Address, i: nat, p1: Slot, m: Datagram)
    requires DatagramsOk(s) && Makes(s, s1, a, i, p1, m)
    ensures DatagramsOk(s1)
  {
    hide Recent, Replies;
    SeedMoves(s.hosts[a].randomSeed, s.connects[a], 0);
    forall e {:trigger DatagramOk(s1, e)} | e in s1.sent ensures DatagramOk(s1, e) {
      if e in s.sent {
        assert DatagramOk(s, e);
        if e.command.Connect? {
          SeedMoves(s.hosts[a].randomSeed, s.connects[a], e.command.request.connectID);
        } else if e.command.VerifyConnect? {
          var q :| q in s.sent && Replies(e, q);
          assert q in s1.sent;
        }
      }
    }
  }

  /** The new identifier is none of those given out before, as long as they have not come round. */
  lemma MakeOnce(s: System, s1: System, a: Address, i: nat, p1: Slot, m: Datagram)
    requires DatagramsOk(s) && OneRequest(s) && Makes(s, s1, a, i, p1, m)
    ensures OneRequest(s1)
  {
    hide Recent;
    forall e | e in s.sent && SameRequest(e, m) ensures s1.connects[a] > TWO_32 {
      assert DatagramOk(s, e);
      SeedMoves(s.hosts[a].randomSeed, s.connects[a], e.command.request.connectID);
    }
    forall e, f {:trigger SameRequest(e, f)}
      | e in s1.sent && f in s1.sent && SameRequest(e, f) && e.from in s1.connects && s1.connects[e.from] <= TWO_32
      ensures e == f
    {
      assert e in s.sent || e == m;
      assert f in s.sent || f == m;
      assert SameRequest(f, e);
      assert e in s.sent && f in s.sent ==> e == f;
    }
  }

  // ----- a host's limits change -----

  lemma ConfigureKeeps(s: System, a: Address, h: Handshake.HostState)
    requires Inv(s) && a in s.hosts && h.slots == s.hosts[a].slots && h.randomSeed == s.hosts[a].randomSeed
    requires 1 <= h.channelLimit
    ensures Inv(PutHost(s, a, h))
  {
    var s1 := PutHost(s, a, h);
    hide SlotOk, Recent, OneSlot, Replies;
    assert SlotsOk(s1) && HostsOk(s1) && SlotsDiffer(s1);
    forall e {:trigger DatagramOk(s1, e)} | e in s1.sent ensures DatagramOk(s1, e) {
      assert DatagramOk(s, e);
    }
    forall e {:trigger Current(s1, e)} | e in s1.sent && Current(s1, e) ensures Held(s1, e) {
      assert Current(s, e) && Held(s, e);
    }
    assert OneAnswer(s1) by {
      assert forall e {:trigger Current(s1, e)} :: Current(s1, e) == Current(s, e);
    }
  }

  // ----- runs -----

  lemma StepKeeps(s: System, step: Step)
    requires Inv(s) && Enabled(s, step)
    ensures Inv(Next(s, step))
  {
    match step
    case ConnectTo(a, to, channelCount, data) =>
      hide Inv, Makes, WithSlot, PutHost, Send;
      var h, i := s.hosts[a], FirstFree(s.hosts[a].slots);
      if i < |h.slots| {
        MakesByName(s, a, to, channelCount, data);
        var p1 := Asking(h.slots[i], h, to, channelCount, (h.randomSeed + 1) % TWO_32);
        MakeKeeps(s, Next(s, step), a, i, p1, Datagram(a, to, NO_PEER, 0, Command.Connect(Request(p1, h, i, data))));
      }
    case Deliver(d, event) => DeliverKeeps(s, d, event);
    case Advance(a, i, t, cleared) =>
      hide Inv;
      SameEndKeeps(s, a, i, Advanced(s.hosts[a].slots[i], t, cleared));
    case Forget(a, i) => ForgetKeeps(s, a, i);
    case SetThrottle(a, i, t) =>
      hide Inv;
      SameEndKeeps(s, a, i, s.hosts[a].slots[i].(throttle := t));
    case Configure(a, limit, mtu, incoming, outgoing, duplicates) =>
      hide Inv;
      ConfigureKeeps(s, a, s.hosts[a].(channelLimit := limit, mtu := mtu, incomingBandwidth := incoming,
                                       outgoingBandwidth := outgoing,
                                       duplicatePeers := duplicates));
  }

  lemma DeliverKeeps(s: System, d: Datagram, event: bool)
    requires Inv(s) && Enabled(s, Deliver(d, event))
    ensures Inv(Receive(s, d, event))
  {
    hide Inv, Accepts, PutSlot, PutHost, Accepting, Answer, Refused, HandleVerify, HandleAcknowledgement;
    if d.peerID == NO_PEER {
      if d.command.Connect? && !Refused(s.hosts[d.to], d.from, d.command.request) {
        AcceptsByName(s, d, event);
        var h, c := s.hosts[d.to], d.command.request;
        var i := FirstFree(h.slots);
        NotRefused(h, d.from, c);
        var p1 := Accepting(h.slots[i], h, d.from, c);
        AcceptKeeps(s, Receive(s, d, event), d, i, p1, AnswerDatagram(d.to, p1, Answer(p1, h, i, c)));
      }
    } else {
      match d.command
      case Connect(_) =>
      case VerifyConnect(_) => VerifyKeeps(s, d, event);
      case Acknowledge => AcknowledgementKeeps(s, d, event);
    }
  }

  lemma NotRefused(h: Handshake.HostState, from: Address, c: ConnectCommand)
    requires !Refused(h, from, c)
    ensures FirstFree(h.slots) < |h.slots|
  {
  }

  ghost predicate Initial(s: System) {
    && s.sent == {} && s.resets == {}
    && forall a {:trigger s.hosts[a]} :: a in s.hosts ==>
         a in s.connects && s.connects[a] == 0 && 1 <= s.hosts[a].channelLimit
         && forall i {:trigger s.hosts[a].slots[i]} :: 0 <= i < |s.hosts[a].slots| ==>
              s.hosts[a].slots[i] == FreshSlot(1400)
  }

  ghost predicate IsRun(run: seq<System>, steps: seq<Step>) {
    && |run| == |steps| + 1 && Initial(run[0])
    && forall k {:trigger steps[k]} :: 0 <= k < |steps| ==>
         Enabled(run[k], steps[k]) && run[k + 1] == Next(run[k], steps[k])
  }

  lemma {:induction false} RunOk(run: seq<System>, steps: seq<Step>, k: nat)
    requires IsRun(run, steps) && k < |run|
    ensures Inv(run[k])
    decreases k
  {
    if k == 0 {
      hide HasOffer, HasAnswer, HasRequest;
      assert SlotsOk(run[0]);
    } else {
      RunOk(run, steps, k - 1);
      hide Inv, Next, Enabled;
      assert run[k - 1 + 1] == Next(run[k - 1], steps[k - 1]);
      StepKeeps(run[k - 1], steps[k - 1]);
    }
  }

  /** In every run, a connect request that is repeated by the network is served by one slot:
      no two slots of a host serve one address under one connect identifier. */
  lemma ServedOnce(run: seq<System>, steps: seq<Step>, k: nat, a: Address, i: nat, j: nat)
    requires IsRun(run, steps) && k < |run| && a in run[k].hosts && i < j < |run[k].hosts[a].slots|
    requires Serving(run[k].hosts[a].slots[i]) && Serving(run[k].hosts[a].slots[j])
    ensures run[k].hosts[a].slots[i].address != run[k].hosts[a].slots[j].address
            || run[k].hosts[a].slots[i].connectID != run[k].hosts[a].slots[j].connectID
  {
    RunOk(run, steps, k);
    hide IsRun, HostsOk, SlotsOk, DatagramsOk, AnswersHeld, OneAnswer, OneRequest;
    assert OneSlot(run[k].hosts[a].slots);
  }

  /** The ends of one connection: a slot of `a` that joined `b`, and one of `b` that serves `a`. */
  ghost predicate Ends(s: System, a: Address, i: nat, b: Address, j: nat) {
    && a in s.hosts && b in s.hosts && i < |s.hosts[a].slots| && j < |s.hosts[b].slots|
    && var p, q := s.hosts[a].slots[i], s.hosts[b].slots[j];
      && Joined(p) && Serving(q) && p.address == b && q.address == a && p.connectID == q.connectID
      && Key(b, a, q.connectID) !in s.resets
  }

  predicate Crossed(p: Slot, i: nat, q: Slot, j: nat) {
    && p.outgoingPeerID == j && q.outgoingPeerID == i
    && p.incomingSessionID == q.outgoingSessionID && p.outgoingSessionID == q.incomingSessionID
  }

  /** What the ends agree on, given the client's own request: as long as both still have their
      channels, how many there are; and the MTU just when the client asked for no less than the
      protocol's minimum. */
  predicate Agree(p: Slot, q: Slot, m: Datagram)
    requires m.command.Connect?
  {
    && (HasChannels(p.state) && HasChannels(q.state) ==> p.channelCount == q.channelCount)
    && (p.mtu == q.mtu <==> MINIMUM_MTU <= m.command.request.mtu)
  }

  /** In every run, the two ends of a connection whose server slot was not reset name each
      other and hold crossed session identifiers.  The client made a request under their connect
      identifier; and while its identifiers have not come round, any such request says what the
      ends agree on. */
  lemma EndsAgree(run: seq<System>, steps: seq<Step>, k: nat, a: Address, i: nat, b: Address, j: nat)
    requires IsRun(run, steps) && k < |run| && Ends(run[k], a, i, b, j)
    ensures a in run[k].connects
    ensures var p, q := run[k].hosts[a].slots[i], run[k].hosts[b].slots[j];
      && Crossed(p, i, q, j)
      && (exists m {:trigger Asks(m, a, i, p)} :: m in run[k].sent && Asks(m, a, i, p))
      && (run[k].connects[a] <= TWO_32 ==>
            forall m {:trigger Asks(m, a, i, p)} :: m in run[k].sent && Asks(m, a, i, p) ==> Agree(p, q, m))
  {
    RunOk(run, steps, k);
    EndsMatch(run[k], a, i, b, j);
  }

  lemma EndsMatch(s: System, a: Address, i: nat, b: Address, j: nat)
    requires Inv(s) && Ends(s, a, i, b, j)
    ensures a in s.connects
    ensures var p, q := s.hosts[a].slots[i], s.hosts[b].slots[j];
      && Crossed(p, i, q, j)
      && (exists m {:trigger Asks(m, a, i, p)} :: m in s.sent && Asks(m, a, i, p))
      && (s.connects[a] <= TWO_32 ==>
            forall m {:trigger Asks(m, a, i, p)} :: m in s.sent && Asks(m, a, i, p) ==> Agree(p, q, m))
  {
    var p, q := s.hosts[a].slots[i], s.hosts[b].slots[j];
    hide Took, Offers, Replies, Asks, Recent, Held, OneSlot;
    SlotHere(s, a, i);
    SlotHere(s, b, j);
    assert a in s.connects by { var _ := s.hosts[a]; }
    var d, m :| d in s.sent && m in s.sent && Asks(m, a, i, p) && Took(d, m, a, i, p);
    var e :| e in s.sent && Offers(e, b, j, q);
    SameAnswer(s, a, i, b, j, d, m, e);
    assert DatagramOk(s, d);
    var n :| n in s.sent && Replies(d, n);
    AnswerAgrees(p, q, a, i, b, j, d, m);
    if s.connects[a] <= TWO_32 {
      RepliesSame(s, a, i, b, j, d, m, n);
      forall m1 {:trigger Asks(m1, a, i, p)} | m1 in s.sent && Asks(m1, a, i, p) ensures Agree(p, q, m1) {
        RequestSame(s, a, i, b, j, m, m1);
      }
    }
  }

  /** The answer the client took is the one the server gave. */
  lemma SameAnswer(s: System, a: Address, i: nat, b: Address, j: nat, d: Datagram, m: Datagram, e: Datagram)
    requires OneAnswer(s) && Ends(s, a, i, b, j) && d in s.sent && e in s.sent
    requires Took(d, m, a, i, s.hosts[a].slots[i]) && Offers(e, b, j, s.hosts[b].slots[j])
    ensures d == e && d.command.VerifyConnect?
  {
    assert Current(s, d) && Current(s, e) && KeyOf(d) == KeyOf(e);
  }

  /** The request it answers is the client's own. */
  lemma RepliesSame(s: System, a: Address, i: nat, b: Address, j: nat, d: Datagram, m: Datagram, n: Datagram)
    requires OneRequest(s) && Ends(s, a, i, b, j) && m in s.sent && n in s.sent && a in s.connects
    requires s.connects[a] <= TWO_32
    requires Asks(m, a, i, s.hosts[a].slots[i]) && Took(d, m, a, i, s.hosts[a].slots[i]) && Replies(d, n)
    ensures n == m
  {
    assert SameRequest(n, m);
  }

  /** While identifiers have not come round, the request is the only one under its identifier. */
  lemma RequestSame(s: System, a: Address, i: nat, b: Address, j: nat, m: Datagram, m1: Datagram)
    requires OneRequest(s) && Ends(s, a, i, b, j) && m in s.sent && m1 in s.sent && a in s.connects
    requires s.connects[a] <= TWO_32
    requires Asks(m, a, i, s.hosts[a].slots[i]) && Asks(m1, a, i, s.hosts[a].slots[i])
    ensures m1 == m
  {
    assert SameRequest(m, m1);
  }

  lemma AnswerAgrees(p: Slot, q: Slot, a: Address, i: nat, b: Address, j: nat, d: Datagram, m: Datagram)
    requires Took(d, m, a, i, p) && Offers(d, b, j, q)
    ensures Crossed(p, i, q, j)
    ensures Replies(d, m) ==> m.command.Connect? && Agree(p, q, m)
  {
  }
}
