/** On what terms two hosts connect: how many channels, and how much each may send ahead. */
module HandshakeTerms {
  import opened Handshake
  import opened HandshakeRuns
  import opened PeerStates
  import Sums
  import opened Words

  // ----- windows -----

  /** A window of `w` bytes is a sixteenth of the bandwidth, in steps of 4096 bytes. */
  predicate SixteenthOf(w: nat, bandwidth: nat) { 16 * w <= bandwidth < 16 * (w + 4096) }

  /** What a host may send ahead is at least 4096 bytes and at most 65536; in between it is a
      sixteenth of the smaller of the limits that there are. */
  lemma SendsAhead(outgoing: nat, theirIncoming: nat)
    ensures var w := SendWindow(outgoing, theirIncoming);
      && 4096 <= w <= 65536
      && (w > 4096 && outgoing > 0 ==> 16 * w <= outgoing)
      && (w > 4096 && theirIncoming > 0 ==> 16 * w <= theirIncoming)
      && (w < 65536 ==> 0 < outgoing < 16 * (w + 4096) || 0 < theirIncoming < 16 * (w + 4096))
      && (4096 < w < 65536 ==> SixteenthOf(w, outgoing) || SixteenthOf(w, theirIncoming))
  {
  }

  /** What the server lets the client send ahead is within what the client asked for, unless that
      is less than the minimum, and within a sixteenth of its own incoming bandwidth. */
  lemma LetsSend(incoming: nat, asked: nat)
    ensures var w := ReceiveWindow(incoming, asked);
      && 4096 <= w <= 65536 && (w > 4096 ==> w <= asked)
      && (w > 4096 && incoming > 0 ==> 16 * w <= incoming)
      && (w < 65536 ==> asked < w + 4096 || 0 < incoming < 16 * (w + 4096))
  {
  }

  /** The client takes the smaller of what it asked for and what it was let. */
  lemma TakesWindow(p: Slot, c: VerifyCommand, event: bool)
    ensures var w := Established(p, c, event).windowSize;
      && w <= p.windowSize
      && (4096 <= c.windowSize <= 65536 ==> w <= c.windowSize && (w == p.windowSize || w == c.windowSize))
  {
  }

  /** And the smaller of the datagram sizes, within 576 and 4096 bytes. */
  lemma TakesMtu(p: Slot, c: VerifyCommand, event: bool)
    ensures var mtu := Established(p, c, event).mtu;
      && mtu <= p.mtu && mtu <= 4096 && (mtu < p.mtu ==> mtu >= 576)
      && (576 <= c.mtu <= 4096 ==> mtu <= c.mtu && (mtu == p.mtu || mtu == c.mtu))
  {
  }

  /** What the two ends learn of each other in one exchange. */
  ghost predicate Told(client: Slot, server: Slot, h: Handshake.HostState, there: Handshake.HostState, i: nat, j: nat)
  {
    && server.incomingBandwidth == h.incomingBandwidth && server.outgoingBandwidth == h.outgoingBandwidth
    && client.incomingBandwidth == there.incomingBandwidth && client.outgoingBandwidth == there.outgoingBandwidth
    && server.outgoingPeerID == i && client.outgoingPeerID == j
    && server.connectID == client.connectID && server.throttle == client.throttle
    && server.incomingSessionID == client.outgoingSessionID && server.outgoingSessionID == client.incomingSessionID
    && server.channelCount == client.channelCount
  }

  /** A request that is accepted, and the answer to it: each end knows the other's bandwidths and slot,
      they share the identifiers, and the application's number comes through.  The number of channels
      asked for is at least 1 and at most 255. */
  lemma ExchangeTells(p: Slot, h: Handshake.HostState, q: Slot, there: Handshake.HostState, i: nat, j: nat,
                      to: Address, from: Address, channelCount: nat, connectID: nat, data: nat, event: bool)
    requires there.channelLimit >= 1
    ensures var asking := Asking(p, h, to, channelCount, connectID);
      var c := Request(asking, h, i, data);
      var server := Accepting(q, there, from, c);
      var v := Answer(server, there, j, c);
      && c.channelCount == (if channelCount < 1 then 1 else if channelCount > 255 then 255 else channelCount)
      && server.eventData == data && server.connectID == connectID && server.address == from && asking.address == to
      && HandleVerify(asking, v, event) == (Established(asking, v, event), true)
      && Told(Established(asking, v, event), server, h, there, i, j)
  {
    hide SendWindow, ReceiveWindow, NextSession;
  }

  /** The client takes no other answer: it gives up when the identifier or the throttle is not its own,
      or the number of channels is none. */
  lemma OnlyItsAnswer(p: Slot, c: VerifyCommand, event: bool)
    requires p.state.Connecting?
    ensures var (p1, ok) := HandleVerify(p, c, event);
      && (ok <==> 1 <= c.channelCount <= 255 && c.throttle == p.throttle && c.connectID == p.connectID)
      && p1.state == (if !ok then Zombie else if event then Connected else ConnectionSucceeded)
      && (!ok ==> p1 == p.(state := Zombie, eventData := 0))
  {
  }

  // ----- how many of one host -----

  /** Accepting a request never makes more slots serve one host than are allowed; and a request that a
      free slot could serve, of a peer not served yet, is refused only for that. */
  lemma FewOfOneHost(h: Handshake.HostState, from: Address, c: ConnectCommand)
    ensures var h1 := HandleConnect(h, from, c).0;
      !Refused(h, from, c) ==> Sums.Count(h1.slots, p => From(p, from.host)) <= h.duplicatePeers
    ensures Refused(h, from, c) && 1 <= c.channelCount <= 255 && FirstFree(h.slots) < |h.slots|
            && !Served(h.slots, from, c.connectID) ==>
      Sums.Count(h.slots, p => From(p, from.host)) + 1 > h.duplicatePeers
  {
    if !Refused(h, from, c) {
      var i := FirstFree(h.slots);
      var p := Accepting(h.slots[i], h, from, c);
      Sums.CountUpdate(h.slots, i, p, p => From(p, from.host));
    }
  }

  // ----- first connections -----

  /** A slot that was never used asks with the default throttle, and two such slots come to session 0
      both ways. */
  lemma FirstTerms(mine: nat, theirs: nat, h: Handshake.HostState, there: Handshake.HostState, to: Address,
                   from: Address, channelCount: nat, connectID: nat, data: nat)
    ensures var c := Request(Asking(FreshSlot(mine), h, to, channelCount, connectID), h, 0, data);
      var p := Accepting(FreshSlot(theirs), there, from, c);
      && c.throttle == p.throttle == Throttle(5000, 2, 2)
      && c.windowSize == SendWindow(h.outgoingBandwidth, 0) && c.mtu == mine
      && p.incomingSessionID == p.outgoingSessionID == 0
  {
    hide SendWindow;
  }

  /** After a reset too, but the sessions go on from the last ones. */
  lemma LaterTerms(p: Slot, h: Handshake.HostState, to: Address, channelCount: nat, connectID: nat, data: nat)
    ensures var c := Request(Asking(ResetSlot(p, h), h, to, channelCount, connectID), h, 0, data);
      && c.throttle == Throttle(5000, 2, 2) && c.mtu == h.mtu
      && c.incomingSessionID == p.incomingSessionID && c.outgoingSessionID == p.outgoingSessionID
  {
    hide SendWindow;
  }

  // ----- channels -----

  /** The answer to request `c`, as host `h` gives it. */
  ghost predicate AnsweredBy(h: Handshake.HostState, c: ConnectCommand, v: VerifyCommand) {
    && 1 <= c.channelCount <= 255
    && v.channelCount <= c.channelCount && v.channelCount <= h.channelLimit
    && (v.channelCount == c.channelCount || v.channelCount == h.channelLimit)
    && 576 <= v.mtu <= 4096 && (576 <= c.mtu <= 4096 ==> v.mtu == c.mtu)
    && (v.mtu > c.mtu ==> v.mtu == 576) && (v.mtu < c.mtu ==> v.mtu == 4096)
    && (h.incomingBandwidth == 0 || v.windowSize == 4096 || 16 * v.windowSize <= h.incomingBandwidth)
    && v.incomingBandwidth == h.incomingBandwidth && v.outgoingBandwidth == h.outgoingBandwidth
    && v.connectID == c.connectID && v.throttle == c.throttle
  }

  /** Step `j` of the run answered a request with `d`. */
  ghost predicate AnswersAt(run: seq<System>, j: nat, d: Datagram) {
    && j < |run| && d.command.VerifyConnect? && d.from in run[j].hosts
    && exists m {:trigger Replies(d, m)} :: m in run[j].sent && Replies(d, m) && m.command.Connect?
         && AnsweredBy(run[j].hosts[d.from], m.command.request, d.command.answer)
  }

  lemma AnswerMade(h: Handshake.HostState, from: Address, c: ConnectCommand)
    requires !Refused(h, from, c)
    ensures FirstFree(h.slots) < |h.slots|
    ensures var i := FirstFree(h.slots);
      AnsweredBy(h, c, Answer(Accepting(h.slots[i], h, from, c), h, i, c))
  {
    LetsSend(h.incomingBandwidth, c.windowSize);
    hide ReceiveWindow, SendWindow;
  }

  /** Only a request that is accepted brings a new answer. */
  lemma NewAnswer(s: System, step: HandshakeRuns.Step, d: Datagram)
    requires Enabled(s, step) && d in Next(s, step).sent && d !in s.sent && d.command.VerifyConnect?
    ensures step.Deliver? && d.from == step.datagram.to && d.from in s.hosts && step.datagram in s.sent
    ensures var m := step.datagram;
      && m.command.Connect? && Replies(d, m)
      && AnsweredBy(s.hosts[d.from], m.command.request, d.command.answer)
  {
    hide HandleVerify, HandleAcknowledgement, HostConnect, Refused, SendWindow, ReceiveWindow, AnsweredBy, Request,
      Advanced, ResetSlot, Admitted;
    if step.Deliver? {
      var m := step.datagram;
      if m.peerID == NO_PEER && m.command.Connect? {
        var h, c := s.hosts[m.to], m.command.request;
        if !Refused(h, m.from, c) {
          AnswerMade(h, m.from, c);
        }
      }
    }
  }

  /** Every answer was made in some step of the run. */
  lemma {:induction false} AnswerFrom(run: seq<System>, steps: seq<HandshakeRuns.Step>, k: nat, d: Datagram)
    returns (j: nat)
    requires IsRun(run, steps) && k < |run| && d in run[k].sent && d.command.VerifyConnect?
    ensures j < k && AnswersAt(run, j, d)
    decreases k
  {
    hide Enabled, Next, Replies, AnsweredBy;
    if k > 0 {
      assert run[k - 1 + 1] == Next(run[k - 1], steps[k - 1]);
      if d in run[k - 1].sent {
        j := AnswerFrom(run, steps, k - 1, d);
      } else {
        NewAnswer(run[k - 1], steps[k - 1], d);
        j := k - 1;
      }
    }
  }

  /** In every run, the number of channels that two ends agree on is at most what the client asked
      for, at most the server's limit when it answered, and one of the two. */
  lemma ChannelsWithin(run: seq<System>, steps: seq<HandshakeRuns.Step>, k: nat, a: Address, i: nat, b: Address, j: nat)
    returns (when: nat, m: Datagram)
    requires IsRun(run, steps) && k < |run| && Ends(run[k], a, i, b, j)
    requires HasChannels(run[k].hosts[b].slots[j].state)
    ensures when < k && b in run[when].hosts && m in run[when].sent && m.command.Connect?
    ensures m.from == a && m.to == b && m.command.request.connectID == run[k].hosts[b].slots[j].connectID
    ensures var count := run[k].hosts[b].slots[j].channelCount;
      && count <= m.command.request.channelCount && count <= run[when].hosts[b].channelLimit
      && (count == m.command.request.channelCount || count == run[when].hosts[b].channelLimit)
  {
    RunOk(run, steps, k);
    var q := run[k].hosts[b].slots[j];
    SlotHere(run[k], b, j);
    hide IsRun, Inv, Replies, AnsweredBy;
    var d :| d in run[k].sent && Offers(d, b, j, q);
    when := AnswerFrom(run, steps, k, d);
    m :| m in run[when].sent && Replies(d, m) && m.command.Connect?
      && AnsweredBy(run[when].hosts[d.from], m.command.request, d.command.answer);
    ReplyOf(d, m, run[when].hosts[b]);
  }

  lemma ReplyOf(d: Datagram, m: Datagram, h: Handshake.HostState)
    requires Replies(d, m) && AnsweredBy(h, m.command.request, d.command.answer)
    ensures m.from == d.to && m.to == d.from && m.command.request.connectID == d.command.answer.connectID
    ensures var count := d.command.answer.channelCount;
      && count <= m.command.request.channelCount && count <= h.channelLimit
      && (count == m.command.request.channelCount || count == h.channelLimit)
  {
  }
}
