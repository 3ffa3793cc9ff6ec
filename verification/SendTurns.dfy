/** One peer's turn to send: acknowledgements, timeouts, reliable commands, a ping and unreliable
    commands, and how much work it leaves. */
module SendTurns {
  import opened PeerStates
  import opened SendPasses
  import opened Sending
  import Sums
  import WireSizes
  import opened Words

  const PING_SIZE := WireSizes.PING
  const DISCONNECT_SIZE := WireSizes.DISCONNECT

  /** What of a peer takes part in sending. */
  datatype Line = Line(
    state: State, sender: Sender, acknowledgements: seq<Ack>, unreliable: seq<Piece>, counter: nat,
    lastReceiveTime: uint32, pingInterval: nat)

  /** Peers that take turns. */
  predicate Takes(s: State) { !s.Disconnected? && !s.Zombie? }

  /** Every command fits a datagram of its own, and timeouts are steady. */
  ghost predicate LineOk(l: Line) {
    SenderOk(l.sender) && |l.sender.channels| <= 0xFF && PiecesFit(l.unreliable, l.sender.limits.mtu)
  }

  predicate Due(s: Sender, now: uint32) { s.sent != [] && !TimeLess(now, s.nextTimeout) }

  predicate Idle(l: Line, now: uint32) { TimeDifference(now, l.lastReceiveTime) >= l.pingInterval }

  /** A ping is queued by a connected peer only. */
  function Pinged(s: Sender, state: State): Sender { if state.Connected? then QueuedOwn(s, 0, PING_SIZE) else s }

  /** A ping is due when nothing could be sent, nothing is on the wire, and the peer is idle. */
  predicate PingDue(l: Line, p: Pass, now: uint32) {
    p.canPing && p.s.sent == [] && Idle(l, now) && p.d.packetSize + PING_SIZE <= p.s.limits.mtu
  }

  predicate HasDisconnect(acks: seq<Ack>) { exists k {:trigger acks[k]} :: 0 <= k < |acks| && acks[k].disconnect }

  /** The peer whose disconnect is acknowledged becomes a zombie. */
  function AfterAcks(state: State, acks: seq<Ack>): State { if HasDisconnect(acks) then Zombie else state }

  /** The queues of a peer that has sent everything and now disconnects. */
  function Disconnects(l: Line): Line {
    l.(state := Disconnecting, acknowledgements := [],
       sender := QueuedOwn(l.sender.(channels := [], outgoing := [], sent := []), 0, DISCONNECT_SIZE))
  }

  predicate Finished(l: Line) {
    l.state.DisconnectLater? && l.sender.outgoing == [] && l.unreliable == [] && l.sender.sent == []
  }

  /** Whether giving a peer up is reported at once, given that an event can be. */
  predicate ReportsLoss(s: State) {
    s.Connecting? || !(s.Disconnected? || s.AcknowledgingConnect? || s.ConnectionPending?)
  }

  /** A peer is given up: it is reset, or waits as a zombie for its event. */
  function GivesUp(l: Line, event: bool): Line {
    if ReportsLoss(l.state) && !event then l.(state := Zombie)
    else l.(state := Disconnected, acknowledgements := [], unreliable := [],
            sender := l.sender.(channels := [], outgoing := [], sent := []))
  }

  // ----- a turn -----

  datatype TurnResult = TurnResult(line: Line, datagram: Datagram, gone: bool, reported: bool)

  /** Everything reliable of a turn, from where the acknowledgements have been sent. */
  function ReliableTurn(l: Line, s: Sender, d: Datagram, now: uint32): Pass
    requires CanGoOn(PassFrom(s, d)) && |s.channels| <= 0xFF
  {
    PassWent(PassFrom(s, d), now);
    var p := Passed(PassFrom(s, d), now);
    if PingDue(l, p, now) then (
      PingedGoesOn(p, l.state, now);
      Passed(PassFrom(Pinged(p.s, l.state), p.d), now))
    else p
  }

  lemma PingedGoesOn(p: Pass, state: State, now: uint32)
    requires CanGoOn(p) && p.d.packetSize + PING_SIZE <= p.s.limits.mtu && |p.s.channels| <= 0xFF
    ensures var q := PassFrom(Pinged(p.s, state), p.d);
      && CanGoOn(q) && PassOk(q)
      && forall i {:trigger q.s.outgoing[i]} :: 0 <= i < |q.s.outgoing| ==> Fits(q.s.outgoing[i], q.s.limits.mtu)
  {
    var s, mtu, n := p.s, p.s.limits.mtu, |p.s.channels|;
    if state.Connected? {
      var c := Pinged(s, state).outgoing[|s.outgoing|];
      assert Sound(c, mtu, n);
      OneMoreSound(s.outgoing, |s.outgoing|, c, mtu, n);
      assert s.outgoing[..|s.outgoing|] + [c] + s.outgoing[|s.outgoing|..] == s.outgoing + [c];
    }
    PassAt(PassFrom(Pinged(s, state), p.d), now);
  }

  function Checked(s: Sender, now: uint32, checks: bool): (Sender, bool) {
    if checks && Due(s, now) then TimedOut(s, 0, 0, now) else (s, false)
  }

  /** What a peer's turn makes of it, the datagram it fills, and whether the peer was given up
      and that is reported. */
  function Turn(l: Line, now: uint32, checks: bool, event: bool): TurnResult
    requires LineOk(l)
  {
    var mtu := l.sender.limits.mtu;
    var (acks, d) := SentAcks(l.acknowledgements, Empty(), mtu);
    AcksSent(l.acknowledgements, Empty(), mtu);
    var state := AfterAcks(l.state, l.acknowledgements[..|l.acknowledgements| - |acks|]);
    var (s, gone) := Checked(l.sender, now, checks);
    if gone then
      TurnResult(GivesUp(l.(sender := s, acknowledgements := acks, state := state), event), d, true,
                 event && ReportsLoss(state))
    else (
      var l0 := l.(state := state);
      TurnStarts(l, now, checks);
      ReliableWent(l0, s, d, now);
      var p := ReliableTurn(l0, s, d, now);
      var (pieces, d1, counter) := SentPieces(l.unreliable, p.d, l.counter, p.s.limits.packetThrottle, mtu);
      var l1 := l0.(sender := p.s, acknowledgements := acks, unreliable := pieces, counter := counter);
      TurnResult(if l.unreliable != [] && Finished(l1) then Disconnects(l1) else l1, d1, false, false))
  }

  /** The reliable part of a turn begins as it must. */
  lemma TurnStarts(l: Line, now: uint32, checks: bool)
    requires LineOk(l)
    ensures var d := SentAcks(l.acknowledgements, Empty(), l.sender.limits.mtu).1;
      var s := Checked(l.sender, now, checks).0;
      CanGoOn(PassFrom(s, d)) && |s.channels| <= 0xFF && s.limits == l.sender.limits
  {
    AcksSent(l.acknowledgements, Empty(), l.sender.limits.mtu);
    TimedOutReturns(l.sender, 0, 0, now);
    hide SentAcks, TimedOut, AllSound, Due, PiecesFit;
  }

  // ----- the amount of work -----

  ghost predicate Pingable(state: State, s: Sender) {
    state.Connected? && s.sent == [] && NoOwn(s.outgoing, |s.channels|, 0)
  }

  ghost function One(b: bool): nat { if b then 1 else 0 }

  ghost function Work(state: State, s: Sender, now: uint32): nat {
    |s.outgoing| + 2 * Late(s.sent, now) + One(Pingable(state, s))
  }

  ghost function Pending(l: Line, now: uint32): nat {
    |l.acknowledgements| + |l.unreliable| + Work(l.state, l.sender, now) + One(l.state.DisconnectLater?)
  }

  /** What the reliable part of a turn comes to. */
  ghost predicate TurnWent(state: State, s: Sender, d: Datagram, p: Pass, now: uint32) {
    && CanGoOn(p) && p.s.limits == s.limits && |p.s.channels| == |s.channels|
    && d.commandCount <= p.d.commandCount
    && Work(state, p.s, now) + p.d.commandCount <= Work(state, s, now) + d.commandCount
    && (p.d.full ==> d.full || p.d.commandCount > 0) && (d.full ==> p.d.full)
    && (!p.d.full ==> NothingToSend(p.s))
  }

  /** A pass over the queue would skip everything in it. */
  ghost predicate NothingToSend(s: Sender)
    requires SenderOk(s)
  {
    Held(PassFrom(s, Empty()))
  }

  lemma ReliableWent(l: Line, s: Sender, d: Datagram, now: uint32)
    requires CanGoOn(PassFrom(s, d)) && |s.channels| <= 0xFF
    ensures TurnWent(l.state, s, d, ReliableTurn(l, s, d, now), now)
  {
    PassWent(PassFrom(s, d), now);
    var p := Passed(PassFrom(s, d), now);
    hide Passed, PassOk, Late, NoOwn, Idle, NothingToSend;
    LeftHeld(PassFrom(s, d), now);
    OnlyPass(l.state, s, d, p, now);
    if PingDue(l, p, now) {
      PingedGoesOn(p, l.state, now);
      PassWent(PassFrom(Pinged(p.s, l.state), p.d), now);
      LeftHeld(PassFrom(Pinged(p.s, l.state), p.d), now);
      PingPass(l.state, s, d, p, Passed(PassFrom(Pinged(p.s, l.state), p.d), now), now);
    }
  }

  /** What a pass leaves when there was room is held back. */
  lemma LeftHeld(p: Pass, now: uint32)
    requires CanGoOn(p) && p == PassFrom(p.s, p.d)
    ensures PassOk(p) && forall i {:trigger p.s.outgoing[i]} :: 0 <= i < |p.s.outgoing| ==>
      Fits(p.s.outgoing[i], p.s.limits.mtu)
    ensures SenderOk(Passed(p, now).s) && (!Passed(p, now).d.full ==> NothingToSend(Passed(p, now).s))
  {
    PassWent(p, now);
    var t := Passed(p, now).s;
    hide Passed, SenderOk;
    assert DatagramOk(Empty(), t.limits.mtu) by {
      SenderMtu(t);
    }
    if !Passed(p, now).d.full {
      PassHolds(p, now, PassFrom(t, Empty()));
    }
  }

  lemma SenderMtu(s: Sender)
    requires SenderOk(s)
    ensures HEADER_SIZE + ACKNOWLEDGE_SIZE <= s.limits.mtu <= MAXIMUM_MTU
  {
  }

  lemma OnlyPass(state: State, s: Sender, d: Datagram, p: Pass, now: uint32)
    requires WentOn(PassFrom(s, d), p, now) && (!p.d.full ==> NothingToSend(p.s))
    ensures TurnWent(state, s, d, p, now)
  {
    hide SenderOk, Late, NothingToSend;
  }

  /** A ping takes the place of the chance to ping. */
  lemma PingPass(state: State, s: Sender, d: Datagram, p: Pass, q: Pass, now: uint32)
    requires WentOn(PassFrom(s, d), p, now) && p.canPing && p.s.sent == [] && |s.channels| <= 0xFF
    requires WentOn(PassFrom(Pinged(p.s, state), p.d), q, now) && (!q.d.full ==> NothingToSend(q.s))
    ensures TurnWent(state, s, d, q, now)
  {
    hide SenderOk, Late, NothingToSend;
    var s1 := Pinged(p.s, state);
    if state.Connected? {
      assert Own(s1.outgoing[|p.s.outgoing|], |s1.channels|);
      assert !Pingable(state, s1);
    }
  }

  /** Nothing is left for want of room: acknowledgements and unreliable commands are gone, and
      every reliable command waits for its window or for the data in transit. */
  ghost predicate SentOut(l: Line) {
    SenderOk(l.sender) && l.acknowledgements == [] && l.unreliable == [] && NothingToSend(l.sender)
  }

  /** A peer that has just begun to disconnect has only the command that says so. */
  predicate JustDisconnecting(l: Line) {
    && l.state.Disconnecting? && l.acknowledgements == [] && l.unreliable == [] && |l.sender.outgoing| == 1
    && l.sender.sent == []
  }

  /** The result of a turn against the peer before it. */
  ghost predicate TurnOk(l: Line, r: TurnResult, now: uint32) {
    && DatagramOk(r.datagram, l.sender.limits.mtu) && r.line.sender.limits == l.sender.limits
    && (r.gone ==> !Takes(r.line.state) && (r.datagram.full ==> Pending(l, now) > 0))
    && (!r.gone ==> LineOk(r.line) && Pending(r.line, now) <= Pending(l, now))
    && (!r.gone && r.datagram.full ==> Pending(r.line, now) < Pending(l, now))
    && (!r.gone && !r.datagram.full ==> SentOut(r.line) || JustDisconnecting(r.line))
  }

  /** A turn keeps the datagram within its limits and does not add to the work; it leaves
      something over for want of room only when it has done some. */
  lemma TurnWorks(l: Line, now: uint32, checks: bool, event: bool)
    requires LineOk(l)
    ensures TurnOk(l, Turn(l, now, checks, event), now)
    ensures Turn(l, now, checks, event).reported ==> event && checks
  {
    hide SentAcks, AfterAcks, LineOk, DatagramOk, TimedOut, Due, ReliableTurn, Disconnects, GivesUp, SentPieces,
      TurnOk, Empty, ReportsLoss, Finished;
    AcksGone(l);
    var mtu := l.sender.limits.mtu;
    var (acks, d) := SentAcks(l.acknowledgements, Empty(), mtu);
    var (s, gone) := Checked(l.sender, now, checks);
    var state := AfterAcks(l.state, l.acknowledgements[..|l.acknowledgements| - |acks|]);
    AfterAcksIs(l.state, l.acknowledgements[..|l.acknowledgements| - |acks|]);
    TurnStarts(l, now, checks);
    if gone {
      GoneWorks(l, l.(sender := s, acknowledgements := acks, state := state), d, event, now);
    } else {
      var l0 := l.(state := state);
      CheckedWork(l, state, now, checks);
      ReliableWent(l0, s, d, now);
      var p := ReliableTurn(l0, s, d, now);
      PassFacts(p);
      LinePieces(l);
      PiecesSent(l.unreliable, p.d, l.counter, p.s.limits.packetThrottle, mtu);
      var (pieces, d1, counter) := SentPieces(l.unreliable, p.d, l.counter, p.s.limits.packetThrottle, mtu);
      var l1 := l0.(sender := p.s, acknowledgements := acks, unreliable := pieces, counter := counter);
      hide Checked, Pending, TurnWent, SentOut, Work, CanGoOn;
      TurnEnds(l, l0, s, p, d, acks, d1, l1, now);
      TurnCloses(l, l1, d1, now);
    }
  }

  lemma AfterAcksIs(state: State, acks: seq<Ack>)
    ensures AfterAcks(state, acks) == state || AfterAcks(state, acks).Zombie?
  {
  }

  lemma AcksGone(l: Line)
    requires LineOk(l)
    ensures Empty().packetSize <= l.sender.limits.mtu
    ensures var (acks, d) := SentAcks(l.acknowledgements, Empty(), l.sender.limits.mtu);
      && DatagramOk(d, l.sender.limits.mtu) && |acks| <= |l.acknowledgements|
      && |acks| + d.commandCount == |l.acknowledgements| && (d.full ==> d.commandCount > 0) && (acks != [] ==> d.full)
  {
    AcksSent(l.acknowledgements, Empty(), l.sender.limits.mtu);
  }

  lemma GoneWorks(l: Line, l1: Line, d: Datagram, event: bool, now: uint32)
    requires l1 == l.(sender := l1.sender, acknowledgements := l1.acknowledgements, state := l1.state)
    requires l1.sender.limits == l.sender.limits && DatagramOk(d, l.sender.limits.mtu)
    requires |l1.acknowledgements| + d.commandCount == |l.acknowledgements| && (d.full ==> d.commandCount > 0)
    ensures TurnOk(l, TurnResult(GivesUp(l1, event), d, true, event && ReportsLoss(l1.state)), now)
  {
    hide DatagramOk, Work;
  }

  lemma LinePieces(l: Line)
    requires LineOk(l)
    ensures PiecesFit(l.unreliable, l.sender.limits.mtu)
  {
  }

  /** Checking the timeouts does not add to the work. */
  lemma CheckedWork(l: Line, state: State, now: uint32, checks: bool)
    requires LineOk(l) && (state == l.state || state.Zombie?)
    ensures var s := Checked(l.sender, now, checks).0;
      && Work(state, s, now) + One(state.DisconnectLater?)
         <= Work(l.state, l.sender, now) + One(l.state.DisconnectLater?)
      && s.limits == l.sender.limits && |s.channels| == |l.sender.channels|
  {
    TimedOutReturns(l.sender, 0, 0, now);
    hide TimedOut, SenderOk, PiecesFit, Work;
    StartWork(l, state, l.sender, now);
    if checks && Due(l.sender, now) {
      StartWork(l, state, TimedOut(l.sender, 0, 0, now).0, now);
    }
  }

  /** A turn's end: a peer that has nothing more to send and was to disconnect does so. */
  lemma TurnCloses(l: Line, l1: Line, d1: Datagram, now: uint32)
    requires LineOk(l1) && Pending(l1, now) <= Pending(l, now) && (d1.full ==> Pending(l1, now) < Pending(l, now))
    requires l1.sender.limits == l.sender.limits && (!d1.full ==> SentOut(l1)) && DatagramOk(d1, l.sender.limits.mtu)
    ensures TurnOk(l, TurnResult(l1, d1, false, false), now)
    ensures Finished(l1) ==> TurnOk(l, TurnResult(Disconnects(l1), d1, false, false), now)
  {
    hide LineOk, Pending, SentOut, DatagramOk, Disconnects;
    if Finished(l1) {
      DisconnectWork(l1, now);
    }
  }

  lemma PassFacts(p: Pass)
    requires CanGoOn(p)
    ensures DatagramOk(p.d, p.s.limits.mtu) && p.s.limits.mtu <= MAXIMUM_MTU
  {
  }

  lemma StartWork(l: Line, state: State, s: Sender, now: uint32)
    requires (s == l.sender || (l.sender.sent != [] && Returns(l.sender, s, now)))
    requires state == l.state || state.Zombie?
    ensures Work(state, s, now) + One(state.DisconnectLater?) <= Work(l.state, l.sender, now)
      + One(l.state.DisconnectLater?)
    ensures s.limits == l.sender.limits && |s.channels| == |l.sender.channels|
  {
    hide Late, NoOwn;
  }

  lemma TurnEnds(l: Line, l0: Line, s: Sender, p: Pass, d: Datagram, acks: seq<Ack>, d1: Datagram, l1: Line,
                 now: uint32)
    requires LineOk(l) && TurnWent(l0.state, s, d, p, now) && s.limits == l.sender.limits
    requires |s.channels| == |l.sender.channels|
    requires l0 == l.(state := l0.state)
    requires Work(l0.state, s, now) + One(l0.state.DisconnectLater?) <= Work(l.state, l.sender, now)
      + One(l.state.DisconnectLater?)
    requires |acks| + d.commandCount == |l.acknowledgements| && (d.full ==> d.commandCount > 0)
    requires (acks != [] ==> d.full)
    requires l1 == l0.(sender := p.s, acknowledgements := acks, unreliable := l1.unreliable, counter := l1.counter)
    requires Tail(l1.unreliable, l.unreliable) && |l1.unreliable| + d1.commandCount <= |l.unreliable| + p.d.commandCount
    requires p.d.commandCount <= d1.commandCount && (d1.full ==> p.d.full || d1.commandCount > 0)
    requires (p.d.full ==> d1.full)
    requires l1.unreliable != [] ==> d1.full
    ensures LineOk(l1) && Pending(l1, now) <= Pending(l, now) && (d1.full ==> Pending(l1, now) < Pending(l, now))
    ensures l1.sender.limits == l.sender.limits && (!d1.full ==> SentOut(l1))
  {
    TailFits(l1.unreliable, l.unreliable, l.sender.limits.mtu);
    hide Work, AllSound, PiecesFit, Tail, LimitsOk, NothingToSend;
  }

  lemma DisconnectWork(l: Line, now: uint32)
    requires LineOk(l) && Finished(l)
    ensures LineOk(Disconnects(l)) && Pending(Disconnects(l), now) <= Pending(l, now)
    ensures JustDisconnecting(Disconnects(l))
    ensures Disconnects(l).sender.limits == l.sender.limits
  {
    var l1 := Disconnects(l);
    assert Own(l1.sender.outgoing[0], 0);
    assert Late([], now) == 0;
    assert AllSound(l1.sender.outgoing, l1.sender.limits.mtu, 0);
  }
}
