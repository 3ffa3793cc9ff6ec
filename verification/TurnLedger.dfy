/** A turn, and any number of them, accounted for: what is in a peer's datagrams is what left its
    queues, and what left its queues and is not there was dropped by the throttle. */
module TurnLedger {
  import opened LateCommands
  import opened PeerStates
  import opened SendLedger
  import opened SendPasses
  import opened Sending
  import opened SendTurns
  import opened Words

  // ----- one turn -----

  /** A turn's outcome, and what makes up its datagram: acknowledgements, reliable commands, and the
      unreliable ones that were sent.  `pings` holds the ping that was queued in the turn, if any. */
  datatype Record = Record(
    line: Line, datagram: Datagram, acks: seq<Ack>, launched: seq<Command>, pings: seq<Command>, fates: seq<Fate>)

  /** The queue and the commands on the wire once late ones have gone back. */
  function QueueNow(s: Sender, now: uint32, checks: bool): seq<Command> {
    if checks && Due(s, now) then Doubled(LateOf(s.sent, now)) + s.outgoing else s.outgoing
  }

  function SentNow(s: Sender, now: uint32, checks: bool): seq<Command> {
    if checks && Due(s, now) then OnTimeOf(s.sent, now) else s.sent
  }

  ghost predicate AcknowledgesDisconnect(acks: seq<Ack>) {
    exists a {:trigger a in acks} :: a in acks && a.disconnect
  }

  /** The datagram's commands are the acknowledgements, the reliable commands and the unreliable ones,
      one after the other. */
  ghost predicate Carries(commands: seq<Command>, acks: seq<Ack>, launched: seq<Command>, pieces: seq<Piece>) {
    var a, b := |acks|, |acks| + |launched|;
    && b <= |commands| && AreAcks(commands[..a], acks) && commands[a..b] == launched
    && ArePieces(commands[b..], pieces)
  }

  /** Reliable commands: those that go to the wire leave the queue, in order, and the others stay in it,
      in order. */
  ghost predicate Launches(queue: seq<Command>, sent: seq<Command>, s1: Sender, launched: seq<Command>, now: uint32) {
    && Interleaves(queue, launched, s1.outgoing)
    && |sent| <= |s1.sent| && s1.sent[..|sent|] == sent && WentOut(launched, s1.sent[|sent|..], now)
  }

  predicate IsPing(c: Command) {
    c.channelID == 0xFF && c.packet.Nothing? && c.commandSize == 4 && c.sendAttempts == 0
  }

  /** A disconnect command: a header and a number of four bytes, on no channel. */
  predicate SaysGoodbye(c: Command) {
    c.channelID == 0xFF && c.packet.Nothing? && c.commandSize == 8 && c.sendAttempts == 0
  }

  predicate IsSilent(l: Line, now: uint32) { TimeDifference(now, l.lastReceiveTime) >= l.pingInterval }

  /** A connected peer is pinged when nothing has been heard from it for its interval and nothing is
      on the wire; and always then, if nothing is in the queue and the ping has room. */
  ghost predicate PingsOk(l: Line, state: State, queue: seq<Command>, sent: seq<Command>, pings: seq<Command>,
                          size: nat, now: uint32)
  {
    && |pings| <= 1
    && (pings != [] ==> IsPing(pings[0]) && state.Connected? && IsSilent(l, now) && sent == [])
    && (queue == sent == [] && state.Connected? && IsSilent(l, now) && size + 4 <= l.sender.limits.mtu ==> pings != [])
  }

  /** A peer that was to disconnect after everything has been sent, and has. */
  ghost predicate Closes(l: Line, r: Record, state: State, now: uint32, checks: bool) {
    && state.DisconnectLater? && l.unreliable != [] && |r.fates| == |l.unreliable|
    && QueueNow(l.sender, now, checks) == SentNow(l.sender, now, checks) == []
  }

  function StateAfter(l: Line, acks: seq<Ack>): State { if HasDisconnect(acks) then Zombie else l.state }

  ghost predicate TurnLedger(l: Line, r: Record, now: uint32, checks: bool) {
    var queue, sent := QueueNow(l.sender, now, checks), SentNow(l.sender, now, checks);
    var state := if AcknowledgesDisconnect(r.acks) then Zombie else l.state;
    && r.acks <= l.acknowledgements && |r.fates| <= |l.unreliable| && r.line.sender.limits == l.sender.limits
    && Carries(r.datagram.commands, r.acks, r.launched, SentOf(l.unreliable, r.fates))
    && FatesOk(l.unreliable, r.fates, l.counter, l.sender.limits.packetThrottle, None)
    && r.line.counter == CounterAfter(l.unreliable, r.fates, l.counter)
    && PingsOk(l, state, queue, sent, r.pings, 4 + 8 * |r.acks|, now)
    && if Closes(l, r, state, now, checks) then
         && r.line.state.Disconnecting? && r.launched == [] && r.line.acknowledgements == [] && r.line.unreliable == []
         && r.line.sender.sent == [] && |r.line.sender.outgoing| == 1 && SaysGoodbye(r.line.sender.outgoing[0])
       else
         && r.line.state == state && r.line.acknowledgements == l.acknowledgements[|r.acks|..]
         && r.line.unreliable == l.unreliable[|r.fates|..]
         && Launches(queue + r.pings, sent, r.line.sender, r.launched, now)
  }

  /** The reliable part of a turn. */
  ghost predicate ReliableLedger(l: Line, s: Sender, d: Datagram, p: Pass, launched: seq<Command>, pings: seq<Command>,
                                 now: uint32)
  {
    && Launches(s.outgoing + pings, s.sent, p.s, launched, now) && p.d.commands == d.commands + launched
    && PingsOk(l, l.state, s.outgoing, s.sent, pings, d.packetSize, now)
  }

  lemma ReliableAccounted(l: Line, s: Sender, d: Datagram, now: uint32)
    returns (launched: seq<Command>, pings: seq<Command>)
    requires CanGoOn(PassFrom(s, d)) && |s.channels| <= 0xFF && s.limits == l.sender.limits
    ensures ReliableLedger(l, s, d, ReliableTurn(l, s, d, now), launched, pings, now)
  {
    PassWent(PassFrom(s, d), now);
    var p := Passed(PassFrom(s, d), now);
    hide Passed, CanGoOn, PassLedger, PingDue, PassOk, NoOwn, Late, Pinged;
    if PingDue(l, p, now) {
      PingFacts(l, s, d, p, now);
      PingedGoesOn(p, l.state, now);
      launched := PassAccounted(PassFrom(Pinged(s, l.state), d), now);
      pings := Pinged(s, l.state).outgoing[|s.outgoing|..];
      PingedLedger(l, s, d, Passed(PassFrom(Pinged(s, l.state), d), now), launched, now);
    } else {
      launched := PassAccounted(PassFrom(s, d), now);
      pings := [];
      if s.outgoing == [] {
        PassAt(PassFrom(s, d), now);
      }
      UnpingedLedger(l, s, d, p, launched, now);
    }
  }

  lemma PingFacts(l: Line, s: Sender, d: Datagram, p: Pass, now: uint32)
    requires WentOn(PassFrom(s, d), p, now) && PingDue(l, p, now)
    ensures p.s == s && p.d == d && d.packetSize + 4 <= s.limits.mtu && |s.outgoing| <= |Pinged(s, l.state).outgoing|
    ensures s.sent == [] && IsSilent(l, now)
  {
    hide CanGoOn, Late, NoOwn;
  }

  lemma PingedLedger(l: Line, s: Sender, d: Datagram, r: Pass, launched: seq<Command>, now: uint32)
    requires PassLedger(PassFrom(Pinged(s, l.state), d), r, launched, now) && s.sent == [] && IsSilent(l, now)
    requires |s.outgoing| <= |Pinged(s, l.state).outgoing|
    ensures ReliableLedger(l, s, d, r, launched, Pinged(s, l.state).outgoing[|s.outgoing|..], now)
  {
    var s1 := Pinged(s, l.state);
    assert s1.outgoing == s.outgoing + s1.outgoing[|s.outgoing|..];
    assert s1.outgoing[0..] == s1.outgoing && r.s.outgoing[0..] == r.s.outgoing;
    hide WentOut, Interleaves, IsSilent;
  }

  lemma UnpingedLedger(l: Line, s: Sender, d: Datagram, p: Pass, launched: seq<Command>, now: uint32)
    requires PassLedger(PassFrom(s, d), p, launched, now) && !PingDue(l, p, now) && s.limits == l.sender.limits
    requires s.outgoing == [] ==> p == PassFrom(s, d)
    ensures ReliableLedger(l, s, d, p, launched, [], now)
  {
    assert s.outgoing + [] == s.outgoing[0..] == s.outgoing && p.s.outgoing[0..] == p.s.outgoing;
    hide WentOut, Interleaves;
  }

  /** What a turn sends and what it leaves. */
  lemma TurnAccounted(l: Line, now: uint32, checks: bool, event: bool) returns (r: Record)
    requires LineOk(l) && !Turn(l, now, checks, event).gone
    ensures r.line == Turn(l, now, checks, event).line && r.datagram == Turn(l, now, checks, event).datagram
    ensures TurnLedger(l, r, now, checks)
  {
    hide *;
    EmptyIs();
    var mtu := l.sender.limits.mtu;
    var acks, d, l0, s, p, l1, d1 := TurnIs(l, now, checks, event);
    AcksLedger(l.acknowledgements, Empty(), mtu);
    AcksRest(l.acknowledgements, Empty(), acks, d);
    var n := |l.acknowledgements| - |acks|;
    CheckedLists(l.sender, now, checks);
    var launched, pings := ReliableAccounted(l0, s, d, now);
    var fates := PiecesAccounted(l.unreliable, p.d, l.counter, p.s.limits.packetThrottle, mtu);
    var t := Turn(l, now, checks, event);
    r := Record(t.line, t.datagram, l.acknowledgements[..n], launched, pings, fates);
    LedgerRest(l.unreliable, p.d, l.counter, p.s.limits.packetThrottle, l1.unreliable, d1, l1.counter, fates);
    Assembled(l, s, p, d, n, d1, l1, r, now, checks);
  }

  /** The parts of a turn, by name. */
  lemma TurnIs(l: Line, now: uint32, checks: bool, event: bool)
    returns (acks: seq<Ack>, d: Datagram, l0: Line, s: Sender, p: Pass, l1: Line, d1: Datagram)
    requires LineOk(l) && !Turn(l, now, checks, event).gone
    ensures Empty().packetSize <= l.sender.limits.mtu
    ensures (acks, d) == SentAcks(l.acknowledgements, Empty(), l.sender.limits.mtu) && |acks| <= |l.acknowledgements|
    ensures l0 == l.(state := AfterAcks(l.state, l.acknowledgements[..|l.acknowledgements| - |acks|]))
    ensures (s, false) == Checked(l.sender, now, checks) && s.limits == l.sender.limits && |s.channels| <= 0xFF
    ensures CanGoOn(PassFrom(s, d)) && p == ReliableTurn(l0, s, d, now)
    ensures p.s.limits == s.limits && p.d.packetSize <= l.sender.limits.mtu
    ensures (l1.unreliable, d1, l1.counter)
         == SentPieces(l.unreliable, p.d, l.counter, p.s.limits.packetThrottle, l.sender.limits.mtu)
    ensures l1 == l0.(sender := p.s, acknowledgements := acks, unreliable := l1.unreliable, counter := l1.counter)
    ensures Turn(l, now, checks, event).datagram == d1
    ensures Turn(l, now, checks, event).line == if l.unreliable != [] && Finished(l1) then Disconnects(l1) else l1
  {
    hide SentAcks, TimedOut, Due, ReliableTurn, SentPieces, Empty, Finished, Disconnects, AfterAcks, TurnWent, LineOk,
      DatagramOk, CanGoOn, Checked, GivesUp, ReportsLoss;
    AcksGone(l);
    TurnStarts(l, now, checks);
    acks, d := SentAcks(l.acknowledgements, Empty(), l.sender.limits.mtu).0,
      SentAcks(l.acknowledgements, Empty(), l.sender.limits.mtu).1;
    l0 := l.(state := AfterAcks(l.state, l.acknowledgements[..|l.acknowledgements| - |acks|]));
    s := Checked(l.sender, now, checks).0;
    ReliableWent(l0, s, d, now);
    p := ReliableTurn(l0, s, d, now);
    PassLimits(l0.state, s, d, p, now);
    var r := SentPieces(l.unreliable, p.d, l.counter, p.s.limits.packetThrottle, l.sender.limits.mtu);
    d1 := r.1;
    l1 := l0.(sender := p.s, acknowledgements := acks, unreliable := r.0, counter := r.2);
  }

  lemma AcksRest(acks: seq<Ack>, d: Datagram, rest: seq<Ack>, d1: Datagram)
    requires AcksLeft(acks, d, rest, d1) && d.commands == []
    ensures |rest| <= |acks| && rest == acks[|acks| - |rest|..]
    ensures AreAcks(d1.commands, acks[..|acks| - |rest|]) && d1.packetSize == d.packetSize + 8 * (|acks| - |rest|)
  {
    assert d1.commands[0..] == d1.commands;
  }

  lemma LedgerRest(list: seq<Piece>, d: Datagram, counter: nat, throttle: nat, rest: seq<Piece>,
                   d1: Datagram, counter1: nat, fates: seq<Fate>)
    requires PiecesLedger(list, d, counter, throttle, rest, d1, counter1, fates)
    ensures |fates| <= |list| && rest == list[|fates|..]
  {
  }

  lemma EmptyIs()
    ensures Empty().commands == [] && Empty().packetSize == 4
  {
  }

  lemma PassLimits(state: State, s: Sender, d: Datagram, p: Pass, now: uint32)
    requires TurnWent(state, s, d, p, now)
    ensures p.s.limits == s.limits && p.d.packetSize <= s.limits.mtu
  {
  }

  lemma CheckedLists(s: Sender, now: uint32, checks: bool)
    ensures var (s1, gone) := Checked(s, now, checks);
      !gone ==> s1.outgoing == QueueNow(s, now, checks) && s1.sent == SentNow(s, now, checks)
  {
    hide TimedOut, Due, LateOf, OnTimeOf, Doubled;
    CheckedExactly(s, now);
  }

  lemma Assembled(l: Line, s: Sender, p: Pass, d: Datagram, n: nat, d1: Datagram, l1: Line, r: Record,
                  now: uint32, checks: bool)
    requires n <= |l.acknowledgements| && r.acks == l.acknowledgements[..n] && AreAcks(d.commands, r.acks)
    requires d.packetSize == 4 + 8 * n && s.limits == l.sender.limits
    requires s.outgoing == QueueNow(l.sender, now, checks) && s.sent == SentNow(l.sender, now, checks)
    requires ReliableLedger(l.(state := AfterAcks(l.state, r.acks)), s, d, p, r.launched, r.pings, now)
    requires PiecesLedger(l.unreliable, p.d, l.counter, s.limits.packetThrottle, l1.unreliable, d1, l1.counter, r.fates)
    requires l1.acknowledgements == l.acknowledgements[n..] && l1.sender == p.s
    requires l1.state == AfterAcks(l.state, r.acks) && r.datagram == d1 && p.s.limits == s.limits
    requires r.line == if l.unreliable != [] && Finished(l1) then Disconnects(l1) else l1
    ensures TurnLedger(l, r, now, checks)
  {
    hide QueueNow, SentNow, WentOut, FatesOk, CounterAfter, SentOf, AreAcks, ArePieces, IsSilent, IsPing;
    var commands, a, b := d1.commands, |r.acks|, |r.acks| + |r.launched|;
    AcksCount(d.commands, r.acks);
    assert commands[..b] == p.d.commands == d.commands + r.launched;
    assert commands[..a] == commands[..b][..a] == d.commands;
    assert commands[a..b] == commands[..b][a..] == r.launched;
    assert Carries(commands, r.acks, r.launched, SentOf(l.unreliable, r.fates));
    StateIs(l, r.acks);
    ClosesIs(l, s, p.s, l1, r, now, checks);
    hide Carries, Launches, PingsOk;
  }

  lemma AcksCount(commands: seq<Command>, acks: seq<Ack>)
    requires AreAcks(commands, acks)
    ensures |commands| == |acks|
  {
  }

  lemma StateIs(l: Line, acks: seq<Ack>)
    ensures AfterAcks(l.state, acks) == if AcknowledgesDisconnect(acks) then Zombie else l.state
  {
    if HasDisconnect(acks) {
      var k :| 0 <= k < |acks| && acks[k].disconnect;
      assert acks[k] in acks;
    }
    if AcknowledgesDisconnect(acks) {
      var a :| a in acks && a.disconnect;
      var k :| 0 <= k < |acks| && acks[k] == a;
      assert acks[k].disconnect;
    }
  }

  /** The peer that has sent everything, in terms of what it had. */
  lemma ClosesIs(l: Line, s: Sender, s1: Sender, l1: Line, r: Record, now: uint32, checks: bool)
    requires s.outgoing == QueueNow(l.sender, now, checks) && s.sent == SentNow(l.sender, now, checks)
    requires Launches(s.outgoing + r.pings, s.sent, s1, r.launched, now) && l1.sender == s1
    requires |r.fates| <= |l.unreliable| && l1.unreliable == l.unreliable[|r.fates|..]
    requires r.pings != [] ==> l1.state.Connected?
    ensures l.unreliable != [] && Finished(l1) <==> Closes(l, r, l1.state, now, checks)
    ensures Finished(l1) ==> r.launched == []
  {
    hide QueueNow, SentNow, Interleaves;
    assert |s1.sent| == |s.sent| + |r.launched|;
    LengthsAdd(s.outgoing + r.pings, r.launched, s1.outgoing);
  }

  lemma {:induction false} LengthsAdd<T>(list: seq<T>, a: seq<T>, b: seq<T>)
    requires Interleaves(list, a, b)
    ensures |list| == |a| + |b|
    decreases |list|
  {
    if list != [] {
      if a != [] && list[0] == a[0] && Interleaves(list[1..], a[1..], b) {
        LengthsAdd(list[1..], a[1..], b);
      } else {
        LengthsAdd(list[1..], a, b[1..]);
      }
    }
  }

  /** The timeouts are checked just when the acknowledgement of the first command on the wire is late,
      if the next check is due at its time. */
  lemma CheckedWhenLate(s: Sender, now: uint32, age: nat)
    requires s.sent != [] && now == (s.sent[0].sentTime + age) % 0x1_0000_0000
    requires s.nextTimeout == (s.sent[0].sentTime + s.sent[0].roundTripTimeout) % 0x1_0000_0000
    requires age < 86_400_000 && s.sent[0].roundTripTimeout <= age + 86_400_000
    ensures Due(s, now) <==> age >= s.sent[0].roundTripTimeout
  {
    var t, timeout := s.sent[0].sentTime, s.sent[0].roundTripTimeout;
    assert (now - s.nextTimeout) % 0x1_0000_0000 == (age - timeout) % 0x1_0000_0000;
  }

  // ----- any number of turns -----

  function Before(l: Line, records: seq<Record>, k: nat): Line
    requires k <= |records|
  {
    if k == 0 then l else records[k - 1].line
  }

  ghost predicate Turns(l: Line, records: seq<Record>, now: uint32, checks: bool) {
    forall k {:trigger records[k]} :: 0 <= k < |records| ==>
      TurnLedger(Before(l, records, k), records[k], now, checks)
  }

  /** The datagrams that are sent: those that hold something. */
  function Datagrams(records: seq<Record>): seq<Datagram> {
    if records == [] then [] else
      var r := records[|records| - 1];
      Datagrams(records[..|records| - 1]) + if r.datagram.commands != [] then [r.datagram] else []
  }

  /** The peer's turns in between, each with its ledger, sent exactly these datagrams. */
  ghost predicate Accounted(l: Line, datagrams: seq<Datagram>, l1: Line, now: uint32, checks: bool) {
    exists records {:trigger Turns(l, records, now, checks)} ::
      Turns(l, records, now, checks) && Datagrams(records) == datagrams && l1 == Before(l, records, |records|)
  }

  lemma NoTurns(l: Line, now: uint32, checks: bool)
    ensures Accounted(l, [], l, now, checks)
  {
    assert Turns(l, [], now, checks);
  }

  lemma OneTurnMore(l: Line, datagrams: seq<Datagram>, l1: Line, r: Record, now: uint32, checks: bool)
    requires Accounted(l, datagrams, l1, now, checks) && TurnLedger(l1, r, now, checks)
    ensures Accounted(l, datagrams + if r.datagram.commands != [] then [r.datagram] else [], r.line, now, checks)
  {
    hide TurnLedger;
    var records :|
      Turns(l, records, now, checks) && Datagrams(records) == datagrams && l1 == Before(l, records, |records|);
    var all := records + [r];
    assert all[..|all| - 1] == records;
    forall k {:trigger all[k]} | 0 <= k < |all| ensures TurnLedger(Before(l, all, k), all[k], now, checks) {
      if k < |records| {
        assert TurnLedger(Before(l, records, k), records[k], now, checks);
      }
    }
    assert Turns(l, all, now, checks);
  }

  // ----- what that comes to -----

  function AllAcks(records: seq<Record>): seq<Ack> {
    if records == [] then [] else AllAcks(records[..|records| - 1]) + records[|records| - 1].acks
  }

  function AllFates(records: seq<Record>): seq<Fate> {
    if records == [] then [] else AllFates(records[..|records| - 1]) + records[|records| - 1].fates
  }

  function AllPings(records: seq<Record>): seq<Command> {
    if records == [] then [] else AllPings(records[..|records| - 1]) + records[|records| - 1].pings
  }

  lemma TurnsBefore(l: Line, records: seq<Record>, now: uint32, checks: bool)
    requires Turns(l, records, now, checks) && records != []
    ensures var less := records[..|records| - 1];
      && Turns(l, less, now, checks)
      && TurnLedger(Before(l, less, |less|), records[|records| - 1], now, checks)
  {
    hide TurnLedger;
    var less := records[..|records| - 1];
    forall k {:trigger less[k]} | 0 <= k < |less| ensures TurnLedger(Before(l, less, k), less[k], now, checks) {
      var _ := records[k];
    }
  }

  /** What was acknowledged over the turns, and what waits, is what there was to acknowledge, in order;
      but a peer that was to disconnect after everything drops what waits when it does. */
  lemma {:induction false} AcksConserved(l: Line, records: seq<Record>, now: uint32, checks: bool)
    requires Turns(l, records, now, checks)
    ensures var l1 := Before(l, records, |records|);
      && AllAcks(records) + l1.acknowledgements <= l.acknowledgements
      && (!l.state.DisconnectLater? ==> AllAcks(records) + l1.acknowledgements == l.acknowledgements)
      && (!l.state.DisconnectLater? ==> !l1.state.DisconnectLater?)
    decreases |records|
  {
    hide TurnLedger, Turns;
    if records != [] {
      TurnsBefore(l, records, now, checks);
      var less, r := records[..|records| - 1], records[|records| - 1];
      var m := Before(l, less, |less|);
      AcksConserved(l, less, now, checks);
      TurnAcks(m, r, now, checks);
      assert AllAcks(records) + r.line.acknowledgements == AllAcks(less) + (r.acks + r.line.acknowledgements);
      PrefixMore(AllAcks(less), r.acks + r.line.acknowledgements, m.acknowledgements);
    }
  }

  lemma PrefixMore<T>(a: seq<T>, b: seq<T>, c: seq<T>)
    requires b <= c
    ensures a + b <= a + c
  {
    assert a + c == a + b + c[|b|..];
  }

  lemma TurnAcks(m: Line, r: Record, now: uint32, checks: bool)
    requires TurnLedger(m, r, now, checks)
    ensures r.acks + r.line.acknowledgements <= m.acknowledgements
    ensures !m.state.DisconnectLater? ==> r.acks + r.line.acknowledgements == m.acknowledgements
    ensures !m.state.DisconnectLater? ==> !r.line.state.DisconnectLater?
  {
    hide Carries, FatesOk, PingsOk, Launches, QueueNow, SentNow, CounterAfter, AcknowledgesDisconnect;
    assert m.acknowledgements == r.acks + m.acknowledgements[|r.acks|..];
  }

  /** The throttle judges the turns' pieces as it would judge them in one. */
  lemma {:induction false} PiecesConserved(l: Line, records: seq<Record>, now: uint32, checks: bool)
    requires Turns(l, records, now, checks)
    ensures var l1, fates := Before(l, records, |records|), AllFates(records);
      && |fates| <= |l.unreliable| && l1.unreliable == l.unreliable[|fates|..]
      && FatesOk(l.unreliable, fates, l.counter, l.sender.limits.packetThrottle, None)
      && l1.counter == CounterAfter(l.unreliable, fates, l.counter) && l1.sender.limits == l.sender.limits
    decreases |records|
  {
    hide TurnLedger, Turns, FatesOk, CounterAfter;
    if records == [] {
      NoFates(l.unreliable, Empty(), l.counter, l.sender.limits.packetThrottle);
      NoneYet(l);
    } else {
      TurnsBefore(l, records, now, checks);
      var less, r := records[..|records| - 1], records[|records| - 1];
      var m := Before(l, less, |less|);
      PiecesConserved(l, less, now, checks);
      TurnPieces(m, r, now, checks);
      FatesAppend(l.unreliable, AllFates(less), r.fates, l.counter, l.sender.limits.packetThrottle, None);
      var n := |AllFates(less)|;
      assert l.unreliable[n..][|r.fates|..] == l.unreliable[n + |r.fates|..];
    }
  }

  lemma NoneYet(l: Line)
    ensures FatesOk(l.unreliable, [], l.counter, l.sender.limits.packetThrottle, None)
    ensures CounterAfter(l.unreliable, [], l.counter) == l.counter && l.unreliable[0..] == l.unreliable
  {
  }

  lemma TurnPieces(m: Line, r: Record, now: uint32, checks: bool)
    requires TurnLedger(m, r, now, checks)
    ensures |r.fates| <= |m.unreliable| && r.line.unreliable == m.unreliable[|r.fates|..]
    ensures FatesOk(m.unreliable, r.fates, m.counter, m.sender.limits.packetThrottle, None)
    ensures r.line.counter == CounterAfter(m.unreliable, r.fates, m.counter)
    ensures r.line.sender.limits == m.sender.limits
  {
    hide Carries, FatesOk, PingsOk, Launches, QueueNow, SentNow, CounterAfter, AcknowledgesDisconnect;
  }

  lemma {:induction false} FatesAppend(list: seq<Piece>, a: seq<Fate>, b: seq<Fate>, counter: nat, throttle: nat,
                                       dropped: Option<Piece>)
    requires |a| + |b| <= |list| && FatesOk(list, a, counter, throttle, dropped)
    requires FatesOk(list[|a|..], b, CounterAfter(list, a, counter), throttle, None)
    ensures FatesOk(list, a + b, counter, throttle, dropped)
    ensures CounterAfter(list, a + b, counter) == CounterAfter(list[|a|..], b, CounterAfter(list, a, counter))
    decreases |a|
  {
    if a == [] {
      assert a + b == b && list[0..] == list;
    } else {
      var c := if IsFirst(list[0]) && !a[0].Followed? then CountedUp(counter) else counter;
      var d := match a[0] case Sent => None case Stopped => Some(list[0]) case Followed => dropped;
      assert (a + b)[1..] == a[1..] + b && (a + b)[0] == a[0];
      assert list[1..][|a| - 1..] == list[|a|..];
      FatesAppend(list[1..], a[1..], b, c, throttle, d);
    }
  }

  // ----- reliable commands are kept -----

  datatype Key = Key(channelID: nat, sequence: uint16, packet: Packet)

  function KeysOf(commands: seq<Command>): multiset<Key> {
    if commands == [] then multiset{} else
      KeysOf(commands[1..]) + multiset{Key(commands[0].channelID, commands[0].sequence, commands[0].packet)}
  }

  /** Everything reliable that a peer holds, queued or on the wire. */
  function Holds(s: Sender): multiset<Key> { KeysOf(s.outgoing) + KeysOf(s.sent) }

  lemma {:induction false} KeysJoin(a: seq<Command>, b: seq<Command>)
    ensures KeysOf(a + b) == KeysOf(a) + KeysOf(b)
    decreases |a|
  {
    if a == [] {
      assert a + b == b;
    } else {
      assert (a + b)[1..] == a[1..] + b;
      KeysJoin(a[1..], b);
    }
  }

  lemma {:induction false} KeysMixed(list: seq<Command>, a: seq<Command>, b: seq<Command>)
    requires Interleaves(list, a, b)
    ensures KeysOf(list) == KeysOf(a) + KeysOf(b)
    decreases |list|
  {
    if list != [] {
      if a != [] && list[0] == a[0] && Interleaves(list[1..], a[1..], b) {
        KeysMixed(list[1..], a[1..], b);
      } else {
        KeysMixed(list[1..], a, b[1..]);
      }
    }
  }

  lemma {:induction false} KeysSame(a: seq<Command>, b: seq<Command>)
    requires |a| == |b|
    requires forall k {:trigger a[k]} {:trigger b[k]} :: 0 <= k < |a| ==>
      a[k].channelID == b[k].channelID && a[k].sequence == b[k].sequence && a[k].packet == b[k].packet
    ensures KeysOf(a) == KeysOf(b)
    decreases |a|
  {
    if a != [] { KeysSame(a[1..], b[1..]); }
  }

  lemma {:induction false} KeysLate(sent: seq<Command>, now: uint32)
    ensures KeysOf(sent) == KeysOf(LateOf(sent, now)) + KeysOf(OnTimeOf(sent, now))
    decreases |sent|
  {
    if sent == [] {
      NoKeys();
    } else {
      hide KeysOf, IsLate;
      var one, late, onTime := [sent[0]], LateOf(sent[1..], now), OnTimeOf(sent[1..], now);
      KeysLate(sent[1..], now);
      KeysJoin(one, sent[1..]);
      KeysJoin(one, late);
      KeysJoin(one, onTime);
      LateSplit(sent, now);
      Regrouped(KeysOf(one), KeysOf(late), KeysOf(onTime));
    }
  }

  lemma LateSplit(sent: seq<Command>, now: uint32)
    requires sent != []
    ensures sent == [sent[0]] + sent[1..]
    ensures LateOf(sent, now)
         == if IsLate(sent[0], now) then [sent[0]] + LateOf(sent[1..], now) else LateOf(sent[1..], now)
    ensures OnTimeOf(sent, now)
         == if IsLate(sent[0], now) then OnTimeOf(sent[1..], now) else [sent[0]] + OnTimeOf(sent[1..], now)
  {
    hide IsLate;
  }

  lemma Regrouped<T>(a: multiset<T>, b: multiset<T>, c: multiset<T>)
    ensures a + (b + c) == (a + b) + c == b + (a + c)
  {
  }

  lemma Swapped<T>(queue: multiset<T>, pings: multiset<T>, launched: multiset<T>, left: multiset<T>, sent: multiset<T>,
                   held: multiset<T>)
    requires queue + pings == launched + left && queue + sent == held
    ensures left + (sent + launched) == held + pings
  {
    assert left + (sent + launched) == (launched + left) + sent;
    assert (queue + pings) + sent == (queue + sent) + pings;
  }

  lemma CheckedKeys(s: Sender, now: uint32, checks: bool)
    ensures KeysOf(QueueNow(s, now, checks)) + KeysOf(SentNow(s, now, checks)) == Holds(s)
  {
    hide LateOf, OnTimeOf, KeysOf, Due;
    if checks && Due(s, now) {
      KeysLate(s.sent, now);
      KeysSame(Doubled(LateOf(s.sent, now)), LateOf(s.sent, now));
      KeysJoin(Doubled(LateOf(s.sent, now)), s.outgoing);
    }
  }

  /** A turn loses no reliable command and makes none up but a ping, until the peer disconnects. */
  lemma TurnKeys(m: Line, r: Record, now: uint32, checks: bool)
    requires TurnLedger(m, r, now, checks) && !m.state.DisconnectLater?
    ensures Holds(r.line.sender) == Holds(m.sender) + KeysOf(r.pings) && !r.line.state.DisconnectLater?
  {
    hide Carries, FatesOk, PingsOk, QueueNow, SentNow, CounterAfter, KeysOf, Interleaves, AcknowledgesDisconnect;
    var queue, sent, s1 := QueueNow(m.sender, now, checks), SentNow(m.sender, now, checks), r.line.sender;
    CheckedKeys(m.sender, now, checks);
    KeysMixed(queue + r.pings, r.launched, s1.outgoing);
    KeysJoin(queue, r.pings);
    KeysSame(r.launched, s1.sent[|sent|..]);
    KeysJoin(sent, s1.sent[|sent|..]);
    assert s1.sent == sent + s1.sent[|sent|..];
    Swapped(KeysOf(queue), KeysOf(r.pings), KeysOf(r.launched), KeysOf(s1.outgoing), KeysOf(sent), Holds(m.sender));
  }

  lemma {:induction false} KeysConserved(l: Line, records: seq<Record>, now: uint32, checks: bool)
    requires Turns(l, records, now, checks) && !l.state.DisconnectLater?
    ensures var l1 := Before(l, records, |records|);
      Holds(l1.sender) == Holds(l.sender) + KeysOf(AllPings(records)) && !l1.state.DisconnectLater?
    decreases |records|
  {
    hide TurnLedger, Turns, KeysOf, Holds;
    if records == [] {
      NoKeys();
    } else {
      TurnsBefore(l, records, now, checks);
      var less, r := records[..|records| - 1], records[|records| - 1];
      KeysConserved(l, less, now, checks);
      TurnKeys(Before(l, less, |less|), r, now, checks);
      KeysJoin(AllPings(less), r.pings);
    }
  }

  lemma NoKeys()
    ensures KeysOf([]) == multiset{}
  {
  }
}
