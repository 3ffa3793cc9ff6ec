/** What fills a datagram: acknowledgements, reliable commands and unreliable ones, each from
    its own queue; and what a pass over the queue of reliable commands leaves behind. */
module SendPasses {
  import opened RoundTrips
  import opened Sending
  import Sums
  import opened Windows
  import WireSizes
  import opened Words

  const HEADER_SIZE := WireSizes.PROTOCOL_HEADER
  const ACKNOWLEDGE_SIZE := WireSizes.ACKNOWLEDGE
  const THROTTLE_COUNTER := 7

  /** An acknowledgement to be sent, perhaps of a disconnect command. */
  datatype Ack = Ack(channelID: nat, sequence: uint16, disconnect: bool)

  /** An unreliable command, or a fragment of one. */
  datatype Piece = Piece(
    channelID: nat, reliable: uint16, unreliable: uint16, offset: nat, packet: Packet, commandSize: nat)

  function AckCommand(a: Ack): Command { Command(a.channelID, a.sequence, 0, Nothing, ACKNOWLEDGE_SIZE, 0, 0, 0, 0) }

  function PieceCommand(p: Piece): Command { Command(p.channelID, p.reliable, 0, p.packet, p.commandSize, 0, 0, 0, 0) }

  function Empty(): Datagram { Datagram([], 0, 1, HEADER_SIZE, false) }

  // ----- acknowledgements -----

  predicate NoAckSpace(mtu: nat, d: Datagram)
    requires d.packetSize <= mtu
  {
    d.commandCount >= MAXIMUM_COMMANDS || d.bufferCount >= MAXIMUM_BUFFERS || mtu - d.packetSize < ACKNOWLEDGE_SIZE
  }

  function SentAcks(acks: seq<Ack>, d: Datagram, mtu: nat): (r: (seq<Ack>, Datagram))
    requires d.packetSize <= mtu
    ensures r.1.packetSize <= mtu
    decreases |acks|
  {
    if acks == [] then (acks, d)
    else if NoAckSpace(mtu, d) then (acks, d.(full := true))
    else SentAcks(acks[1..], Loaded(d, AckCommand(acks[0])), mtu)
  }

  // ----- unreliable commands -----

  predicate NoPieceSpace(mtu: nat, d: Datagram, p: Piece)
    requires d.packetSize <= mtu
  {
    || d.commandCount >= MAXIMUM_COMMANDS
    || d.bufferCount + 1 >= MAXIMUM_BUFFERS
    || mtu - d.packetSize < p.commandSize
    || (p.packet.Data? && mtu - d.packetSize < p.commandSize + Length(p.packet))
  }

  /** What is left when elements are taken from the front. */
  predicate Tail<T(==)>(r: seq<T>, list: seq<T>) { |r| <= |list| && r == list[|list| - |r|..] }

  lemma TailTail<T>(q: seq<T>, r: seq<T>, list: seq<T>)
    requires Tail(q, r) && Tail(r, list)
    ensures Tail(q, list)
  {
  }

  lemma TailSelf<T>(list: seq<T>)
    ensures Tail(list, list)
  {
  }

  lemma TailIn<T>(r: seq<T>, list: seq<T>)
    requires Tail(r, list)
    ensures forall x {:trigger x in r} :: x in r ==> x in list
  {
  }

  /** The list without the commands in front that have the given numbers. */
  function AfterGroup(list: seq<Piece>, reliable: uint16, unreliable: uint16): (r: seq<Piece>)
    ensures Tail(r, list)
    ensures r != [] ==> r[0].reliable != reliable || r[0].unreliable != unreliable
    ensures forall k {:trigger list[k]} :: 0 <= k < |list| - |r| ==>
      list[k].reliable == reliable && list[k].unreliable == unreliable
    decreases |list|
  {
    if list == [] || list[0].reliable != reliable || list[0].unreliable != unreliable then list
    else AfterGroup(list[1..], reliable, unreliable)
  }

  /** The first piece of a packet asks the throttle. */
  function Asked(p: Piece, counter: nat): nat {
    if p.packet.Data? && p.offset == 0 then (counter + THROTTLE_COUNTER) % THROTTLE_SCALE else counter
  }

  predicate Throttled(p: Piece, counter: nat, throttle: nat) {
    p.packet.Data? && p.offset == 0 && Asked(p, counter) > throttle
  }

  function SentPieces(list: seq<Piece>, d: Datagram, counter: nat, throttle: nat,
                      mtu: nat): (r: (seq<Piece>, Datagram, nat))
    requires d.packetSize <= mtu
    ensures r.1.packetSize <= mtu
    decreases |list|
  {
    if list == [] then (list, d, counter)
    else if NoPieceSpace(mtu, d, list[0]) then (list, d.(full := true), counter)
    else if Throttled(list[0], counter, throttle) then
      SentPieces(AfterGroup(list[1..], list[0].reliable, list[0].unreliable), d, Asked(list[0], counter), throttle, mtu)
    else SentPieces(list[1..], Loaded(d, PieceCommand(list[0])), Asked(list[0], counter), throttle, mtu)
  }

  // ----- datagrams -----

  /** A datagram keeps within the limits, and an empty one has all its room. */
  predicate DatagramOk(d: Datagram, mtu: nat) {
    && HEADER_SIZE <= d.packetSize <= mtu
    && d.commandCount <= MAXIMUM_COMMANDS && d.bufferCount <= 1 + 2 * d.commandCount
    && |d.commands| == d.commandCount
    && (d.commandCount == 0 ==> d.packetSize == HEADER_SIZE)
  }

  ghost predicate PiecesFit(list: seq<Piece>, mtu: nat) {
    forall p {:trigger p in list} :: p in list ==> Fits(PieceCommand(p), mtu)
  }

  lemma CommandLoaded(d: Datagram, c: Command, mtu: nat)
    requires DatagramOk(d, mtu) && mtu <= MAXIMUM_MTU && d.commandCount < MAXIMUM_COMMANDS
    requires d.packetSize + c.commandSize + Length(c.packet) <= mtu
    ensures DatagramOk(Loaded(d, c), mtu)
  {
  }

  lemma {:induction false} AcksSent(acks: seq<Ack>, d: Datagram, mtu: nat)
    requires DatagramOk(d, mtu) && HEADER_SIZE + ACKNOWLEDGE_SIZE <= mtu <= MAXIMUM_MTU
    ensures var (rest, d1) := SentAcks(acks, d, mtu);
      && DatagramOk(d1, mtu) && Tail(rest, acks)
      && |rest| + d1.commandCount == |acks| + d.commandCount
      && (d1.full ==> d.full || d1.commandCount > 0)
      && (rest != [] ==> d1.full)
    decreases |acks|
  {
    if acks != [] && !NoAckSpace(mtu, d) {
      CommandLoaded(d, AckCommand(acks[0]), mtu);
      AcksSent(acks[1..], Loaded(d, AckCommand(acks[0])), mtu);
    }
  }

  lemma {:induction false} PiecesSent(list: seq<Piece>, d: Datagram, counter: nat, throttle: nat, mtu: nat)
    requires DatagramOk(d, mtu) && mtu <= MAXIMUM_MTU && PiecesFit(list, mtu)
    ensures var (rest, d1, _) := SentPieces(list, d, counter, throttle, mtu);
      && DatagramOk(d1, mtu) && Tail(rest, list)
      && |rest| + d1.commandCount <= |list| + d.commandCount && d.commandCount <= d1.commandCount
      && (d1.full ==> d.full || d1.commandCount > 0) && (d.full ==> d1.full)
      && (rest != [] ==> d1.full)
    decreases |list|
  {
    hide AfterGroup, Loaded, Asked, Throttled, PieceCommand, Tail, PiecesFit, DatagramOk, NoPieceSpace;
    TailSelf(list);
    if list != [] {
      PieceFacts(list, d, mtu);
      if NoPieceSpace(mtu, d, list[0]) {
      } else if Throttled(list[0], counter, throttle) {
        var rest := AfterGroup(list[1..], list[0].reliable, list[0].unreliable);
        TailFits(rest, list[1..], mtu);
        PiecesSent(rest, d, Asked(list[0], counter), throttle, mtu);
        GroupTail(list, SentPieces(rest, d, Asked(list[0], counter), throttle, mtu).0, rest);
      } else {
        var d1 := Loaded(d, PieceCommand(list[0]));
        PiecesSent(list[1..], d1, Asked(list[0], counter), throttle, mtu);
        GroupTail(list, SentPieces(list[1..], d1, Asked(list[0], counter), throttle, mtu).0, list[1..]);
      }
    }
  }

  lemma TailFits(rest: seq<Piece>, list: seq<Piece>, mtu: nat)
    requires Tail(rest, list) && PiecesFit(list, mtu)
    ensures PiecesFit(rest, mtu) && |rest| <= |list|
  {
    TailIn(rest, list);
  }

  lemma GroupTail(list: seq<Piece>, r: seq<Piece>, rest: seq<Piece>)
    requires list != [] && Tail(r, rest) && (rest == list[1..] || Tail(rest, list[1..]))
    ensures Tail(r, list) && |rest| < |list|
  {
    TailTail(rest, list[1..], list);
    TailTail(r, rest, list);
  }

  lemma PieceFacts(list: seq<Piece>, d: Datagram, mtu: nat)
    requires list != [] && PiecesFit(list, mtu) && DatagramOk(d, mtu) && mtu <= MAXIMUM_MTU
    ensures PiecesFit(list[1..], mtu) && d.packetSize <= mtu
    ensures NoPieceSpace(mtu, d, list[0]) ==> d.commandCount > 0 && DatagramOk(d.(full := true), mtu)
    ensures !NoPieceSpace(mtu, d, list[0]) ==>
      var d1 := Loaded(d, PieceCommand(list[0]));
      DatagramOk(d1, mtu) && d1.commandCount == d.commandCount + 1 && d1.full == d.full
  {
    assert list[0] in list;
    TailIn(list[1..], list);
    if !NoPieceSpace(mtu, d, list[0]) {
      CommandLoaded(d, PieceCommand(list[0]), mtu);
    }
  }

  // ----- a pass over the reliable commands -----

  /** A command that fits a datagram of its own; one with a packet is of a channel. */
  predicate Sound(c: Command, mtu: nat, channels: nat) { Fits(c, mtu) && (c.packet.Data? ==> c.channelID < channels) }

  ghost predicate AllSound(list: seq<Command>, mtu: nat, channels: nat) {
    forall c {:trigger c in list} :: c in list ==> Sound(c, mtu, channels)
  }

  lemma FitsByIndex(list: seq<Command>, mtu: nat, channels: nat)
    requires AllSound(list, mtu, channels)
    ensures forall i {:trigger list[i]} :: 0 <= i < |list| ==> Sound(list[i], mtu, channels)
  {
    forall i {:trigger list[i]} | 0 <= i < |list| ensures Sound(list[i], mtu, channels) {
      assert list[i] in list;
    }
  }

  lemma OneLessSound(list: seq<Command>, i: nat, mtu: nat, channels: nat)
    requires i < |list| && AllSound(list, mtu, channels)
    ensures AllSound(list[..i] + list[i + 1..], mtu, channels)
  {
    hide Sound;
    var less := list[..i] + list[i + 1..];
    forall c {:trigger c in less} | c in less ensures Sound(c, mtu, channels) {
      var k :| 0 <= k < |less| && less[k] == c;
      assert list[if k < i then k else k + 1] in list;
    }
  }

  lemma OneMoreSound(list: seq<Command>, i: nat, c: Command, mtu: nat, channels: nat)
    requires i <= |list| && AllSound(list, mtu, channels) && Sound(c, mtu, channels)
    ensures AllSound(list[..i] + [c] + list[i..], mtu, channels)
  {
    hide Sound;
    var more := list[..i] + [c] + list[i..];
    forall d {:trigger d in more} | d in more ensures Sound(d, mtu, channels) {
      var k :| 0 <= k < |more| && more[k] == d;
      if k != i {
        assert list[if k < i then k else k - 1] in list;
      }
    }
  }

  /** The number of sent commands whose acknowledgement is late. */
  ghost function Late(list: seq<Command>, now: uint32): nat { Sums.Count(list, c => !InTime(c, now)) }

  /** A command of the peer's own, which nothing holds back. */
  predicate Own(c: Command, channels: nat) { c.channelID >= channels && c.packet.Nothing? }

  ghost predicate NoOwn(list: seq<Command>, channels: nat, at: nat) {
    forall i {:trigger list[i]} :: at <= i < |list| ==> !Own(list[i], channels)
  }

  predicate LimitsOk(limits: Limits) {
    && HEADER_SIZE + ACKNOWLEDGE_SIZE <= limits.mtu <= MAXIMUM_MTU
    && limits.packetThrottle <= THROTTLE_SCALE && limits.windowSize <= MAXIMUM_WINDOW_SIZE
    && Steady(limits.roundTripTime, limits.roundTripTimeVariance)
  }

  ghost predicate SenderOk(s: Sender) {
    && ChannelsOk(s.channels) && LimitsOk(s.limits)
    && AllSound(s.outgoing, s.limits.mtu, |s.channels|) && AllSound(s.sent, s.limits.mtu, |s.channels|)
  }

  ghost predicate CanGoOn(p: Pass) { SenderOk(p.s) && p.at <= |p.s.outgoing| && DatagramOk(p.d, p.s.limits.mtu) }

  function PassFrom(s: Sender, d: Datagram): Pass { Pass(s, d, 0, false, false, true) }

  /** What a pass may change: commands go from the queue to the wire, and are not late there. */
  ghost predicate WentOn(p: Pass, q: Pass, now: uint32) {
    && CanGoOn(q) && q.s.limits == p.s.limits && |q.s.channels| == |p.s.channels|
    && p.d.commandCount <= q.d.commandCount
    && |q.s.outgoing| + q.d.commandCount == |p.s.outgoing| + p.d.commandCount
    && |q.s.sent| + p.d.commandCount == |p.s.sent| + q.d.commandCount
    && Late(q.s.sent, now) == Late(p.s.sent, now)
    && (q.d.full ==> p.d.full || q.d.commandCount > 0) && (p.d.full ==> q.d.full)
    && (q.d.commandCount == p.d.commandCount ==> q.s == p.s)
    && (q.canPing ==> p.canPing && q.s == p.s && q.d == p.d && NoOwn(p.s.outgoing, |p.s.channels|, p.at))
  }

  /** The pass, one command at a time. */
  lemma PassAt(p: Pass, now: uint32)
    requires CanGoOn(p)
    ensures PassOk(p) && forall i {:trigger p.s.outgoing[i]} :: 0 <= i < |p.s.outgoing| ==>
      Fits(p.s.outgoing[i], p.s.limits.mtu)
    ensures p.at == |p.s.outgoing| ==> Passed(p, now) == p
    ensures p.at < |p.s.outgoing| ==> LookedSame(p, Looked(p)) && Passed(p, now) == StepOn(p, now)
  {
    FitsByIndex(p.s.outgoing, p.s.limits.mtu, |p.s.channels|);
  }

  /** Looking at a command changes only the pass's flags. */
  ghost predicate LookedSame(p: Pass, q: Pass) {
    && CanGoOn(q) && PassOk(q) && q.s == p.s && q.d == p.d && q.at == p.at && q.canPing == p.canPing
    && (q.at < |q.s.outgoing| ==> CanGoOn(q.(at := q.at + 1)))
  }

  function Next(q: Pass, now: uint32): Pass
    requires PassOk(q) && q.at < |q.s.outgoing|
  {
    q.(canPing := false, s := Launched(q.s, q.at, now), d := Loaded(q.d, q.s.outgoing[q.at]))
  }

  ghost function StepOn(p: Pass, now: uint32): Pass
    requires CanGoOn(p) && PassOk(p) && p.at < |p.s.outgoing| && LookedSame(p, Looked(p))
  {
    var q, c := Looked(p), p.s.outgoing[p.at];
    FitsByIndex(p.s.outgoing, p.s.limits.mtu, |p.s.channels|);
    if Skips(q) then Passed(q.(at := q.at + 1), now)
    else if NoSpace(q.s.limits.mtu, q.d.commandCount, q.d.bufferCount, q.d.packetSize, c) then
      q.(canPing := false, d := q.d.(full := true))
    else (
      LoadedFits(q.s.limits.mtu, q.d, c);
      Passed(Next(q, now), now))
  }

  lemma {:induction false} PassWent(p: Pass, now: uint32)
    requires CanGoOn(p)
    ensures PassOk(p) && forall i {:trigger p.s.outgoing[i]} :: 0 <= i < |p.s.outgoing| ==>
      Fits(p.s.outgoing[i], p.s.limits.mtu)
    ensures WentOn(p, Passed(p, now), now)
    decreases |p.s.outgoing| - p.at
  {
    hide CanGoOn, PassOk, Passed, Looked, Skips, NoSpace, Launched, Loaded, WentOn, SenderOk, Fits;
    PassAt(p, now);
    if p.at == |p.s.outgoing| {
      EndedWent(p, now);
    } else {
      AtFits(p);
      var q := Looked(p);
      if Skips(q) {
        PassWent(q.(at := q.at + 1), now);
        SkippedWent(p, q, Passed(q.(at := q.at + 1), now), now);
      } else if NoSpace(q.s.limits.mtu, q.d.commandCount, q.d.bufferCount, q.d.packetSize, p.s.outgoing[p.at]) {
        StoppedWent(p, q, now);
      } else {
        LaunchedGoes(p, q, now);
        PassWent(Next(q, now), now);
        ThenWent(p, Next(q, now), Passed(Next(q, now), now), now);
      }
    }
  }

  lemma AtFits(p: Pass)
    requires CanGoOn(p)
    ensures p.at <= |p.s.outgoing| && p.d.packetSize <= p.s.limits.mtu
  {
  }

  lemma EndedWent(p: Pass, now: uint32)
    requires CanGoOn(p) && p.at == |p.s.outgoing|
    ensures WentOn(p, p, now)
  {
  }

  /** A command that is held back is not the peer's own. */
  lemma SkippedWent(p: Pass, q: Pass, r: Pass, now: uint32)
    requires CanGoOn(p) && p.at < |p.s.outgoing| && LookedSame(p, q) && Skips(q)
    requires WentOn(q.(at := q.at + 1), r, now)
    ensures WentOn(p, r, now)
  {
    hide CanGoOn, Late;
  }

  lemma StoppedWent(p: Pass, q: Pass, now: uint32)
    requires CanGoOn(p) && p.at < |p.s.outgoing| && LookedSame(p, q)
    requires NoSpace(p.s.limits.mtu, p.d.commandCount, p.d.bufferCount, p.d.packetSize, p.s.outgoing[p.at])
    ensures WentOn(p, q.(canPing := false, d := q.d.(full := true)), now)
  {
    assert p.s.outgoing[p.at] in p.s.outgoing;
    hide Late;
  }

  /** A command went out, and the pass goes on. */
  ghost predicate OneWent(p: Pass, q: Pass, now: uint32) {
    && CanGoOn(q) && !q.canPing && q.s.limits == p.s.limits && |q.s.channels| == |p.s.channels|
    && q.d.commandCount == p.d.commandCount + 1 && q.d.full == p.d.full
    && |q.s.outgoing| == |p.s.outgoing| - 1 && |q.s.sent| == |p.s.sent| + 1 && q.at == p.at
    && Late(q.s.sent, now) == Late(p.s.sent, now)
  }

  lemma ThenWent(p: Pass, q: Pass, r: Pass, now: uint32)
    requires WentOn(q, r, now) && OneWent(p, q, now)
    ensures WentOn(p, r, now)
  {
    hide Late, CanGoOn;
  }

  /** A command that goes out now is in time, for its timeout is at least 7. */
  lemma AttemptedInTime(c: Command, limits: Limits, now: uint32)
    requires Steady(limits.roundTripTime, limits.roundTripTimeVariance)
    ensures InTime(Attempted(c, limits, now), now)
  {
    TimeoutPositive(limits.roundTripTime, limits.roundTripTimeVariance);
    assert TimeDifference(now, now) == 0;
    hide Plus, Times, TimeDifference;
  }

  lemma LaunchedGoes(p: Pass, q: Pass, now: uint32)
    requires CanGoOn(p) && PassOk(q) && p.at < |p.s.outgoing| && LookedSame(p, q)
    requires !NoSpace(p.s.limits.mtu, p.d.commandCount, p.d.bufferCount, p.d.packetSize, p.s.outgoing[p.at])
    ensures OneWent(p, Next(q, now), now)
  {
    var c := p.s.outgoing[p.at];
    assert c in p.s.outgoing;
    var c1 := Attempted(c, p.s.limits, now);
    var mtu, n := p.s.limits.mtu, |p.s.channels|;
    AttemptedInTime(c, p.s.limits, now);
    assert Sound(c1, mtu, n);
    LoadedOk(p.d, c, mtu);
    LaunchedIs(p.s, p.at, now);
    OneLessSound(p.s.outgoing, p.at, mtu, n);
    OneMoreSound(p.s.sent, |p.s.sent|, c1, mtu, n);
    assert p.s.sent[..|p.s.sent|] + [c1] + p.s.sent[|p.s.sent|..] == p.s.sent + [c1];
    hide Attempted, Loaded, InTime, NoSpace, DatagramOk, Sound, AllSound, Launched, LimitsOk;
    assert (p.s.sent + [c1])[..|p.s.sent|] == p.s.sent;
  }

  lemma LaunchedIs(s: Sender, i: nat, now: uint32)
    requires i < |s.outgoing| && ChannelsOk(s.channels)
    ensures Launched(s, i, now).sent == s.sent + [Attempted(s.outgoing[i], s.limits, now)]
  {
  }

  lemma LoadedOk(d: Datagram, c: Command, mtu: nat)
    requires DatagramOk(d, mtu) && Fits(c, mtu) && !NoSpace(mtu, d.commandCount, d.bufferCount, d.packetSize, c)
    ensures var d1 := Loaded(d, c);
      DatagramOk(d1, mtu) && d1.commandCount == d.commandCount + 1 && d1.full == d.full
  {
  }

  // ----- what a pass leaves is held back -----

  /** From its position on, the pass skips everything. */
  ghost predicate Held(p: Pass)
    requires PassOk(p)
    decreases |p.s.outgoing| - p.at
  {
    p.at == |p.s.outgoing| || (Skips(Looked(p)) && Held(Looked(p).(at := p.at + 1)))
  }

  /** A pass over a queue that is held back sends nothing. */
  lemma {:induction false} HeldSendsNothing(p: Pass, now: uint32)
    requires CanGoOn(p) && PassOk(p) && Held(p)
    ensures forall i {:trigger p.s.outgoing[i]} :: 0 <= i < |p.s.outgoing| ==> Fits(p.s.outgoing[i], p.s.limits.mtu)
    ensures Passed(p, now).s == p.s && Passed(p, now).d == p.d
    decreases |p.s.outgoing| - p.at
  {
    hide CanGoOn, PassOk, Passed, Looked, Skips, NoSpace;
    PassAt(p, now);
    AtFits(p);
    if p.at < |p.s.outgoing| {
      PassAt(Looked(p).(at := p.at + 1), now);
      HeldSendsNothing(Looked(p).(at := p.at + 1), now);
    }
  }

  /** As commands go out, the windows only fill and the data in transit only grows. */
  ghost predicate Fuller(s: Sender, t: Sender) {
    && ChannelsOk(s.channels) && ChannelsOk(t.channels) && |t.channels| == |s.channels| && t.limits == s.limits
    && s.inTransit <= t.inTransit
    && forall k {:trigger s.channels[k]} {:trigger t.channels[k]} ::
         0 <= k < |s.channels| ==> FullerChannel(s.channels[k], t.channels[k])
  }

  ghost predicate FullerChannel(c: Channel, d: Channel)
    requires |c.reliableWindows| == |d.reliableWindows| == WINDOWS
  {
    && c.used <= d.used
    && forall w {:trigger d.reliableWindows[w]} :: 0 <= w < WINDOWS ==> c.reliableWindows[w] <= d.reliableWindows[w]
  }

  lemma StillBlocked(a: Channel, b: Channel, c: Command)
    requires |a.reliableWindows| == |b.reliableWindows| == WINDOWS && FullerChannel(a, b)
    ensures Blocked(a, c) ==> Blocked(b, c)
  {
    if Blocked(a, c) {
      var w := c.sequence / WINDOW_SIZE;
      var _ := b.reliableWindows[(w + WINDOWS - 1) % WINDOWS];
      if a.used * Mask(w) != {} {
        var x :| x in a.used * Mask(w);
        assert x in b.used * Mask(w);
      }
    }
  }

  lemma LaunchedFuller(s: Sender, i: nat, now: uint32)
    requires SenderOk(s) && i < |s.outgoing|
    requires !(s.outgoing[i].packet.Data? && Exceeds(s.inTransit, s.limits, s.outgoing[i]))
    ensures Fuller(s, Launched(s, i, now))
  {
    AllowedBounded(s.limits);
    hide Attempted, AllSound, LimitsOk, Allowed, Sound, Plus, Without;
    var c := s.outgoing[i];
    if c.packet.Data? {
      PlusGrows(s.inTransit, c.packet);
    }
  }

  lemma PlusGrows(a: uint32, p: Packet)
    requires a + Length(p) <= MAXIMUM_WINDOW_SIZE
    ensures Plus(a, LengthWord(p)) == a + Length(p)
  {
  }

  lemma FullerTwice(a: Sender, b: Sender, c: Sender)
    requires Fuller(a, b) && Fuller(b, c)
    ensures Fuller(a, c)
  {
    forall k {:trigger a.channels[k]} {:trigger c.channels[k]} | 0 <= k < |a.channels|
      ensures FullerChannel(a.channels[k], c.channels[k])
    {
      var _ := b.channels[k];
      FullerChannelTwice(a.channels[k], b.channels[k], c.channels[k]);
    }
  }

  lemma FullerChannelTwice(a: Channel, b: Channel, c: Channel)
    requires |a.reliableWindows| == |b.reliableWindows| == |c.reliableWindows| == WINDOWS
    requires FullerChannel(a, b) && FullerChannel(b, c)
    ensures FullerChannel(a, c)
  {
    forall w {:trigger c.reliableWindows[w]} | 0 <= w < WINDOWS ensures a.reliableWindows[w] <= c.reliableWindows[w] {
      var _ := b.reliableWindows[w];
    }
  }

  /** What the pass has gone by stays in the queue. */
  ghost predicate Leaves(p: Pass, t: Sender) {
    p.at <= |p.s.outgoing| && p.at <= |t.outgoing| && t.outgoing[..p.at] == p.s.outgoing[..p.at] && Fuller(p.s, t)
  }

  lemma {:induction false} PassLeaves(p: Pass, now: uint32)
    requires CanGoOn(p)
    ensures PassOk(p) && forall i {:trigger p.s.outgoing[i]} :: 0 <= i < |p.s.outgoing| ==>
      Fits(p.s.outgoing[i], p.s.limits.mtu)
    ensures Leaves(p, Passed(p, now).s)
    decreases |p.s.outgoing| - p.at
  {
    hide CanGoOn, PassOk, Passed, Looked, Skips, NoSpace, Launched, Loaded, Leaves, Fuller, Fits;
    PassAt(p, now);
    AtFits(p);
    LeavesItself(p);
    if p.at < |p.s.outgoing| {
      var q := Looked(p);
      if Skips(q) {
        PassLeaves(q.(at := q.at + 1), now);
        SkipLeaves(p, q, Passed(q.(at := q.at + 1), now).s);
      } else if !NoSpace(q.s.limits.mtu, q.d.commandCount, q.d.bufferCount, q.d.packetSize, p.s.outgoing[p.at]) {
        LaunchedGoes(p, q, now);
        OneWentOn(p, Next(q, now), now);
        PassLeaves(Next(q, now), now);
        LaunchLeaves(p, now, Passed(Next(q, now), now).s);
      }
    }
  }

  lemma OneWentOn(p: Pass, q: Pass, now: uint32)
    requires OneWent(p, q, now)
    ensures CanGoOn(q) && |q.s.outgoing| == |p.s.outgoing| - 1 && q.at == p.at
  {
  }

  lemma LeavesItself(p: Pass)
    requires CanGoOn(p)
    ensures Leaves(p, p.s)
  {
  }

  lemma SkipLeaves(p: Pass, q: Pass, t: Sender)
    requires p.at < |p.s.outgoing| && q.s == p.s && q.at == p.at && Leaves(q.(at := q.at + 1), t)
    ensures Leaves(p, t)
  {
    assert p.s.outgoing[..p.at + 1][..p.at] == p.s.outgoing[..p.at];
    assert t.outgoing[..p.at + 1][..p.at] == t.outgoing[..p.at];
    hide Fuller;
  }

  lemma LaunchLeaves(p: Pass, now: uint32, t: Sender)
    requires CanGoOn(p) && PassOk(p) && p.at < |p.s.outgoing| && !Skips(Looked(p)) && PassOk(Looked(p))
    requires Leaves(Next(Looked(p), now), t)
    ensures Leaves(p, t)
  {
    var c, s1 := p.s.outgoing[p.at], Launched(p.s, p.at, now);
    assert c in p.s.outgoing;
    assert !(c.packet.Data? && Exceeds(p.s.inTransit, p.s.limits, c)) by {
      hide Exceeds, Blocked;
    }
    LaunchedFuller(p.s, p.at, now);
    FullerTwice(p.s, s1, t);
    assert s1.outgoing[..p.at] == p.s.outgoing[..p.at];
    hide Launched, Fuller;
  }

  /** One pass's flags against another's: what held a command back still does. */
  predicate HoldsMore(p: Pass, r: Pass) { (p.wrapped ==> r.wrapped) && (p.exceeded ==> r.exceeded || r.wrapped) }

  /** When a pass ends for no want of room, a pass over what it leaves would skip everything. */
  lemma {:induction false} PassHolds(p: Pass, now: uint32, r: Pass)
    requires CanGoOn(p) && CanGoOn(r) && r.at == p.at && HoldsMore(p, r)
    requires PassOk(p) && forall i {:trigger p.s.outgoing[i]} :: 0 <= i < |p.s.outgoing| ==>
      Fits(p.s.outgoing[i], p.s.limits.mtu)
    requires r.s == Passed(p, now).s && !Passed(p, now).d.full
    ensures PassOk(r) && Held(r)
    decreases |p.s.outgoing| - p.at
  {
    hide CanGoOn, PassOk, Passed, Looked, Skips, NoSpace, Launched, Loaded, Leaves, Fuller, Fits, HoldsMore, OneWent;
    PassAt(p, now);
    PassAt(r, now);
    AtFits(p);
    if p.at < |p.s.outgoing| {
      var q := Looked(p);
      if Skips(q) {
        PassLeaves(q.(at := q.at + 1), now);
        SkippedAgain(p, r);
        PassHolds(q.(at := q.at + 1), now, Looked(r).(at := r.at + 1));
      } else if !NoSpace(q.s.limits.mtu, q.d.commandCount, q.d.bufferCount, q.d.packetSize, p.s.outgoing[p.at]) {
        LaunchedGoes(p, q, now);
        OneWentOn(p, Next(q, now), now);
        LaunchedFlags(p, r, now);
        PassAt(Next(q, now), now);
        PassHolds(Next(q, now), now, r);
      }
    }
  }

  lemma SkippedAgain(p: Pass, r: Pass)
    requires CanGoOn(p) && CanGoOn(r) && PassOk(p) && PassOk(r) && r.at == p.at < |p.s.outgoing| && HoldsMore(p, r)
    requires Skips(Looked(p)) && Leaves(Looked(p).(at := p.at + 1), r.s)
    ensures r.at < |r.s.outgoing| && Skips(Looked(r)) && CanGoOn(Looked(r).(at := r.at + 1))
    ensures HoldsMore(Looked(p).(at := p.at + 1), Looked(r).(at := r.at + 1))
  {
    var c := p.s.outgoing[p.at];
    assert c == p.s.outgoing[..p.at + 1][p.at] == r.s.outgoing[p.at];
    assert c in p.s.outgoing;
    if c.channelID < |p.s.channels| {
      StillBlocked(p.s.channels[c.channelID], r.s.channels[c.channelID], c);
    }
    hide Blocked, Allowed, FullerChannel, AllSound;
  }

  lemma LaunchedFlags(p: Pass, r: Pass, now: uint32)
    requires CanGoOn(p) && PassOk(p) && p.at < |p.s.outgoing| && !Skips(Looked(p)) && PassOk(Looked(p))
    requires HoldsMore(p, r)
    ensures HoldsMore(Next(Looked(p), now), r)
  {
    hide Launched, Loaded, Blocked, Exceeds;
  }

  // ----- what the timeouts do to it -----

  ghost predicate Returns(s: Sender, r: Sender, now: uint32) {
    && r.limits == s.limits && r.channels == s.channels
    && |r.outgoing| + Late(r.sent, now) == |s.outgoing| + Late(s.sent, now)
    && |r.outgoing| + |r.sent| == |s.outgoing| + |s.sent| && |s.outgoing| <= |r.outgoing|
    && AllSound(r.outgoing, s.limits.mtu, |s.channels|) && AllSound(r.sent, s.limits.mtu, |s.channels|)
  }

  lemma {:induction false} TimedOutReturns(s: Sender, at: nat, back: nat, now: uint32)
    requires at <= |s.sent| && back <= |s.outgoing|
    requires AllSound(s.outgoing, s.limits.mtu, |s.channels|) && AllSound(s.sent, s.limits.mtu, |s.channels|)
    ensures Returns(s, TimedOut(s, at, back, now).0, now)
    decreases |s.sent| - at
  {
    hide Late, Returned, InTime, GivenUp, Earliest, AllSound;
    if at < |s.sent| {
      if InTime(s.sent[at], now) {
        TimedOutReturns(s, at + 1, back, now);
      } else {
        var s1 := s.(earliestTimeout := Earliest(s.earliestTimeout, s.sent[at]));
        if !GivenUp(s1.earliestTimeout, s1.sent[at], s1.limits, now) {
          ReturnedReturns(s1, at, back, now);
          TimedOutReturns(Returned(s1, at, back), at, back + 1, now);
        }
      }
    }
  }

  lemma ReturnedReturns(s: Sender, at: nat, back: nat, now: uint32)
    requires at < |s.sent| && back <= |s.outgoing| && !InTime(s.sent[at], now)
    requires AllSound(s.outgoing, s.limits.mtu, |s.channels|) && AllSound(s.sent, s.limits.mtu, |s.channels|)
    ensures Returns(s, Returned(s, at, back), now)
  {
    var c := s.sent[at];
    assert c in s.sent;
    CountWithout(s.sent, at, c => !InTime(c, now));
    var c1 := c.(roundTripTimeout := Times(c.roundTripTimeout, 2));
    assert Sound(c1, s.limits.mtu, |s.channels|);
    OneLessSound(s.sent, at, s.limits.mtu, |s.channels|);
    OneMoreSound(s.outgoing, back, c1, s.limits.mtu, |s.channels|);
    hide AllSound, Times, InTime, Sound;
  }

  lemma {:induction false} CountWithout(list: seq<Command>, i: nat, p: Command -> bool)
    requires i < |list|
    ensures Sums.Count(list[..i] + list[i + 1..], p) == Sums.Count(list, p) - (if p(list[i]) then 1 else 0)
    decreases |list|
  {
    var k := |list| - 1;
    if i == k {
      assert list[..i] + list[i + 1..] == list[..k];
    } else {
      CountWithout(list[..k], i, p);
      var less := list[..i] + list[i + 1..];
      assert less[..|less| - 1] == list[..k][..i] + list[..k][i + 1..];
    }
  }
}
