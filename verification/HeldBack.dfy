/** Why a command stays in its queue: there is no room in the datagram, its window is closed, or too
    much data is in transit. */
module HeldBack {
  import opened SendPasses
  import opened Sending
  import opened SendTurns
  import opened Windows
  import opened Words

  // ----- for want of room -----

  /** A datagram with no room for a command of `size` bytes with its data, in `buffers` buffers. */
  predicate NoRoom(d: Datagram, mtu: nat, size: nat, buffers: nat) {
    d.commandCount >= 32 || d.bufferCount + buffers > 65 || d.packetSize + size > mtu
  }

  /** Acknowledgements stay only when the datagram has no room for one more. */
  lemma {:induction false} AcksFill(acks: seq<Ack>, d: Datagram, mtu: nat)
    requires d.packetSize <= mtu
    ensures var (rest, d1) := SentAcks(acks, d, mtu); rest != [] ==> NoRoom(d1, mtu, 8, 1)
    ensures SentAcks(acks, d, mtu).1.full ==> d.full || SentAcks(acks, d, mtu).0 != []
    decreases |acks|
  {
    if acks != [] && !NoAckSpace(mtu, d) {
      AcksFill(acks[1..], Loaded(d, AckCommand(acks[0])), mtu);
    }
  }

  /** Unreliable commands stay only when it has no room for the first of them; a command with data
      takes two buffers, and any is given two. */
  lemma {:induction false} PiecesFill(list: seq<Piece>, d: Datagram, counter: nat, throttle: nat, mtu: nat)
    requires d.packetSize <= mtu
    ensures var (rest, d1, _) := SentPieces(list, d, counter, throttle, mtu);
      rest != [] ==> NoRoom(d1, mtu, rest[0].commandSize + Length(rest[0].packet), 2)
    decreases |list|
  {
    hide AfterGroup, Asked, Throttled;
    if list != [] && !NoPieceSpace(mtu, d, list[0]) {
      if Throttled(list[0], counter, throttle) {
        PiecesFill(AfterGroup(list[1..], list[0].reliable, list[0].unreliable), d, Asked(list[0], counter), throttle,
                   mtu);
      } else {
        PiecesFill(list[1..], Loaded(d, PieceCommand(list[0])), Asked(list[0], counter), throttle, mtu);
      }
    }
  }

  ghost predicate StopsAt(p: Pass, r: Pass) {
    && r.at < |r.s.outgoing| && r.s.limits == p.s.limits
    && var c := r.s.outgoing[r.at]; NoRoom(r.d, p.s.limits.mtu, c.commandSize + Length(c.packet), 2)
  }

  /** A pass over the reliable commands ends before the end of the queue only when there is no room for
      the command it has come to. */
  lemma {:induction false} PassFills(p: Pass, now: uint32)
    requires CanGoOn(p) && !p.d.full
    ensures PassOk(p) && forall i {:trigger p.s.outgoing[i]} :: 0 <= i < |p.s.outgoing| ==>
      Fits(p.s.outgoing[i], p.s.limits.mtu)
    ensures var r := Passed(p, now); if r.d.full then StopsAt(p, r) else r.at == |r.s.outgoing|
    decreases |p.s.outgoing| - p.at
  {
    hide CanGoOn, PassOk, Passed, Looked, Skips, NoSpace, Launched, Loaded, SenderOk, Fits, StopsAt;
    PassAt(p, now);
    AtFits(p);
    if p.at < |p.s.outgoing| {
      var q := Looked(p);
      if Skips(q) {
        PassFills(q.(at := q.at + 1), now);
        StopsSame(p, q.(at := q.at + 1), Passed(q.(at := q.at + 1), now));
      } else if NoSpace(q.s.limits.mtu, q.d.commandCount, q.d.bufferCount, q.d.packetSize, p.s.outgoing[p.at]) {
        StopsHere(p, q);
      } else {
        LaunchedGoes(p, q, now);
        OneWentOn(p, Next(q, now), now);
        OneWentFull(p, Next(q, now), now);
        PassFills(Next(q, now), now);
        StopsSame(p, Next(q, now), Passed(Next(q, now), now));
      }
    }
  }

  lemma OneWentFull(p: Pass, q: Pass, now: uint32)
    requires OneWent(p, q, now)
    ensures q.d.full == p.d.full && q.s.limits == p.s.limits
  {
  }

  lemma StopsSame(p: Pass, q: Pass, r: Pass)
    requires q.s.limits == p.s.limits
    ensures StopsAt(q, r) ==> StopsAt(p, r)
  {
  }

  lemma StopsHere(p: Pass, q: Pass)
    requires CanGoOn(p) && p.at < |p.s.outgoing| && LookedSame(p, q)
    requires NoSpace(p.s.limits.mtu, p.d.commandCount, p.d.bufferCount, p.d.packetSize, p.s.outgoing[p.at])
    ensures StopsAt(p, q.(canPing := false, d := q.d.(full := true)))
  {
    assert p.s.outgoing[p.at] in p.s.outgoing;
  }

  // ----- for its window, or for the data in transit -----

  /** The first command of a window of 4096 numbers waits while all 4096 of the window before are open,
      or while any is in its own window or the seven after it. */
  ghost predicate WindowClosed(channel: Channel, c: Command)
    requires |channel.reliableWindows| == 16
  {
    && c.sendAttempts == 0 && c.sequence % 4096 == 0
    && var w := c.sequence / 4096;
       || channel.reliableWindows[(w + 15) % 16] >= 4096
       || exists v {:trigger v in channel.used} :: v in channel.used && v < 16 && (v - w) % 16 < 8
  }

  lemma BlockedIs(channel: Channel, c: Command)
    requires |channel.reliableWindows| == 16
    ensures Blocked(channel, c) <==> WindowClosed(channel, c)
  {
    var w := c.sequence / 4096;
    if v :| v in channel.used && v < 16 && (v - w) % 16 < 8 {
      assert v in channel.used * Mask(w);
    }
    if channel.used * Mask(w) != {} {
      var v :| v in channel.used * Mask(w);
      assert v in channel.used;
    }
  }

  /** With it, more would be in transit than the throttled part of the window, in 32ths, and than the
      size of a datagram. */
  predicate TooMuch(s: Sender, c: Command) {
    var bytes := s.inTransit + Length(c.packet);
    c.packet.Data? && bytes > s.limits.mtu && 32 * bytes > s.limits.packetThrottle * s.limits.windowSize
  }

  lemma ExceedsIs(s: Sender, c: Command)
    ensures c.packet.Data? && Exceeds(s.inTransit, s.limits, c) <==> TooMuch(s, c)
  {
  }

  ghost predicate ClosedAt(s: Sender, j: nat)
    requires ChannelsOk(s.channels)
  {
    && j < |s.outgoing| && s.outgoing[j].channelID < |s.channels|
    && WindowClosed(s.channels[s.outgoing[j].channelID], s.outgoing[j])
  }

  predicate TooMuchAt(s: Sender, j: nat) { j < |s.outgoing| && TooMuch(s, s.outgoing[j]) }

  ghost predicate ClosedUpTo(s: Sender, i: nat)
    requires ChannelsOk(s.channels)
  {
    exists j {:trigger ClosedAt(s, j)} :: 0 <= j <= i && ClosedAt(s, j)
  }

  ghost predicate TooMuchUpTo(s: Sender, i: nat) {
    exists j {:trigger TooMuchAt(s, j)} :: 0 <= j <= i && TooMuchAt(s, j)
  }

  /** Command `i` of the queue waits: it is of a channel and a window is closed for it or for one before
      it, or it has data and for it or one before it too much would be in transit. */
  ghost predicate Waits(s: Sender, i: nat)
    requires ChannelsOk(s.channels) && i < |s.outgoing|
  {
    var c := s.outgoing[i];
    (c.channelID < |s.channels| && ClosedUpTo(s, i)) || (c.packet.Data? && TooMuchUpTo(s, i))
  }

  lemma {:induction false} HeldWaits(p: Pass, i: nat)
    requires PassOk(p) && Held(p) && p.at <= i < |p.s.outgoing|
    requires p.wrapped ==> p.at > 0 && ClosedUpTo(p.s, p.at - 1)
    requires p.exceeded ==> p.at > 0 && TooMuchUpTo(p.s, p.at - 1)
    ensures Waits(p.s, i)
    decreases |p.s.outgoing| - p.at
  {
    hide Blocked, Exceeds, WindowClosed, TooMuch;
    var q, c := Looked(p), p.s.outgoing[p.at];
    if c.channelID < |p.s.channels| {
      BlockedIs(p.s.channels[c.channelID], c);
    }
    ExceedsIs(p.s, c);
    if q.wrapped && !p.wrapped { assert ClosedAt(p.s, p.at); }
    if q.exceeded && !p.exceeded { assert TooMuchAt(p.s, p.at); }
    if i > p.at {
      HeldWaits(q.(at := q.at + 1), i);
    }
  }

  /** What a peer has left after sending waits for its window or for the data in transit. */
  lemma AllWait(l: Line, i: nat)
    requires SentOut(l) && i < |l.sender.outgoing|
    ensures Waits(l.sender, i)
  {
    hide Held, Waits;
    HeldWaits(PassFrom(l.sender, Empty()), i);
  }

  /** And what goes to the wire has its window open and fits what may be in transit. */
  lemma GoesOnly(p: Pass)
    requires PassOk(p) && p.at < |p.s.outgoing| && !Skips(Looked(p))
    ensures !ClosedAt(p.s, p.at) && !TooMuchAt(p.s, p.at)
  {
    var c := p.s.outgoing[p.at];
    if c.channelID < |p.s.channels| {
      BlockedIs(p.s.channels[c.channelID], c);
    }
    ExceedsIs(p.s, c);
    hide Blocked, Exceeds, WindowClosed, TooMuch;
  }
}
