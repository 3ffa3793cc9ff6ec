/** What leaves the queues of a peer, against what its datagrams carry. */
module SendLedger {
  import opened SendPasses
  import opened Sending
  import opened Words

  // ----- acknowledgements -----

  /** The commands are these acknowledgements, one by one. */
  ghost predicate AreAcks(commands: seq<Command>, acks: seq<Ack>) {
    && |commands| == |acks|
    && forall k {:trigger commands[k]} {:trigger acks[k]} :: 0 <= k < |acks| ==>
         commands[k].channelID == acks[k].channelID && commands[k].sequence == acks[k].sequence
         && commands[k].packet.Nothing?
  }

  ghost predicate AcksLeft(acks: seq<Ack>, d: Datagram, rest: seq<Ack>, d1: Datagram) {
    && |rest| <= |acks| && |d.commands| <= |d1.commands|
    && var n := |acks| - |rest|;
       && rest == acks[n..] && d1.commands[..|d.commands|] == d.commands
       && AreAcks(d1.commands[|d.commands|..], acks[..n]) && d1.packetSize == d.packetSize + 8 * n
  }

  /** The acknowledgements that leave the front of the queue are loaded, in their order. */
  lemma {:induction false} AcksLedger(acks: seq<Ack>, d: Datagram, mtu: nat)
    requires d.packetSize <= mtu
    ensures var (rest, d1) := SentAcks(acks, d, mtu); AcksLeft(acks, d, rest, d1)
    decreases |acks|
  {
    hide AcksLeft, Loaded;
    NoneLeft(acks, d);
    if acks != [] && !NoAckSpace(mtu, d) {
      var e := Loaded(d, AckCommand(acks[0]));
      AckTakes(acks[0], d);
      AcksLedger(acks[1..], e, mtu);
      var (rest, d1) := SentAcks(acks[1..], e, mtu);
      OneLeft(acks, d, e, rest, d1);
    }
  }

  lemma NoneLeft(acks: seq<Ack>, d: Datagram)
    ensures AcksLeft(acks, d, acks, d) && AcksLeft(acks, d, acks, d.(full := true))
  {
  }

  lemma AckTakes(a: Ack, d: Datagram)
    ensures var e := Loaded(d, AckCommand(a)); e.commands == d.commands + [AckCommand(a)]
    ensures Loaded(d, AckCommand(a)).packetSize == d.packetSize + 8
  {
  }

  lemma OneLeft(acks: seq<Ack>, d: Datagram, e: Datagram, rest: seq<Ack>, d1: Datagram)
    requires acks != [] && e.commands == d.commands + [AckCommand(acks[0])] && e.packetSize == d.packetSize + 8
    requires AcksLeft(acks[1..], e, rest, d1)
    ensures AcksLeft(acks, d, rest, d1)
  {
    var n, c := |acks| - 1 - |rest|, AckCommand(acks[0]);
    assert acks[n + 1..] == acks[1..][n..] && acks[..n + 1] == [acks[0]] + acks[1..][..n];
    CommandsSplit(d1.commands, d.commands, c);
  }

  /** A list that begins with another and one command more. */
  lemma CommandsSplit(list: seq<Command>, front: seq<Command>, c: Command)
    requires |front| < |list| && list[..|front| + 1] == front + [c]
    ensures list[..|front|] == front && list[|front|..] == [c] + list[|front| + 1..]
  {
    assert list[..|front|] == list[..|front| + 1][..|front|];
    assert list[|front|] == list[..|front| + 1][|front|];
  }

  // ----- unreliable commands -----

  /** What became of a piece that left the queue: it was sent, the throttle stopped its packet, or it
      was dropped right behind such a piece, with the same numbers. */
  datatype Fate = Sent | Stopped | Followed

  /** The first piece of a packet asks the throttle. */
  predicate IsFirst(p: Piece) { p.packet.Data? && p.offset == 0 }

  predicate Behind(p: Piece, dropped: Option<Piece>) {
    dropped.Some? && p.reliable == dropped.value.reliable && p.unreliable == dropped.value.unreliable
  }

  function CountedUp(counter: nat): nat { (counter + 7) % 32 }

  /** The fates of the first pieces of a list.  A first piece is sent exactly when the counter, counted
      up for it, is within the throttle; behind one that is not, everything with its numbers is dropped,
      and nothing else ever is. */
  predicate FatesOk(list: seq<Piece>, fates: seq<Fate>, counter: nat, throttle: nat, dropped: Option<Piece>)
    decreases |fates|
  {
    if fates == [] then list == [] || !Behind(list[0], dropped)
    else
      && list != []
      && match fates[0]
         case Sent =>
           && !Behind(list[0], dropped) && (IsFirst(list[0]) ==> CountedUp(counter) <= throttle)
           && FatesOk(list[1..], fates[1..], if IsFirst(list[0]) then CountedUp(counter) else counter, throttle, None)
         case Stopped =>
           && !Behind(list[0], dropped) && IsFirst(list[0]) && CountedUp(counter) > throttle
           && FatesOk(list[1..], fates[1..], CountedUp(counter), throttle, Some(list[0]))
         case Followed =>
           Behind(list[0], dropped) && FatesOk(list[1..], fates[1..], counter, throttle, dropped)
  }

  /** The counter after them. */
  function CounterAfter(list: seq<Piece>, fates: seq<Fate>, counter: nat): nat
    requires |fates| <= |list|
    decreases |fates|
  {
    if fates == [] then counter
    else CounterAfter(list[1..], fates[1..],
                      if IsFirst(list[0]) && !fates[0].Followed? then CountedUp(counter) else counter)
  }

  /** Those that were sent. */
  function SentOf(list: seq<Piece>, fates: seq<Fate>): seq<Piece>
    requires |fates| <= |list|
    decreases |fates|
  {
    if fates == [] then []
    else (if fates[0].Sent? then [list[0]] else []) + SentOf(list[1..], fates[1..])
  }

  ghost predicate ArePieces(commands: seq<Command>, pieces: seq<Piece>) {
    && |commands| == |pieces|
    && forall k {:trigger commands[k]} {:trigger pieces[k]} :: 0 <= k < |pieces| ==>
         commands[k].channelID == pieces[k].channelID && commands[k].sequence == pieces[k].reliable
         && commands[k].packet == pieces[k].packet && commands[k].commandSize == pieces[k].commandSize
  }

  ghost predicate PiecesLedger(list: seq<Piece>, d: Datagram, counter: nat, throttle: nat, rest: seq<Piece>,
                               d1: Datagram, counter1: nat, fates: seq<Fate>)
  {
    && |fates| <= |list| && rest == list[|fates|..] && FatesOk(list, fates, counter, throttle, None)
    && counter1 == CounterAfter(list, fates, counter) && |d.commands| <= |d1.commands|
    && d1.commands[..|d.commands|] == d.commands && ArePieces(d1.commands[|d.commands|..], SentOf(list, fates))
  }

  /** Every piece that leaves the queue is loaded, in its order, or dropped by the throttle. */
  lemma {:induction false} PiecesAccounted(list: seq<Piece>, d: Datagram, counter: nat, throttle: nat, mtu: nat)
    returns (fates: seq<Fate>)
    requires d.packetSize <= mtu
    ensures var (rest, d1, counter1) := SentPieces(list, d, counter, throttle, mtu);
      PiecesLedger(list, d, counter, throttle, rest, d1, counter1, fates)
    decreases |list|
  {
    hide FatesOk, CounterAfter, SentOf, Loaded, AfterGroup, NoPieceSpace;
    if list == [] || NoPieceSpace(mtu, d, list[0]) {
      fates := [];
      NoFates(list, d, counter, throttle);
    } else if Throttled(list[0], counter, throttle) {
      var rest := AfterGroup(list[1..], list[0].reliable, list[0].unreliable);
      var (rest1, d1, counter1) := SentPieces(rest, d, Asked(list[0], counter), throttle, mtu);
      fates := PiecesAccounted(rest, d, Asked(list[0], counter), throttle, mtu);
      fates := GroupDropped(list[1..], rest, list[0], d, Asked(list[0], counter), throttle, rest1, d1, counter1, fates);
      StoppedFirst(list, d, counter, throttle, rest1, d1, counter1, fates);
      fates := [Stopped] + fates;
    } else {
      PieceTakes(list, d, mtu);
      var e := Loaded(d, PieceCommand(list[0]));
      var (rest1, d1, counter1) := SentPieces(list[1..], e, Asked(list[0], counter), throttle, mtu);
      fates := PiecesAccounted(list[1..], e, Asked(list[0], counter), throttle, mtu);
      SentFirst(list, d, e, counter, throttle, rest1, d1, counter1, fates);
      fates := [Sent] + fates;
    }
  }

  lemma NoFates(list: seq<Piece>, d: Datagram, counter: nat, throttle: nat)
    ensures PiecesLedger(list, d, counter, throttle, list, d, counter, [])
    ensures PiecesLedger(list, d, counter, throttle, list, d.(full := true), counter, [])
  {
  }

  lemma PieceTakes(list: seq<Piece>, d: Datagram, mtu: nat)
    requires list != [] && d.packetSize <= mtu && !NoPieceSpace(mtu, d, list[0])
    ensures var e := Loaded(d, PieceCommand(list[0]));
      e.packetSize <= mtu && e.commands == d.commands + [PieceCommand(list[0])]
  {
  }

  lemma SentFirst(list: seq<Piece>, d: Datagram, e: Datagram, counter: nat, throttle: nat, rest: seq<Piece>,
                  d1: Datagram, counter1: nat, fates: seq<Fate>)
    requires list != [] && !Throttled(list[0], counter, throttle)
    requires e.commands == d.commands + [PieceCommand(list[0])]
    requires PiecesLedger(list[1..], e, Asked(list[0], counter), throttle, rest, d1, counter1, fates)
    ensures PiecesLedger(list, d, counter, throttle, rest, d1, counter1, [Sent] + fates)
  {
    var all := [Sent] + fates;
    assert all[1..] == fates && list[|all|..] == list[1..][|fates|..];
    CommandsSplit(d1.commands, d.commands, PieceCommand(list[0]));
    assert SentOf(list, all) == [list[0]] + SentOf(list[1..], fates);
  }

  /** A ledger of what comes behind a dropped piece. */
  ghost predicate BehindLedger(list: seq<Piece>, dropped: Piece, d: Datagram, counter: nat, throttle: nat,
                               rest: seq<Piece>, d1: Datagram, counter1: nat, fates: seq<Fate>)
  {
    && |fates| <= |list| && rest == list[|fates|..] && FatesOk(list, fates, counter, throttle, Some(dropped))
    && counter1 == CounterAfter(list, fates, counter) && |d.commands| <= |d1.commands|
    && d1.commands[..|d.commands|] == d.commands && ArePieces(d1.commands[|d.commands|..], SentOf(list, fates))
  }

  lemma StoppedFirst(list: seq<Piece>, d: Datagram, counter: nat, throttle: nat, rest: seq<Piece>,
                     d1: Datagram, counter1: nat, fates: seq<Fate>)
    requires list != [] && Throttled(list[0], counter, throttle)
    requires BehindLedger(list[1..], list[0], d, Asked(list[0], counter), throttle, rest, d1, counter1, fates)
    ensures PiecesLedger(list, d, counter, throttle, rest, d1, counter1, [Stopped] + fates)
  {
    var all := [Stopped] + fates;
    assert all[1..] == fates && list[|all|..] == list[1..][|fates|..];
    assert SentOf(list, all) == SentOf(list[1..], fates);
  }

  /** The group behind a dropped piece goes with it. */
  lemma {:induction false} GroupDropped(list: seq<Piece>, rest: seq<Piece>, dropped: Piece, d: Datagram, counter: nat,
                                        throttle: nat, rest1: seq<Piece>, d1: Datagram, counter1: nat,
                                        fates: seq<Fate>)
    returns (all: seq<Fate>)
    requires rest == AfterGroup(list, dropped.reliable, dropped.unreliable)
    requires PiecesLedger(rest, d, counter, throttle, rest1, d1, counter1, fates)
    ensures BehindLedger(list, dropped, d, counter, throttle, rest1, d1, counter1, all)
    decreases |list|
  {
    hide PiecesLedger, BehindLedger;
    if list == [] || list[0].reliable != dropped.reliable || list[0].unreliable != dropped.unreliable {
      all := fates;
      NotBehind(list, dropped, d, counter, throttle, rest1, d1, counter1, fates);
    } else {
      var more := GroupDropped(list[1..], rest, dropped, d, counter, throttle, rest1, d1, counter1, fates);
      all := [Followed] + more;
      FollowedFirst(list, dropped, d, counter, throttle, rest1, d1, counter1, more);
    }
  }

  lemma FollowedFirst(list: seq<Piece>, dropped: Piece, d: Datagram, counter: nat, throttle: nat, rest1: seq<Piece>,
                      d1: Datagram, counter1: nat, more: seq<Fate>)
    requires list != [] && Behind(list[0], Some(dropped))
    requires BehindLedger(list[1..], dropped, d, counter, throttle, rest1, d1, counter1, more)
    ensures BehindLedger(list, dropped, d, counter, throttle, rest1, d1, counter1, [Followed] + more)
  {
    var all := [Followed] + more;
    assert all[1..] == more && list[|all|..] == list[1..][|more|..];
    assert SentOf(list, all) == SentOf(list[1..], more);
    hide ArePieces;
  }

  lemma NotBehind(list: seq<Piece>, dropped: Piece, d: Datagram, counter: nat, throttle: nat, rest1: seq<Piece>,
                  d1: Datagram, counter1: nat, fates: seq<Fate>)
    requires PiecesLedger(list, d, counter, throttle, rest1, d1, counter1, fates)
    requires list == [] || !Behind(list[0], Some(dropped))
    ensures BehindLedger(list, dropped, d, counter, throttle, rest1, d1, counter1, fates)
  {
  }

  // ----- reliable commands -----

  /** The list is made up of two others, each in its order. */
  predicate Interleaves<T(==)>(list: seq<T>, a: seq<T>, b: seq<T>)
    decreases |list|
  {
    if list == [] then a == [] && b == []
    else
      || (a != [] && list[0] == a[0] && Interleaves(list[1..], a[1..], b))
      || (b != [] && list[0] == b[0] && Interleaves(list[1..], a, b[1..]))
  }

  /** Commands as they are on the wire against what they were in the queue: the same, attempted once
      more, and now. */
  ghost predicate WentOut(commands: seq<Command>, sent: seq<Command>, now: uint32) {
    && |sent| == |commands|
    && forall k {:trigger sent[k]} {:trigger commands[k]} :: 0 <= k < |commands| ==>
         && sent[k].channelID == commands[k].channelID && sent[k].sequence == commands[k].sequence
         && sent[k].packet == commands[k].packet && sent[k].commandSize == commands[k].commandSize
         && sent[k].sendAttempts == commands[k].sendAttempts + 1 && sent[k].sentTime == now
  }

  lemma {:induction false} AllStay<T>(list: seq<T>)
    ensures Interleaves(list, [], list)
    decreases |list|
  {
    if list != [] { AllStay(list[1..]); }
  }

  /** What a pass makes of the queue from its position on, the commands on the wire, and the datagram. */
  ghost predicate PassLedger(p: Pass, r: Pass, launched: seq<Command>, now: uint32) {
    && p.at <= |p.s.outgoing| && p.at <= |r.s.outgoing| && r.s.outgoing[..p.at] == p.s.outgoing[..p.at]
    && Interleaves(p.s.outgoing[p.at..], launched, r.s.outgoing[p.at..])
    && r.d.commands == p.d.commands + launched
    && |p.s.sent| <= |r.s.sent| && r.s.sent[..|p.s.sent|] == p.s.sent
    && WentOut(launched, r.s.sent[|p.s.sent|..], now)
  }

  /** The commands that a pass takes off the queue are loaded and go to the wire, in their order. */
  lemma {:induction false} PassAccounted(p: Pass, now: uint32) returns (launched: seq<Command>)
    requires CanGoOn(p)
    ensures PassOk(p) && forall i {:trigger p.s.outgoing[i]} :: 0 <= i < |p.s.outgoing| ==>
      Fits(p.s.outgoing[i], p.s.limits.mtu)
    ensures PassLedger(p, Passed(p, now), launched, now)
    decreases |p.s.outgoing| - p.at
  {
    hide CanGoOn, PassOk, Passed, Looked, Skips, NoSpace, Launched, Loaded, SenderOk, Fits, PassLedger;
    PassAt(p, now);
    AtFits(p);
    launched := [];
    if p.at == |p.s.outgoing| {
      StoppedLedger(p, p, now);
    } else {
      var q := Looked(p);
      if Skips(q) {
        launched := PassAccounted(q.(at := q.at + 1), now);
        SkippedLedger(p, q, Passed(q.(at := q.at + 1), now), launched, now);
      } else if NoSpace(q.s.limits.mtu, q.d.commandCount, q.d.bufferCount, q.d.packetSize, p.s.outgoing[p.at]) {
        StoppedLedger(p, q.(canPing := false, d := q.d.(full := true)), now);
      } else {
        LaunchedGoes(p, q, now);
        OneWentOn(p, Next(q, now), now);
        launched := PassAccounted(Next(q, now), now);
        LaunchedLedger(p, q, Passed(Next(q, now), now), launched, now);
        launched := [p.s.outgoing[p.at]] + launched;
      }
    }
  }

  lemma StoppedLedger(p: Pass, r: Pass, now: uint32)
    requires p.at <= |p.s.outgoing| && r.s == p.s && r.d.commands == p.d.commands
    ensures PassLedger(p, r, [], now)
  {
    AllStay(p.s.outgoing[p.at..]);
  }

  lemma SkippedLedger(p: Pass, q: Pass, r: Pass, launched: seq<Command>, now: uint32)
    requires p.at < |p.s.outgoing| && q.s == p.s && q.d == p.d && q.at == p.at
    requires PassLedger(q.(at := q.at + 1), r, launched, now)
    ensures PassLedger(p, r, launched, now)
  {
    hide WentOut;
    assert p.s.outgoing[..p.at + 1][..p.at] == p.s.outgoing[..p.at];
    assert r.s.outgoing[..p.at + 1][..p.at] == r.s.outgoing[..p.at];
    assert r.s.outgoing[p.at] == r.s.outgoing[..p.at + 1][p.at] == p.s.outgoing[p.at];
    assert p.s.outgoing[p.at..][1..] == p.s.outgoing[p.at + 1..];
    assert r.s.outgoing[p.at..][1..] == r.s.outgoing[p.at + 1..];
  }

  lemma LaunchedLedger(p: Pass, q: Pass, r: Pass, launched: seq<Command>, now: uint32)
    requires p.at < |p.s.outgoing| && q.s == p.s && q.d == p.d && q.at == p.at && PassOk(q)
    requires PassLedger(Next(q, now), r, launched, now)
    ensures PassLedger(p, r, [p.s.outgoing[p.at]] + launched, now)
  {
    var c, t := p.s.outgoing[p.at], Next(q, now);
    LaunchedLists(p.s, p.at, now);
    assert t.d.commands == p.d.commands + [c];
    var all := [c] + launched;
    assert t.s.outgoing[p.at..] == p.s.outgoing[p.at + 1..] == p.s.outgoing[p.at..][1..];
    assert t.s.outgoing[..p.at] == p.s.outgoing[..p.at];
    assert all[1..] == launched;
    assert r.d.commands == p.d.commands + all;
    var n := |p.s.sent|;
    assert r.s.sent[..n] == r.s.sent[..n + 1][..n] == p.s.sent;
    assert r.s.sent[n] == r.s.sent[..n + 1][n] == t.s.sent[n];
    assert r.s.sent[n..] == [t.s.sent[n]] + r.s.sent[n + 1..];
    hide Launched, Loaded;
  }

  lemma LaunchedLists(s: Sender, i: nat, now: uint32)
    requires i < |s.outgoing| && ChannelsOk(s.channels)
    ensures var s1 := Launched(s, i, now);
      && s1.outgoing == s.outgoing[..i] + s.outgoing[i + 1..]
      && |s1.sent| == |s.sent| + 1 && s1.sent[..|s.sent|] == s.sent
      && WentOut([s.outgoing[i]], [s1.sent[|s.sent|]], now)
  {
  }
}
