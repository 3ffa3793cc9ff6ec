/** The loop that sends everything a host has to send: peers take turns, a datagram each, until
    none of them has anything left over for want of room. */
module SendLoop {
  import opened PeerStates
  import PeerStories
  import opened SendPasses
  import opened Sending
  import opened SendTurns
  import Sums
  import opened TurnLedger
  import opened Words

  ghost predicate LinesOk(lines: seq<Line>) {
    forall i {:trigger lines[i]} :: 0 <= i < |lines| && Takes(lines[i].state) ==> LineOk(lines[i])
  }

  /** The work of the peers that take turns. */
  ghost function Waiting(l: Line, now: uint32): nat { if Takes(l.state) then Pending(l, now) else 0 }

  ghost function AllWaiting(lines: seq<Line>, now: uint32): nat { Sums.Total(lines, l => Waiting(l, now)) }

  lemma OneTurn(lines: seq<Line>, i: nat, l: Line, now: uint32)
    requires i < |lines|
    ensures AllWaiting(lines[i := l], now) + Waiting(lines[i], now) == AllWaiting(lines, now) + Waiting(l, now)
  {
    Sums.TotalUpdate(lines, i, l, l => Waiting(l, now));
  }

  /** Every datagram on the wire was within the limits of the peer it went to. */
  ghost predicate WireOk(wire: seq<(nat, Datagram)>, lines: seq<Line>) {
    forall k {:trigger wire[k]} :: 0 <= k < |wire| ==>
      wire[k].0 < |lines| && DatagramOk(wire[k].1, lines[wire[k].0].sender.limits.mtu) && wire[k].1.commandCount > 0
  }

  ghost predicate Served(l: Line) { Takes(l.state) ==> SentOut(l) || JustDisconnecting(l) }

  ghost predicate SameLimits(lines: seq<Line>, lines1: seq<Line>) {
    && |lines1| == |lines|
    && forall i {:trigger lines1[i]} :: 0 <= i < |lines| ==> lines1[i].sender.limits == lines[i].sender.limits
  }

  // ----- what becomes of its state -----

  /** In terms of the peer's state, giving it up is to notify its disconnect: it is reported at once
      exactly then, and otherwise waits as a zombie or is reset.  Having sent everything is to ask for
      the disconnect, and a zombie is what acknowledging one makes of it. */
  lemma StatesAgree(l: Line, h: PeerStates.HostState, i: nat, event: bool)
    requires i < |h.peers| && h.peers[i].state == l.state
    ensures |NotifyDisconnect(h, i, event).peers| == |h.peers| == |PeerDisconnect(h, i).peers|
    ensures GivesUp(l, event).state == NotifyDisconnect(h, i, event).peers[i].state
    ensures event && ReportsLoss(l.state) <==>
      NotifyDisconnect(h, i, event).events == h.events + [Event(i, h.peers[i].epoch, Kind.Disconnect, 0)]
    ensures l.state.DisconnectLater? ==> Disconnects(l).state == PeerDisconnect(h, i).peers[i].state
  {
    PeerStories.NotifyDisconnectAfter(h, i, event);
    PeerStories.PeerDisconnectAfter(h, i);
    hide NotifyDisconnect, PeerDisconnect;
  }

  // ----- what was sent to each peer -----

  /** The datagrams to one peer. */
  function To(wire: seq<(nat, Datagram)>, i: nat): seq<Datagram> {
    if wire == [] then [] else
      To(wire[..|wire| - 1], i) + if wire[|wire| - 1].0 == i then [wire[|wire| - 1].1] else []
  }

  /** A peer is given up by a check of its timeouts: it waits as a zombie or is reset. */
  ghost predicate Lost(l: Line, l1: Line, now: uint32, checks: bool) {
    && checks && Due(l.sender, now) && TimedOut(l.sender, 0, 0, now).1
    && (|| l1.state.Zombie?
        || (l1.state.Disconnected? && l1.acknowledgements == [] && l1.unreliable == []
            && l1.sender.outgoing == l1.sender.sent == []))
  }

  /** The datagrams to a peer are accounted for by its turns, up to the one that gave it up if there
      was one. */
  ghost predicate Followed(l: Line, datagrams: seq<Datagram>, l1: Line, now: uint32, checks: bool) {
    || Accounted(l, datagrams, l1, now, checks)
    || exists m {:trigger Accounted(l, datagrams, m, now, checks)} ::
         Accounted(l, datagrams, m, now, checks) && Lost(m, l1, now, checks)
  }

  ghost predicate AllFollowed(start: seq<Line>, wire: seq<(nat, Datagram)>, lines: seq<Line>, now: uint32,
                              checks: bool)
  {
    && |lines| == |start|
    && forall i {:trigger lines[i]} :: 0 <= i < |start| ==>
         && Followed(start[i], To(wire, i), lines[i], now, checks)
         && (Takes(lines[i].state) ==> Accounted(start[i], To(wire, i), lines[i], now, checks))
  }

  lemma StartFollowed(start: seq<Line>, now: uint32, checks: bool)
    ensures AllFollowed(start, [], start, now, checks)
  {
    hide Accounted;
    forall i {:trigger start[i]} | 0 <= i < |start| ensures Accounted(start[i], To([], i), start[i], now, checks) {
      NoTurns(start[i], now, checks);
    }
  }

  /** What goes to one peer is not among the datagrams to another. */
  lemma ToMore(wire: seq<(nat, Datagram)>, i: nat, d: Datagram, k: nat)
    ensures To(wire + [(i, d)], k) == if k == i then To(wire, k) + [d] else To(wire, k)
  {
    assert (wire + [(i, d)])[..|wire|] == wire;
  }

  lemma LostNow(l: Line, now: uint32, checks: bool, event: bool)
    requires LineOk(l) && Turn(l, now, checks, event).gone
    ensures Lost(l, Turn(l, now, checks, event).line, now, checks)
  {
    hide SentAcks, TimedOut, Due, ReliableTurn, SentPieces, AfterAcks, LineOk, TurnWent, ReportsLoss;
  }

  /** One peer's turn, and the datagram it sends if there is one. */
  lemma TurnFollowed(start: seq<Line>, wire: seq<(nat, Datagram)>, lines: seq<Line>, i: nat, now: uint32, checks: bool,
                     event: bool)
    requires AllFollowed(start, wire, lines, now, checks)
    requires i < |lines| && Takes(lines[i].state) && LineOk(lines[i])
    ensures var r := Turn(lines[i], now, checks, event);
      AllFollowed(start, if !r.gone && r.datagram.commandCount > 0 then wire + [(i, r.datagram)] else wire,
                  lines[i := r.line], now, checks)
  {
    hide Accounted, Turn, LineOk, Lost, Takes, TurnLedger.TurnLedger, To, TurnOk;
    var r := Turn(lines[i], now, checks, event);
    var _ := lines[i];
    var wire1 := if !r.gone && r.datagram.commandCount > 0 then wire + [(i, r.datagram)] else wire;
    TurnWorks(lines[i], now, checks, event);
    TurnFacts(lines[i], r, now);
    forall k: nat
      ensures k != i ==> To(wire1, k) == To(wire, k)
      ensures k == i ==>
        To(wire1, k) == if !r.gone && r.datagram.commands != [] then To(wire, k) + [r.datagram] else To(wire, k)
    {
      ToMore(wire, i, r.datagram, k);
    }
    if r.gone {
      LostNow(lines[i], now, checks, event);
    } else {
      var record := TurnAccounted(lines[i], now, checks, event);
      OneTurnMore(start[i], To(wire, i), lines[i], record, now, checks);
      assert To(wire, i) + [] == To(wire, i);
    }
    forall k {:trigger lines[i := r.line][k]} | 0 <= k < |start|
      ensures Followed(start[k], To(wire1, k), lines[i := r.line][k], now, checks)
      ensures Takes(lines[i := r.line][k].state) ==>
        Accounted(start[k], To(wire1, k), lines[i := r.line][k], now, checks)
    {
      var _ := lines[k];
    }
  }

  lemma TurnFacts(l: Line, r: TurnResult, now: uint32)
    requires TurnOk(l, r, now)
    ensures r.datagram.commands != [] <==> r.datagram.commandCount > 0
    ensures r.gone ==> !Takes(r.line.state)
  {
    hide Pending, SentOut, LineOk;
  }

  class Host {
    const peers: array<Line>
    var serviceTime: uint32
    var continueSending: bool
    /** Every datagram that was sent, with the peer it went to. */
    ghost var wire: seq<(nat, Datagram)>

    constructor (n: nat, line: Line)
      ensures fresh(peers) && peers[..] == seq(n, _ => line) && wire == []
    {
      peers := new Line[n](_ => line);
      serviceTime, continueSending, wire := 0, false, [];
    }

    /** Loads acknowledgements until none is left or there is no room. */
    method SendAcknowledgements(acks: seq<Ack>, d: Datagram, mtu: nat) returns (rest: seq<Ack>, d1: Datagram)
      requires d.packetSize <= mtu
      ensures (rest, d1) == SentAcks(acks, d, mtu)
    {
      rest, d1 := acks, d;
      while rest != []
        invariant d1.packetSize <= mtu && SentAcks(rest, d1, mtu) == SentAcks(acks, d, mtu)
        decreases |rest|
      {
        if d1.commandCount >= MAXIMUM_COMMANDS || d1.bufferCount >= MAXIMUM_BUFFERS
           || mtu - d1.packetSize < ACKNOWLEDGE_SIZE {
          d1 := d1.(full := true);
          return;
        }
        d1 := Loaded(d1, AckCommand(rest[0]));
        rest := rest[1..];
      }
    }

    /** Drops the rest of a packet's fragments. */
    method DropGroup(list: seq<Piece>, reliable: uint16, unreliable: uint16) returns (rest: seq<Piece>)
      ensures rest == AfterGroup(list, reliable, unreliable)
    {
      rest := list;
      while rest != [] && rest[0].reliable == reliable && rest[0].unreliable == unreliable
        invariant AfterGroup(rest, reliable, unreliable) == AfterGroup(list, reliable, unreliable)
        decreases |rest|
      {
        rest := rest[1..];
      }
    }

    /** Loads unreliable commands; a packet the throttle stops is dropped with all its fragments. */
    method SendUnreliable(list: seq<Piece>, d: Datagram, counter: nat, throttle: nat, mtu: nat)
      returns (rest: seq<Piece>, d1: Datagram, counter1: nat)
      requires d.packetSize <= mtu
      ensures (rest, d1, counter1) == SentPieces(list, d, counter, throttle, mtu)
    {
      hide AfterGroup, Loaded, NoPieceSpace, Tail, PieceCommand;
      rest, d1, counter1 := list, d, counter;
      while rest != []
        invariant d1.packetSize <= mtu
        invariant SentPieces(rest, d1, counter1, throttle, mtu) == SentPieces(list, d, counter, throttle, mtu)
        decreases |rest|
      {
        var p := rest[0];
        PieceTurn(rest, d1, mtu);
        if NoPieceSpace(mtu, d1, p) {
          d1 := d1.(full := true);
          return;
        }
        if p.packet.Data? && p.offset == 0 {
          counter1 := (counter1 + THROTTLE_COUNTER) % THROTTLE_SCALE;
          if counter1 > throttle {
            rest := DropGroup(rest[1..], p.reliable, p.unreliable);
            continue;
          }
        }
        d1 := Loaded(d1, PieceCommand(p));
        rest := rest[1..];
      }
    }

    /** Reliable commands, and a ping when one is due. */
    method SendReliable(l: Line, s: Sender, d: Datagram) returns (p: Pass)
      requires CanGoOn(PassFrom(s, d)) && |s.channels| <= 0xFF
      ensures p == ReliableTurn(l, s, d, serviceTime)
    {
      hide Passed, CanGoOn, PingDue, Late, NoOwn;
      PassWent(PassFrom(s, d), serviceTime);
      p := Passed(PassFrom(s, d), serviceTime);
      if PingDue(l, p, serviceTime) {
        PingRoom(l, p, serviceTime);
        PingedGoesOn(p, l.state, serviceTime);
        p := Passed(PassFrom(Pinged(p.s, l.state), p.d), serviceTime);
      }
    }

    /** One peer's turn: acknowledgements, timeouts, reliable commands, a ping when it is due,
        and unreliable commands. */
    method TakeTurn(i: nat, checks: bool, event: bool) returns (d: Datagram, gone: bool, reported: bool)
      requires i < peers.Length && LineOk(peers[i])
      modifies peers, this`continueSending
      ensures var r := Turn(old(peers[i]), serviceTime, checks, event);
        && peers[..] == old(peers[..])[i := r.line] && TurnResult(peers[i], d, gone, reported) == r
        && continueSending == (old(continueSending) || d.full)
    {
      hide Passed, TimedOut, SentAcks, SentPieces, GivesUp, Disconnects, LineOk, DatagramOk, CanGoOn, AfterAcks,
        Finished, Due, ReliableTurn, Empty, ReportsLoss, TurnWent;
      ghost var start := peers[..];
      var l := peers[i];
      var mtu := l.sender.limits.mtu;
      AcksGone(l);
      var acks;
      acks, d := SendAcknowledgements(l.acknowledgements, Empty(), mtu);
      l := l.(acknowledgements := acks,
              state := AfterAcks(l.state, l.acknowledgements[..|l.acknowledgements| - |acks|]));
      var s := l.sender;
      gone, reported := false, false;
      if checks && Due(s, serviceTime) {
        var r := TimedOut(s, 0, 0, serviceTime);
        s, gone := r.0, r.1;
      }
      TurnStarts(peers[i], serviceTime, checks);
      if gone {
        reported := event && ReportsLoss(l.state);
        l := GivesUp(l.(sender := s), event);
      } else {
        ghost var l0 := peers[i].(state := l.state);
        ReliableWent(l0, s, d, serviceTime);
        var p := SendReliable(l, s, d);
        SameTurn(l0, l, s, d, serviceTime);
        TurnRoomLeft(l0, s, d, p, serviceTime);
        var pieces, counter;
        pieces, d, counter := SendUnreliable(l.unreliable, p.d, l.counter, p.s.limits.packetThrottle, mtu);
        var had := l.unreliable != [];
        l := l.(sender := p.s, unreliable := pieces, counter := counter);
        if had && Finished(l) {
          l := Disconnects(l);
        }
      }
      peers[i] := l;
      continueSending := continueSending || d.full;
      assert peers[..] == start[i := l];
    }

    /** Peers take turns, a datagram each, until none is stopped for want of room.  The result
        says that a peer was given up and that this is reported at once. */
    method SendOutgoingCommands(event: bool, checks: bool) returns (reported: bool)
      requires LinesOk(peers[..])
      modifies peers, this`continueSending, this`wire
      ensures LinesOk(peers[..]) && SameLimits(old(peers[..]), peers[..])
      ensures AllWaiting(peers[..], serviceTime) <= AllWaiting(old(peers[..]), serviceTime)
      ensures old(wire) <= wire && WireOk(wire[|old(wire)|..], peers[..])
      ensures !reported ==> forall i {:trigger peers[i]} :: 0 <= i < peers.Length ==> Served(peers[i])
      ensures reported ==> event && checks
      ensures AllFollowed(old(peers[..]), wire[|old(wire)|..], peers[..], serviceTime, checks)
    {
      hide LineOk, Turn, TurnOk, Waiting, AllWaiting, DatagramOk, Served, Takes, AllFollowed;
      ghost var start := peers[..];
      StartFollowed(start, serviceTime, checks);
      assert wire[|old(wire)|..] == [];
      continueSending := true;
      while continueSending
        invariant LinesOk(peers[..]) && SameLimits(start, peers[..])
        invariant AllWaiting(peers[..], serviceTime) <= AllWaiting(start, serviceTime)
        invariant old(wire) <= wire && WireOk(wire[|old(wire)|..], peers[..])
        invariant AllFollowed(start, wire[|old(wire)|..], peers[..], serviceTime, checks)
        invariant !continueSending ==> forall i {:trigger peers[i]} :: 0 <= i < peers.Length ==> Served(peers[i])
        decreases AllWaiting(peers[..], serviceTime), continueSending
      {
        ghost var before := AllWaiting(peers[..], serviceTime);
        continueSending := false;
        var i := 0;
        while i < peers.Length
          invariant i <= peers.Length && LinesOk(peers[..]) && SameLimits(start, peers[..])
          invariant AllWaiting(peers[..], serviceTime) <= before
          invariant continueSending ==> AllWaiting(peers[..], serviceTime) < before
          invariant old(wire) <= wire && WireOk(wire[|old(wire)|..], peers[..])
          invariant AllFollowed(start, wire[|old(wire)|..], peers[..], serviceTime, checks)
          invariant !continueSending ==> forall k {:trigger peers[k]} :: 0 <= k < i ==> Served(peers[k])
        {
          if !Takes(peers[i].state) {
            IdleServed(peers[i]);
            i := i + 1;
            continue;
          }
          ghost var lines, l := peers[..], peers[i];
          assert lines[i] == l;
          TurnWorks(l, serviceTime, checks, event);
          TurnFollowed(start, wire[|old(wire)|..], lines, i, serviceTime, checks, event);
          var d, gone, lost := TakeTurn(i, checks, event);
          TurnTaken(lines, i, Turn(l, serviceTime, checks, event), serviceTime, wire[|old(wire)|..]);
          assert peers[i] == peers[..][i];
          if gone {
            if lost {
              return true;
            }
          } else if d.commandCount > 0 {
            ghost var more := wire[|old(wire)|..] + [(i, d)];
            wire := wire + [(i, d)];
            assert wire[|old(wire)|..] == more;
          }
          i := i + 1;
        }
      }
      return false;
    }
  }

  lemma SameTurn(l0: Line, l: Line, s: Sender, d: Datagram, now: uint32)
    requires CanGoOn(PassFrom(s, d)) && |s.channels| <= 0xFF && l == l0.(acknowledgements := l.acknowledgements)
    ensures ReliableTurn(l, s, d, now) == ReliableTurn(l0, s, d, now)
  {
    hide Passed, CanGoOn;
    PassWent(PassFrom(s, d), now);
  }

  lemma PingRoom(l: Line, p: Pass, now: uint32)
    requires PingDue(l, p, now)
    ensures p.d.packetSize + PING_SIZE <= p.s.limits.mtu
  {
  }

  lemma TurnRoomLeft(l: Line, s: Sender, d: Datagram, p: Pass, now: uint32)
    requires TurnWent(l.state, s, d, p, now)
    ensures p.d.packetSize <= p.s.limits.mtu == s.limits.mtu
  {
  }

  lemma PieceTurn(list: seq<Piece>, d: Datagram, mtu: nat)
    requires list != [] && d.packetSize <= mtu
    ensures |AfterGroup(list[1..], list[0].reliable, list[0].unreliable)| < |list|
    ensures !NoPieceSpace(mtu, d, list[0]) ==> Loaded(d, PieceCommand(list[0])).packetSize <= mtu
  {
  }

  lemma IdleServed(l: Line)
    requires !Takes(l.state)
    ensures Served(l)
  {
  }

  /** One peer's turn among all of them. */
  lemma TurnTaken(lines: seq<Line>, i: nat, r: TurnResult, now: uint32, wire: seq<(nat, Datagram)>)
    requires i < |lines| && LinesOk(lines) && Takes(lines[i].state) && TurnOk(lines[i], r, now) && WireOk(wire, lines)
    ensures var lines1 := lines[i := r.line];
      && LinesOk(lines1) && SameLimits(lines, lines1) && WireOk(wire, lines1)
      && AllWaiting(lines1, now) <= AllWaiting(lines, now)
      && (r.datagram.full ==> AllWaiting(lines1, now) < AllWaiting(lines, now))
      && (!r.datagram.full || r.gone ==> Served(r.line))
      && (!r.gone && r.datagram.commandCount > 0 ==> WireOk(wire + [(i, r.datagram)], lines1))
  {
    hide LineOk, Pending, DatagramOk, SentOut, AllWaiting;
    OneTurn(lines, i, r.line, now);
  }
}
