/** How unreliable and unsequenced commands are numbered and queued, and what the throttle makes
    of their numbers. */
module UnreliableQueues {
  import opened SendPasses
  import opened Sending
  import opened Words

  /** The counters that unreliable commands are numbered by: a channel's two, and the peer's
      unsequenced group. */
  datatype Numbers = Numbers(reliable: uint16, unreliable: uint16, group: uint16)

  /** An unsequenced command counts up the group and has no numbers; the first fragment of
      another takes the next unreliable number, and its other fragments keep that. */
  function SetUp(n: Numbers, p: Piece, unsequenced: bool): (r: (Numbers, Piece))
    ensures unsequenced ==> NoNumbers(r.1)
    ensures !unsequenced && 0 < r.0.unreliable ==> !NoNumbers(r.1)
  {
    if unsequenced then (n.(group := (n.group + 1) % TWO_16), p.(reliable := 0, unreliable := 0))
    else (
      var unreliable := if p.offset == 0 then (n.unreliable + 1) % TWO_16 else n.unreliable;
      (n.(unreliable := unreliable), p.(reliable := n.reliable, unreliable := unreliable)))
  }

  predicate NoNumbers(p: Piece) { p.reliable == 0 && p.unreliable == 0 }

  class Peer {
    var outgoingReliableSequenceNumber: uint16
    var outgoingUnreliableSequenceNumber: uint16
    var outgoingUnsequencedGroup: uint16
    var outgoingUnreliableCommands: seq<Piece>

    ghost function Value(): Numbers
      reads this
    {
      Numbers(outgoingReliableSequenceNumber, outgoingUnreliableSequenceNumber, outgoingUnsequencedGroup)
    }

    /** Numbers a command that wants no acknowledgement, and queues it. */
    method SetupOutgoingCommand(command: Piece, unsequenced: bool)
      modifies this
      ensures var (n, p) := SetUp(old(Value()), command, unsequenced);
        Value() == n && outgoingUnreliableCommands == old(outgoingUnreliableCommands) + [p]
    {
      var p := command;
      if unsequenced {
        outgoingUnsequencedGroup := (outgoingUnsequencedGroup + 1) % TWO_16;
        p := p.(reliable := 0, unreliable := 0);
      } else {
        if p.offset == 0 {
          outgoingUnreliableSequenceNumber := (outgoingUnreliableSequenceNumber + 1) % TWO_16;
        }
        p := p.(reliable := outgoingReliableSequenceNumber, unreliable := outgoingUnreliableSequenceNumber);
      }
      outgoingUnreliableCommands := outgoingUnreliableCommands + [p];
    }
  }

  /** Any number of unsequenced packets, queued one after the other. */
  function SetUpAll(n: Numbers, pieces: seq<Piece>): (r: (Numbers, seq<Piece>))
    ensures |r.1| == |pieces|
    ensures forall k {:trigger r.1[k]} :: 0 <= k < |pieces| ==>
      r.1[k] == pieces[k].(reliable := 0, unreliable := 0)
    decreases |pieces|
  {
    if pieces == [] then (n, []) else (
      var (n1, before) := SetUpAll(n, pieces[..|pieces| - 1]);
      var (n2, p) := SetUp(n1, pieces[|pieces| - 1], true);
      (n2, before + [p]))
  }

  /** Each takes the next group, around the end of 16 bits, and no unreliable number. */
  lemma {:induction false} GroupsFollow(n: Numbers, pieces: seq<Piece>)
    requires pieces != []
    ensures var n1 := SetUpAll(n, pieces).0;
      n1.group == (n.group + |pieces|) % 0x1_0000 && n1.unreliable == n.unreliable && n1.reliable == n.reliable
    decreases |pieces|
  {
    var less := pieces[..|pieces| - 1];
    if less != [] { GroupsFollow(n, less); }
  }

  /** When the throttle stops an unsequenced packet, all that were queued right behind it are
      dropped with it, although they are packets of their own. */
  lemma ThrottledTogether(n: Numbers, pieces: seq<Piece>, rest: seq<Piece>, d: Datagram, counter: nat, throttle: nat,
                          mtu: nat)
    requires pieces != [] && (rest == [] || !NoNumbers(rest[0])) && d.packetSize <= mtu
    requires var p := SetUpAll(n, pieces).1[0]; !NoPieceSpace(mtu, d, p) && Throttled(p, counter, throttle)
    ensures var queue := SetUpAll(n, pieces).1;
      SentPieces(queue + rest, d, counter, throttle, mtu)
      == SentPieces(rest, d, Asked(queue[0], counter), throttle, mtu)
  {
    hide SetUpAll, NoPieceSpace, Asked;
    var queue := SetUpAll(n, pieces).1;
    assert (queue + rest)[1..] == queue[1..] + rest;
    AfterUnsequenced(queue[1..], rest);
  }

  lemma {:induction false} AfterUnsequenced(queue: seq<Piece>, rest: seq<Piece>)
    requires forall k {:trigger queue[k]} :: 0 <= k < |queue| ==> NoNumbers(queue[k])
    requires rest == [] || !NoNumbers(rest[0])
    ensures AfterGroup(queue + rest, 0, 0) == rest
    decreases |queue|
  {
    GroupFirst(queue + rest);
    hide AfterGroup;
    if queue == [] {
      assert queue + rest == rest;
    } else {
      assert (queue + rest)[0] == queue[0] && (queue + rest)[1..] == queue[1..] + rest;
      AfterUnsequenced(queue[1..], rest);
    }
  }

  lemma GroupFirst(list: seq<Piece>)
    ensures AfterGroup(list, 0, 0)
         == if list == [] || !NoNumbers(list[0]) then list else AfterGroup(list[1..], 0, 0)
  {
  }

  /** A sequenced packet of one piece goes alone, for the next has another number. */
  lemma ThrottledAlone(n: Numbers, p: Piece, q: Piece, rest: seq<Piece>, d: Datagram, counter: nat, throttle: nat,
                       mtu: nat)
    requires p.offset == q.offset == 0 && n.unreliable < 0xFFFE && d.packetSize <= mtu
    requires var p1 := SetUp(n, p, false).1; !NoPieceSpace(mtu, d, p1) && Throttled(p1, counter, throttle)
    ensures var (n1, p1) := SetUp(n, p, false);
      var q1 := SetUp(n1, q, false).1;
      SentPieces([p1, q1] + rest, d, counter, throttle, mtu)
      == SentPieces([q1] + rest, d, Asked(p1, counter), throttle, mtu)
  {
    hide NoPieceSpace, Asked;
    var (n1, p1) := SetUp(n, p, false);
    var q1 := SetUp(n1, q, false).1;
    assert ([p1, q1] + rest)[1..] == [q1] + rest;
  }
}
