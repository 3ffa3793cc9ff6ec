/** The receiving half of a peer: reliable packets wait in a sorted queue until they are complete
    and those before them have come, and are then dispatched. */
module Receiving {
  import opened Fragmentation
  import opened Reassembly
  import opened Words
  import opened Windows

  /** A queued command: a whole packet, or one that is put together from its fragments. */
  datatype Incoming =
    | Plain(sequence: uint16, data: seq<uint8>)
    | Fragmented(sequence: uint16, assembly: Assembly)

  /** No fragment is missing. */
  predicate Complete(e: Incoming) { e.Plain? || e.assembly.fragmentsRemaining <= 0 }

  /** How many sequence numbers the packet takes. */
  function Width(e: Incoming): nat { if e.Plain? || e.assembly.bits == [] then 1 else |e.assembly.bits| }

  function PacketOf(e: Incoming): seq<uint8> { if e.Plain? then e.data else e.assembly.data }

  datatype Inlet = Inlet(incomingReliableSequenceNumber: uint16, incomingReliableCommands: seq<Incoming>)

  datatype Acknowledgement = Acknowledgement(channelID: nat, sequence: uint16)

  /** How far a sequence number lies ahead of the receiver's, modulo 2^16. */
  function Ahead(sequence: uint16, incoming: uint16): nat { (sequence - incoming) % 0x1_0000 }

  lemma AheadIs(sequence: uint16, incoming: uint16)
    ensures Ahead(sequence, incoming) == if sequence >= incoming then sequence - incoming
      else sequence + 0x1_0000 - incoming
  {
  }

  /** A queue in order: strictly by distance, none at distance 0. */
  ghost predicate Sorted(queue: seq<Incoming>, incoming: uint16) {
    && (forall i {:trigger queue[i]} :: 0 <= i < |queue| ==> 0 < Ahead(queue[i].sequence, incoming))
    && (forall i, j {:trigger queue[i], queue[j]} :: 0 <= i < j < |queue| ==>
          Ahead(queue[i].sequence, incoming) < Ahead(queue[j].sequence, incoming))
  }

  /** Where a sequence number belongs, looked for from the back; negative for a duplicate. */
  function Place(queue: seq<Incoming>, incoming: uint16, sequence: uint16): (at: int)
    ensures at <= |queue|
    decreases |queue|
  {
    if queue == [] then 0 else (
      var last := queue[|queue| - 1].sequence;
      if Ahead(last, incoming) > Ahead(sequence, incoming) then Place(queue[..|queue| - 1], incoming, sequence)
      else if last == sequence then -1
      else |queue|)
  }

  /** The packet with a sequence number, looked for from the back; negative when there is none. */
  function Find(queue: seq<Incoming>, incoming: uint16, sequence: uint16): (at: int)
    ensures at < |queue| && (0 <= at ==> queue[at].sequence == sequence)
    ensures 0 <= at <==> Place(queue, incoming, sequence) < 0
    decreases |queue|
  {
    if queue == [] then -1 else (
      var last := queue[|queue| - 1].sequence;
      if Ahead(last, incoming) > Ahead(sequence, incoming) then Find(queue[..|queue| - 1], incoming, sequence)
      else if last == sequence then |queue| - 1
      else -1)
  }

  /** The receiver's number after a packet. */
  function Behind(e: Incoming): uint16 { (e.sequence + Width(e) - 1) % 0x1_0000 }

  predicate Due(queue: seq<Incoming>, incoming: uint16) {
    queue != [] && Complete(queue[0]) && queue[0].sequence == (incoming + 1) % 0x1_0000
  }

  /** The length of the run that can be dispatched. */
  function Run(queue: seq<Incoming>, incoming: uint16): (k: nat)
    ensures k <= |queue|
    decreases |queue|
  {
    if Due(queue, incoming) then 1 + Run(queue[1..], Behind(queue[0])) else 0
  }

  function Packets(queue: seq<Incoming>): (d: seq<seq<uint8>>)
    ensures |d| == |queue|
  {
    seq(|queue|, i requires 0 <= i < |queue| => PacketOf(queue[i]))
  }

  /** The run goes to the application. */
  function Dispatched(c: Inlet): Inlet {
    var k := Run(c.incomingReliableCommands, c.incomingReliableSequenceNumber);
    if k == 0 then c
    else Inlet(Behind(c.incomingReliableCommands[k - 1]), c.incomingReliableCommands[k..])
  }

  function DispatchedData(c: Inlet): seq<seq<uint8>> {
    Packets(c.incomingReliableCommands[..Run(c.incomingReliableCommands, c.incomingReliableSequenceNumber)])
  }

  /** Nothing is left that could be dispatched. */
  predicate Quiet(c: Inlet) { !Due(c.incomingReliableCommands, c.incomingReliableSequenceNumber) }

  lemma {:induction false} DispatchedQuiet(c: Inlet)
    ensures Quiet(Dispatched(c)) && (Quiet(c) ==> Dispatched(c) == c && DispatchedData(c) == [])
    decreases |c.incomingReliableCommands|
  {
    var queue := c.incomingReliableCommands;
    if !Quiet(c) {
      var c1 := Inlet(Behind(queue[0]), queue[1..]);
      DispatchedQuiet(c1);
      RunFirst(c, c1);
    }
  }

  /** Dispatching one packet and then the others. */
  lemma RunFirst(c: Inlet, c1: Inlet)
    requires !Quiet(c)
    requires c1 == Inlet(Behind(c.incomingReliableCommands[0]), c.incomingReliableCommands[1..])
    ensures Dispatched(c) == Dispatched(c1)
    ensures DispatchedData(c) == [PacketOf(c.incomingReliableCommands[0])] + DispatchedData(c1)
  {
    var queue := c.incomingReliableCommands;
    var k1 := Run(c1.incomingReliableCommands, c1.incomingReliableSequenceNumber);
    assert queue[1..][k1..] == queue[k1 + 1..];
    if k1 > 0 {
      assert queue[1..][k1 - 1] == queue[k1];
    }
    assert queue[..k1 + 1][1..] == queue[1..][..k1];
    PacketsFirst(queue[..k1 + 1]);
  }

  lemma PacketsFirst(queue: seq<Incoming>)
    requires queue != []
    ensures Packets(queue) == [PacketOf(queue[0])] + Packets(queue[1..])
  {
  }

  /** What an arrival leads to: the command is dropped (it is not new, or too far ahead), is
      refused (for lack of space, or because it is malformed), or is stored; whatever is then
      ready is dispatched. */
  datatype Arrival = Dropped | Refused | Stored(channel: Inlet)

  function Inserted(c: Inlet, at: nat, e: Incoming): Inlet
    requires at <= |c.incomingReliableCommands|
  {
    var queue := c.incomingReliableCommands;
    c.(incomingReliableCommands := queue[..at] + [e] + queue[at..])
  }

  /** A packet arrives, or what its first fragment makes of it. */
  function Arrives(c: Inlet, e: Incoming, full: bool): Arrival {
    var incoming, queue := c.incomingReliableSequenceNumber, c.incomingReliableCommands;
    if !Accepts(e.sequence, incoming) || e.sequence == incoming then Dropped else (
      var at := Place(queue, incoming, e.sequence);
      if at < 0 then Dropped
      else if full then Refused
      else Stored(Inserted(c, at, e)))
  }

  predicate Matching(e: Incoming, f: Fragment) { e.Fragmented? && !Foreign(e.assembly, f) }

  /** The packet at `at` with a fragment more. */
  function WithFragment(c: Inlet, at: nat, f: Fragment): Inlet
    requires at < |c.incomingReliableCommands| && c.incomingReliableCommands[at].Fragmented?
    requires var a := c.incomingReliableCommands[at].assembly;
      f.fragmentNumber < |a.bits| && f.fragmentOffset + |f.data| <= |a.data|
  {
    var queue := c.incomingReliableCommands;
    c.(incomingReliableCommands := queue[at := queue[at].(assembly := Added(queue[at].assembly, f))])
  }

  /** What a fragment's first arrival makes of its packet; `space` is what its memory held before. */
  function Begun(f: Fragment, space: seq<uint8>): Incoming {
    Fragmented(f.startSequenceNumber, Blank(f.fragmentCount, space))
  }

  /** A fragment arrives. */
  function FragmentArrives(c: Inlet, f: Fragment, maximumPacketSize: nat, full: bool, space: seq<uint8>): Arrival
    requires |space| == f.totalLength
  {
    var incoming, queue := c.incomingReliableSequenceNumber, c.incomingReliableCommands;
    if !Accepts(f.startSequenceNumber, incoming) then Dropped
    else if Malformed(f, maximumPacketSize) then Refused
    else (
      var at := Find(queue, incoming, f.startSequenceNumber);
      if at >= 0 then
        if Matching(queue[at], f) then Stored(WithFragment(c, at, f)) else Refused
      else
        match Arrives(c, Begun(f, space), full)
        case Stored(c1) => Stored(WithFragment(c1, Place(queue, incoming, f.startSequenceNumber), f))
        case _ => Refused)
  }

  // ----- the peer -----

  class Peer {
    var channels: seq<Inlet>
    /** What the application has yet to take, by channel. */
    var dispatchedCommands: seq<seq<seq<uint8>>>
    var acknowledgements: seq<Acknowledgement>
    var totalWaitingData: nat
    var maximumWaitingData: nat

    /** After every call nothing is left that could be dispatched. */
    ghost predicate Valid()
      reads this
    {
      && |channels| == |dispatchedCommands|
      && forall k {:trigger channels[k]} :: 0 <= k < |channels| ==> Quiet(channels[k])
    }

    /** The back-to-front walk over the queue of a channel. */
    method FindPlace(queue: seq<Incoming>, incoming: uint16, sequence: uint16) returns (at: int)
      ensures at == Place(queue, incoming, sequence)
    {
      hide Ahead;
      at := |queue|;
      assert queue[..|queue|] == queue;
      while at > 0
        invariant 0 <= at <= |queue|
        invariant Place(queue[..at], incoming, sequence) == Place(queue, incoming, sequence)
      {
        var other := queue[at - 1].sequence;
        AheadIs(other, incoming);
        AheadIs(sequence, incoming);
        assert queue[..at][..at - 1] == queue[..at - 1];
        if sequence >= incoming {
          if other < incoming {
            at := at - 1;
            continue;
          }
        } else if other >= incoming {
          return;
        }
        if other <= sequence {
          if other < sequence {
            return;
          }
          return -1;
        }
        at := at - 1;
      }
    }

    /** The same walk, for the packet that a fragment belongs to. */
    method FindCommand(queue: seq<Incoming>, incoming: uint16, sequence: uint16) returns (at: int)
      ensures at == Find(queue, incoming, sequence)
    {
      hide Ahead, Place;
      at := |queue| - 1;
      assert queue[..|queue|] == queue;
      while at >= 0
        invariant -1 <= at < |queue|
        invariant Find(queue[..at + 1], incoming, sequence) == Find(queue, incoming, sequence)
        decreases at
      {
        var other := queue[at].sequence;
        AheadIs(other, incoming);
        AheadIs(sequence, incoming);
        assert queue[..at + 1][..at] == queue[..at];
        if sequence >= incoming {
          if other < incoming {
            at := at - 1;
            continue;
          }
        } else if other >= incoming {
          return -1;
        }
        if other <= sequence {
          if other < sequence {
            return -1;
          }
          return;
        }
        at := at - 1;
      }
    }

    /** Stores a reliable packet, or one whose fragments are still to come, and dispatches what has
        become ready; also returns where it was put.  A packet of which nothing has come cannot be
        dropped in silence: not storing it is then an error. */
    method QueueIncomingCommand(channelID: nat, command: Incoming) returns (ok: bool, at: int)
      requires Valid() && channelID < |channels|
      modifies this`channels, this`dispatchedCommands, this`totalWaitingData
      ensures Valid() && |channels| == old(|channels|)
      ensures var c, full := old(channels)[channelID], old(totalWaitingData) >= maximumWaitingData;
        match Arrives(c, command, full)
        case Dropped =>
          ok == command.Plain? && channels == old(channels) && dispatchedCommands == old(dispatchedCommands)
          && totalWaitingData == old(totalWaitingData)
        case Refused =>
          !ok && channels == old(channels) && dispatchedCommands == old(dispatchedCommands)
          && totalWaitingData == old(totalWaitingData)
        case Stored(c1) =>
          ok && at == Place(c.incomingReliableCommands, c.incomingReliableSequenceNumber, command.sequence)
          && channels == old(channels)[channelID := Dispatched(c1)]
          && dispatchedCommands
             == old(dispatchedCommands)[channelID := old(dispatchedCommands)[channelID] + DispatchedData(c1)]
          && totalWaitingData == old(totalWaitingData) + |PacketOf(command)|
    {
      hide Place, Run, Dispatched, DispatchedData, Due;
      var channel := channels[channelID];
      var incoming, queue := channel.incomingReliableSequenceNumber, channel.incomingReliableCommands;
      var sequence := command.sequence;
      at := -1;
      var reliableWindow, currentWindow := sequence / WINDOW_SIZE, incoming / WINDOW_SIZE;
      if sequence < incoming {
        reliableWindow := reliableWindow + WINDOWS;
      }
      if reliableWindow < currentWindow || reliableWindow >= currentWindow + FREE_WINDOWS - 1 {
        return command.Plain?, at;
      }
      if sequence == incoming {
        return command.Plain?, at;
      }
      at := FindPlace(queue, incoming, sequence);
      if at < 0 {
        return command.Plain?, at;
      }
      if totalWaitingData >= maximumWaitingData {
        return false, at;
      }
      totalWaitingData := totalWaitingData + |PacketOf(command)|;
      channel := channel.(incomingReliableCommands := queue[..at] + [command] + queue[at..]);
      channels := channels[channelID := channel];
      DispatchedQuiet(channel);
      DispatchIncomingReliableCommands(channelID);
      return true, at;
    }

    /** Dispatches the packets that follow each other from the channel's last one on. */
    method DispatchIncomingReliableCommands(channelID: nat)
      requires channelID < |channels| == |dispatchedCommands|
      modifies this`channels, this`dispatchedCommands
      ensures channels == old(channels)[channelID := Dispatched(old(channels)[channelID])]
      ensures dispatchedCommands
        == old(dispatchedCommands)[channelID :=
             old(dispatchedCommands)[channelID] + DispatchedData(old(channels)[channelID])]
    {
      hide Complete, Packets, Behind, Run;
      var queue := channels[channelID].incomingReliableCommands;
      var incoming: uint16 := channels[channelID].incomingReliableSequenceNumber;
      ghost var first := incoming;
      var k := 0;
      assert queue[0..] == queue;
      while k < |queue|
        invariant k <= |queue| && channels == old(channels) && dispatchedCommands == old(dispatchedCommands)
        invariant Run(queue, first) == k + Run(queue[k..], incoming)
        invariant incoming == if k == 0 then first else Behind(queue[k - 1])
      {
        RunStep(queue, k, incoming);
        if !Complete(queue[k]) || queue[k].sequence != (incoming + 1) % 0x1_0000 {
          break;
        }
        incoming := queue[k].sequence;
        if queue[k].Fragmented? && queue[k].assembly.bits != [] {
          incoming := (incoming + |queue[k].assembly.bits| - 1) % 0x1_0000;
        }
        BehindIs(queue[k], incoming);
        k := k + 1;
      }
      RunStops(queue, k, incoming);
      if k == 0 {
        assert Packets([]) == [];
        assert old(dispatchedCommands)[channelID] + [] == old(dispatchedCommands)[channelID];
        return;
      }
      channels := channels[channelID := Inlet(incoming, queue[k..])];
      dispatchedCommands := dispatchedCommands[channelID := dispatchedCommands[channelID] + Packets(queue[..k])];
    }

    /** Takes a fragment in: finds its packet, or begins it, and dispatches when it completes it;
        false when the fragment is malformed, belongs to another packet, or finds no space. */
    method HandleSendFragment(channelID: nat, f: Fragment, maximumPacketSize: nat, space: seq<uint8>)
      returns (ok: bool)
      requires Valid() && channelID < |channels| && |space| == f.totalLength
      modifies this`channels, this`dispatchedCommands, this`totalWaitingData
      ensures Valid() && |channels| == old(|channels|)
      ensures var c, full := old(channels)[channelID], old(totalWaitingData) >= maximumWaitingData;
        match FragmentArrives(c, f, maximumPacketSize, full, space)
        case Dropped =>
          ok && channels == old(channels) && dispatchedCommands == old(dispatchedCommands)
          && totalWaitingData == old(totalWaitingData)
        case Refused =>
          !ok && channels == old(channels) && dispatchedCommands == old(dispatchedCommands)
          && totalWaitingData == old(totalWaitingData)
        case Stored(c1) =>
          ok && channels == old(channels)[channelID := Dispatched(c1)]
          && dispatchedCommands
             == old(dispatchedCommands)[channelID := old(dispatchedCommands)[channelID] + DispatchedData(c1)]
          && totalWaitingData == old(totalWaitingData) + (
               if Find(c.incomingReliableCommands, c.incomingReliableSequenceNumber, f.startSequenceNumber) >= 0 then 0
               else f.totalLength)
    {
      hide Place, Find, Run, Dispatched, DispatchedData, Due, Added, Quiet;
      var start := f.startSequenceNumber;
      var channel := channels[channelID];
      var incoming, queue := channel.incomingReliableSequenceNumber, channel.incomingReliableCommands;
      var startWindow, currentWindow := start / WINDOW_SIZE, incoming / WINDOW_SIZE;
      if start < incoming {
        startWindow := startWindow + WINDOWS;
      }
      if startWindow < currentWindow || startWindow >= currentWindow + FREE_WINDOWS - 1 {
        return true;
      }
      if Malformed(f, maximumPacketSize) {
        return false;
      }
      var at := FindCommand(queue, incoming, start);
      if at >= 0 {
        if queue[at].Plain? || Foreign(queue[at].assembly, f) {
          return false;
        }
      } else {
        ok, at := QueueIncomingCommand(channelID, Begun(f, space));
        if !ok {
          return;
        }
        BlankQuiet(channel, at, f, space);
        assert old(dispatchedCommands)[channelID] + [] == old(dispatchedCommands)[channelID];
      }
      ghost var c := channels[channelID];
      JoinFragment(channelID, at, f);
      assert channels == old(channels)[channelID := Dispatched(WithFragment(c, at, f))];
      return true;
    }

    /** Enters a fragment into the packet at `at`, and dispatches when none is missing any more. */
    method JoinFragment(channelID: nat, at: nat, f: Fragment)
      requires Valid() && channelID < |channels| && at < |channels[channelID].incomingReliableCommands|
      requires channels[channelID].incomingReliableCommands[at].Fragmented?
      requires var a := channels[channelID].incomingReliableCommands[at].assembly;
        f.fragmentNumber < |a.bits| && f.fragmentOffset + |f.data| <= |a.data|
      modifies this`channels, this`dispatchedCommands
      ensures Valid() && |channels| == old(|channels|)
      ensures var c := WithFragment(old(channels)[channelID], at, f);
        && channels == old(channels)[channelID := Dispatched(c)]
        && dispatchedCommands
           == old(dispatchedCommands)[channelID := old(dispatchedCommands)[channelID] + DispatchedData(c)]
    {
      hide Run, Dispatched, DispatchedData, Overwritten;
      var channel := channels[channelID];
      var e := channel.incomingReliableCommands[at];
      ghost var c := WithFragment(channel, at, f);
      DispatchedQuiet(c);
      if !e.assembly.bits[f.fragmentNumber] {
        e := e.(assembly := Added(e.assembly, f));
        channel := channel.(incomingReliableCommands := channel.incomingReliableCommands[at := e]);
        channels := channels[channelID := channel];
        if e.assembly.fragmentsRemaining <= 0 {
          DispatchIncomingReliableCommands(channelID);
          return;
        }
      }
      assert Quiet(c) by { JoinedQuiet(old(channels)[channelID], at, f); }
      assert channel == c;
      assert dispatchedCommands[channelID] + [] == dispatchedCommands[channelID];
      assert channels == old(channels)[channelID := c];
    }

    /** Queues an acknowledgement, unless the command lies in the windows that are refused one. */
    method QueueAcknowledgement(channelID: nat, sequence: uint16)
      modifies this`acknowledgements
      ensures acknowledgements == old(acknowledgements) +
        (if channelID < |channels| && RefusesAck(sequence, channels[channelID].incomingReliableSequenceNumber) then []
         else [Acknowledgement(channelID, sequence)])
    {
      if channelID < |channels| {
        var incoming := channels[channelID].incomingReliableSequenceNumber;
        var reliableWindow, currentWindow := sequence / WINDOW_SIZE, incoming / WINDOW_SIZE;
        if sequence < incoming {
          reliableWindow := reliableWindow + WINDOWS;
        }
        if reliableWindow >= currentWindow + FREE_WINDOWS - 1 && reliableWindow <= currentWindow + FREE_WINDOWS {
          return;
        }
      }
      acknowledgements := acknowledgements + [Acknowledgement(channelID, sequence)];
    }
  }

  lemma BehindIs(e: Incoming, incoming: uint16)
    requires incoming == if e.Fragmented? && e.assembly.bits != [] then
      (e.sequence + |e.assembly.bits| - 1) % 0x1_0000 else e.sequence
    ensures incoming == Behind(e)
  {
  }

  lemma RunStep(queue: seq<Incoming>, k: nat, incoming: uint16)
    requires k < |queue|
    ensures Run(queue[k..], incoming)
         == if !Complete(queue[k]) || queue[k].sequence != (incoming + 1) % 0x1_0000 then 0
           else 1 + Run(queue[k + 1..], Behind(queue[k]))
  {
    assert queue[k..][1..] == queue[k + 1..];
  }

  lemma RunStops(queue: seq<Incoming>, k: nat, incoming: uint16)
    requires k <= |queue|
    ensures k == |queue| ==> Run(queue[k..], incoming) == 0
  {
  }

  /** A packet of which nothing has come makes nothing ready. */
  lemma BlankQuiet(c: Inlet, at: nat, f: Fragment, space: seq<uint8>)
    requires Quiet(c) && at <= |c.incomingReliableCommands| && f.fragmentCount > 0
    ensures Dispatched(Inserted(c, at, Begun(f, space))) == Inserted(c, at, Begun(f, space))
    ensures DispatchedData(Inserted(c, at, Begun(f, space))) == []
  {
    var c1 := Inserted(c, at, Begun(f, space));
    DispatchedQuiet(c1);
    assert Quiet(c1) by {
      assert at > 0 ==> c1.incomingReliableCommands[0] == c.incomingReliableCommands[0];
    }
  }

  /** Nor does a fragment that does not complete its packet. */
  lemma JoinedQuiet(c: Inlet, at: nat, f: Fragment)
    requires Quiet(c) && at < |c.incomingReliableCommands| && c.incomingReliableCommands[at].Fragmented?
    requires var a := c.incomingReliableCommands[at].assembly;
      && f.fragmentNumber < |a.bits| && f.fragmentOffset + |f.data| <= |a.data|
      && (a.bits[f.fragmentNumber] || Added(a, f).fragmentsRemaining > 0)
    ensures Quiet(WithFragment(c, at, f))
  {
    hide Overwritten;
  }
}
