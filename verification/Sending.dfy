/** The sending half of a peer: commands wait in a queue, are put on the wire, wait for their
    acknowledgement, and go back to the front of the queue when it does not come in time. */
module Sending {
  import Fragmentation
  import WireSizes
  import opened Words
  import opened Windows

  const MAXIMUM_COMMANDS := 32
  const MAXIMUM_BUFFERS := 1 + 2 * MAXIMUM_COMMANDS
  const THROTTLE_SCALE := 32
  const MAXIMUM_WINDOW_SIZE := 0x1_0000
  const MAXIMUM_MTU := 4096
  const TIME_OVERFLOW := 86400000

  /** The packet a command carries, or the part of it that belongs to this fragment. */
  datatype Packet = Nothing | Data(content: Fragmentation.Content)

  /** An outgoing command.  `number` counts the commands of its channel without bound; the
      code has only its low 16 bits, `sequence`, and nothing below decides on `number`. */
  datatype Command = Command(
    channelID: nat, sequence: uint16, number: nat, packet: Packet, commandSize: nat,
    sendAttempts: nat, sentTime: uint32, roundTripTimeout: uint32, roundTripTimeoutLimit: uint32)

  function Length(p: Packet): nat { if p.Data? then |Fragmentation.Bytes(p.content)| else 0 }

  function LengthWord(p: Packet): uint32 { Length(p) % TWO_32 }

  /** A channel's outgoing side; `used` is the set of bits of the code's 16-bit mask. */
  datatype Channel = Channel(outgoingReliableSequenceNumber: uint16, used: set<nat>, reliableWindows: seq<nat>)

  datatype Limits = Limits(
    packetThrottle: nat, windowSize: nat, mtu: nat, roundTripTime: uint32, roundTripTimeVariance: uint32,
    timeoutLimit: uint32, timeoutMinimum: uint32, timeoutMaximum: uint32)

  /** The values of a sending peer. */
  datatype Sender = Sender(
    channels: seq<Channel>, ownSequence: uint16, outgoing: seq<Command>, sent: seq<Command>, inTransit: uint32,
    nextTimeout: uint32, earliestTimeout: uint32, limits: Limits)

  /** The datagram being put together: its commands, and how much of it is taken. */
  datatype Datagram = Datagram(commands: seq<Command>, commandCount: nat, bufferCount: nat, packetSize: nat, full: bool)

  ghost predicate ChannelsOk(channels: seq<Channel>) {
    forall c {:trigger channels[c]} :: 0 <= c < |channels| ==> |channels[c].reliableWindows| == WINDOWS
  }

  // ----- times -----

  function Minus(a: uint32, b: uint32): uint32 { (a - b) % TWO_32 }

  predicate TimeLess(a: uint32, b: uint32) { Minus(a, b) >= TIME_OVERFLOW }

  function TimeDifference(a: uint32, b: uint32): uint32 {
    if Minus(a, b) >= TIME_OVERFLOW then Minus(b, a) else Minus(a, b)
  }

  function Plus(a: uint32, b: uint32): uint32 { (a + b) % TWO_32 }

  function Times(a: uint32, b: uint32): uint32 { (a * b) % TWO_32 }

  // ----- queueing -----

  /** A reliable command is queued under its channel's next number. */
  function Queued(s: Sender, channelID: nat, number: nat, packet: Packet, commandSize: nat): Sender
    requires channelID < |s.channels|
  {
    var channel := s.channels[channelID];
    var sequence := (channel.outgoingReliableSequenceNumber + 1) % 0x1_0000;
    s.(channels := s.channels[channelID := channel.(outgoingReliableSequenceNumber := sequence)],
       outgoing := s.outgoing + [Command(channelID, sequence, number, packet, commandSize, 0, 0, 0, 0)])
  }

  /** The peer's own commands, such as pings, have a sequence of their own and no packet. */
  function QueuedOwn(s: Sender, number: nat, commandSize: nat): Sender {
    var sequence := (s.ownSequence + 1) % 0x1_0000;
    s.(ownSequence := sequence,
       outgoing := s.outgoing + [Command(0xFF, sequence, number, Nothing, commandSize, 0, 0, 0, 0)])
  }

  /** Commands of the peer's own, one after the other. */
  function AllOwn(s: Sender, number: nat, sizes: seq<nat>): Sender
    decreases |sizes|
  {
    if sizes == [] then s
    else QueuedOwn(AllOwn(s, number, sizes[..|sizes| - 1]), number, sizes[|sizes| - 1])
  }

  /** From place `n` on, the queue holds such commands under the numbers that follow `last`. */
  ghost predicate OwnFrom(queue: seq<Command>, n: nat, last: uint16, sizes: seq<nat>) {
    && |queue| == n + |sizes|
    && forall k {:trigger sizes[k]} :: 0 <= k < |sizes| ==> IsOwn(queue[n + k], (last + k + 1) % 0x1_0000, sizes[k])
  }

  predicate IsOwn(c: Command, sequence: uint16, commandSize: nat) {
    c.channelID == 0xFF && c.sequence == sequence && c.commandSize == commandSize && c.packet.Nothing?
  }

  /** They are queued in their order under numbers that count up by one, around the end of 16 bits. */
  lemma {:induction false} OwnFollow(s: Sender, number: nat, sizes: seq<nat>)
    ensures var s1 := AllOwn(s, number, sizes);
      && s1.ownSequence == (s.ownSequence + |sizes|) % 0x1_0000 && s.outgoing <= s1.outgoing
      && OwnFrom(s1.outgoing, |s.outgoing|, s.ownSequence, sizes)
    decreases |sizes|
  {
    if sizes != [] {
      var j := |sizes| - 1;
      OwnFollow(s, number, sizes[..j]);
      var s0 := AllOwn(s, number, sizes[..j]);
      var s1 := QueuedOwn(s0, number, sizes[j]);
      assert AllOwn(s, number, sizes) == s1;
      hide *;
      OneMoreOwn(s0, number, sizes[j]);
      assert s1.ownSequence == (s.ownSequence + |sizes|) % 0x1_0000;
      OwnLength(s0.outgoing, |s.outgoing|, s.ownSequence, sizes[..j]);
      OwnFromMore(s0.outgoing, s1.outgoing, |s.outgoing|, s.ownSequence, sizes);
    }
  }

  lemma OneMoreOwn(s: Sender, number: nat, commandSize: nat)
    ensures var s1 := QueuedOwn(s, number, commandSize);
      && s1.ownSequence == (s.ownSequence + 1) % 0x1_0000 && s.outgoing <= s1.outgoing
      && |s1.outgoing| == |s.outgoing| + 1 && IsOwn(s1.outgoing[|s.outgoing|], s1.ownSequence, commandSize)
  {
  }

  lemma OwnLength(queue: seq<Command>, n: nat, last: uint16, sizes: seq<nat>)
    requires OwnFrom(queue, n, last, sizes)
    ensures |queue| == n + |sizes|
  {
  }

  lemma OwnFromMore(queue: seq<Command>, queue1: seq<Command>, n: nat, last: uint16, sizes: seq<nat>)
    requires sizes != [] && OwnFrom(queue, n, last, sizes[..|sizes| - 1]) && queue <= queue1
    requires |queue1| == |queue| + 1
    requires IsOwn(queue1[|queue|], (last + |sizes|) % 0x1_0000, sizes[|sizes| - 1])
    ensures OwnFrom(queue1, n, last, sizes)
  {
    hide IsOwn;
    forall k {:trigger sizes[k]} | 0 <= k < |sizes|
      ensures IsOwn(queue1[n + k], (last + k + 1) % 0x1_0000, sizes[k])
    {
      if k < |sizes| - 1 {
        assert sizes[..|sizes| - 1][k] == sizes[k];
      }
    }
  }

  // ----- sending -----

  /** A window's first command waits until the window before it has an acknowledged command
      and the window itself and the seven after it are unused. */
  predicate Blocked(channel: Channel, c: Command)
    requires |channel.reliableWindows| == WINDOWS
  {
    && c.sendAttempts < 1
    && c.sequence % WINDOW_SIZE == 0
    && var w := c.sequence / WINDOW_SIZE;
    (channel.reliableWindows[(w + WINDOWS - 1) % WINDOWS] >= WINDOW_SIZE || channel.used * Mask(w) != {})
  }

  function Max(a: nat, b: nat): nat { if a > b then a else b }

  /** The throttled window of the peer, but at least a datagram. */
  function Allowed(limits: Limits): nat {
    Max(limits.packetThrottle * limits.windowSize / THROTTLE_SCALE, limits.mtu)
  }

  lemma AllowedBounded(limits: Limits)
    requires limits.packetThrottle <= THROTTLE_SCALE && limits.windowSize <= MAXIMUM_WINDOW_SIZE
    requires limits.mtu <= MAXIMUM_MTU
    ensures Allowed(limits) <= MAXIMUM_WINDOW_SIZE
  {
    assert limits.packetThrottle * limits.windowSize <= THROTTLE_SCALE * MAXIMUM_WINDOW_SIZE by {
      ProductBounded(limits.packetThrottle, limits.windowSize, THROTTLE_SCALE, MAXIMUM_WINDOW_SIZE);
    }
  }

  lemma ProductBounded(a: nat, b: nat, c: nat, d: nat)
    requires a <= c && b <= d
    ensures a * b <= c * d
  {
    assert c * d - a * b == (c - a) * d + a * (d - b);
  }

  /** Would the data in transit exceed what is allowed? */
  predicate Exceeds(inTransit: uint32, limits: Limits, c: Command) {
    inTransit + Length(c.packet) > Allowed(limits)
  }

  predicate NoSpace(mtu: nat, commandCount: nat, bufferCount: nat, packetSize: nat, c: Command)
    requires packetSize <= mtu
  {
    || commandCount >= MAXIMUM_COMMANDS
    || bufferCount + 1 >= MAXIMUM_BUFFERS
    || mtu - packetSize < c.commandSize
    || (c.packet.Data? && (mtu - packetSize) % TWO_16 < (c.commandSize + Length(c.packet)) % TWO_16)
  }

  function Marked(channel: Channel, w: nat): Channel
    requires |channel.reliableWindows| == WINDOWS && w < WINDOWS
  {
    channel.(used := channel.used + {w},
             reliableWindows := channel.reliableWindows[w := channel.reliableWindows[w] + 1])
  }

  /** A command as it goes out: one attempt more, its timeout set when it has none. */
  function Attempted(c: Command, limits: Limits, now: uint32): Command {
    var timeout := Plus(limits.roundTripTime, Times(4, limits.roundTripTimeVariance));
    var c1 := c.(sendAttempts := c.sendAttempts + 1, sentTime := now);
    if c.roundTripTimeout == 0
    then c1.(roundTripTimeout := timeout, roundTripTimeoutLimit := Times(limits.timeoutLimit, timeout))
    else c1
  }

  /** The command at `i` goes from the queue to the wire. */
  function Launched(s: Sender, i: nat, now: uint32): (s1: Sender)
    requires i < |s.outgoing| && ChannelsOk(s.channels)
    ensures ChannelsOk(s1.channels) && |s1.channels| == |s.channels| && s1.limits == s.limits
    ensures s1.outgoing == s.outgoing[..i] + s.outgoing[i + 1..] && |s1.outgoing| == |s.outgoing| - 1
  {
    var c := s.outgoing[i];
    var c1 := Attempted(c, s.limits, now);
    s.(channels := if c.channelID < |s.channels| && c.sendAttempts < 1
                   then s.channels[c.channelID := Marked(s.channels[c.channelID], c.sequence / WINDOW_SIZE)]
                   else s.channels,
       nextTimeout := if s.sent == [] then Plus(now, c1.roundTripTimeout) else s.nextTimeout,
       outgoing := s.outgoing[..i] + s.outgoing[i + 1..],
       sent := s.sent + [c1],
       inTransit := if c.packet.Data? then Plus(s.inTransit, LengthWord(c.packet)) else s.inTransit)
  }

  function Loaded(d: Datagram, c: Command): Datagram {
    d.(commands := d.commands + [c], commandCount := d.commandCount + 1,
       bufferCount := d.bufferCount + (if c.packet.Data? then 2 else 1),
       packetSize := d.packetSize + c.commandSize + (if c.packet.Data? then Length(c.packet) else 0))
  }

  /** What a pass over the queue has come to at its position `at`. */
  datatype Pass = Pass(s: Sender, d: Datagram, at: nat, wrapped: bool, exceeded: bool, canPing: bool)

  ghost predicate PassOk(p: Pass) {
    ChannelsOk(p.s.channels) && p.at <= |p.s.outgoing| && p.d.packetSize <= p.s.limits.mtu
  }

  /** The pass sees the command at its position: does it wait because of the windows, or
      because of the data in transit? */
  function Looked(p: Pass): Pass
    requires PassOk(p) && p.at < |p.s.outgoing|
  {
    var c := p.s.outgoing[p.at];
    var wrapped := p.wrapped || (c.channelID < |p.s.channels| && Blocked(p.s.channels[c.channelID], c));
    var held := c.channelID < |p.s.channels| && wrapped;
    var exceeded := p.exceeded || (!held && c.packet.Data? && Exceeds(p.s.inTransit, p.s.limits, c));
    p.(wrapped := wrapped, exceeded := exceeded)
  }

  predicate Skips(p: Pass)
    requires p.at < |p.s.outgoing|
  {
    var c := p.s.outgoing[p.at];
    (c.channelID < |p.s.channels| && p.wrapped) || (c.packet.Data? && p.exceeded)
  }

  /** The whole pass, from any position. */
  function Passed(p: Pass, now: uint32): Pass
    requires PassOk(p)
    requires forall i {:trigger p.s.outgoing[i]} :: 0 <= i < |p.s.outgoing| ==> Fits(p.s.outgoing[i], p.s.limits.mtu)
    decreases |p.s.outgoing| - p.at
  {
    if p.at == |p.s.outgoing| then p else (
      var q := Looked(p);
      var c := q.s.outgoing[q.at];
      if Skips(q) then Passed(q.(at := q.at + 1), now)
      else if NoSpace(q.s.limits.mtu, q.d.commandCount, q.d.bufferCount, q.d.packetSize, c) then
        q.(canPing := false, d := q.d.(full := true))
      else (
        LoadedFits(q.s.limits.mtu, q.d, c);
        Passed(q.(canPing := false, s := Launched(q.s, q.at, now), d := Loaded(q.d, c)), now)))
  }

  /** Every command fits a datagram of its own; sizes stay below 16 bits. */
  predicate Fits(c: Command, mtu: nat) {
    mtu <= MAXIMUM_MTU && WireSizes.PROTOCOL_HEADER + c.commandSize + Length(c.packet) <= mtu
  }

  lemma LoadedFits(mtu: nat, d: Datagram, c: Command)
    requires d.packetSize <= mtu && Fits(c, mtu) && !NoSpace(mtu, d.commandCount, d.bufferCount, d.packetSize, c)
    ensures Loaded(d, c).packetSize <= mtu
    ensures Loaded(d, c).commandCount <= MAXIMUM_COMMANDS && Loaded(d, c).bufferCount <= MAXIMUM_BUFFERS
  {
  }

  // ----- timeouts -----

  predicate InTime(c: Command, now: uint32) {
    TimeDifference(now, c.sentTime) < c.roundTripTimeout
  }

  function Earliest(earliest: uint32, c: Command): uint32 {
    if earliest == 0 || TimeLess(c.sentTime, earliest) then c.sentTime else earliest
  }

  /** Has the peer been silent for too long? */
  predicate GivenUp(earliest: uint32, c: Command, limits: Limits, now: uint32) {
    && earliest != 0
    && (|| TimeDifference(now, earliest) >= limits.timeoutMaximum
        || (c.roundTripTimeout >= c.roundTripTimeoutLimit && TimeDifference(now, earliest) >= limits.timeoutMinimum))
  }

  /** The sent command at `at` goes back to the queue, behind the `back` that went before it. */
  function Returned(s: Sender, at: nat, back: nat): (s1: Sender)
    requires at < |s.sent| && back <= |s.outgoing|
    ensures |s1.sent| == |s.sent| - 1 && |s1.outgoing| == |s.outgoing| + 1 && s1.limits == s.limits
  {
    var c := s.sent[at];
    var sent := s.sent[..at] + s.sent[at + 1..];
    s.(inTransit := if c.packet.Data? then Minus(s.inTransit, LengthWord(c.packet)) else s.inTransit,
       sent := sent,
       outgoing := s.outgoing[..back] + [c.(roundTripTimeout := Times(c.roundTripTimeout, 2))] + s.outgoing[back..],
       nextTimeout := if at == 0 && sent != [] then Plus(sent[0].sentTime, sent[0].roundTripTimeout) else s.nextTimeout)
  }

  /** What checking the timeouts leaves, and whether the peer was given up. */
  function TimedOut(s: Sender, at: nat, back: nat, now: uint32): (r: (Sender, bool))
    requires at <= |s.sent| && back <= |s.outgoing|
    decreases |s.sent| - at
  {
    if at == |s.sent| then (s, false)
    else if InTime(s.sent[at], now) then TimedOut(s, at + 1, back, now)
    else (
      var s1 := s.(earliestTimeout := Earliest(s.earliestTimeout, s.sent[at]));
      if GivenUp(s1.earliestTimeout, s1.sent[at], s1.limits, now) then (s1, true)
      else TimedOut(Returned(s1, at, back), at, back + 1, now))
  }

  // ----- acknowledgements -----

  predicate Answers(c: Command, sequence: uint16, channelID: nat) {
    c.sequence == sequence && c.channelID == channelID
  }

  /** The first command an acknowledgement answers; only attempted ones count in the queue. */
  function Search(commands: seq<Command>, sequence: uint16, channelID: nat, queue: bool, from: nat): (r: int)
    requires from <= |commands|
    ensures r == -1 || (from <= r < |commands| && Answers(commands[r], sequence, channelID))
    ensures queue && r >= 0 ==> forall i {:trigger commands[i]} :: from <= i <= r ==> commands[i].sendAttempts >= 1
    decreases |commands| - from
  {
    if from == |commands| || (queue && commands[from].sendAttempts < 1) then -1
    else if Answers(commands[from], sequence, channelID) then from
    else Search(commands, sequence, channelID, queue, from + 1)
  }

  function Released(channel: Channel, w: nat): Channel
    requires |channel.reliableWindows| == WINDOWS && w < WINDOWS
  {
    if channel.reliableWindows[w] > 0 then
      channel.(reliableWindows := channel.reliableWindows[w := channel.reliableWindows[w] - 1],
               used := if channel.reliableWindows[w] == 1 then channel.used - {w} else channel.used)
    else channel
  }

  function Without<T>(list: seq<T>, i: nat): seq<T>
    requires i < |list|
  {
    list[..i] + list[i + 1..]
  }

  /** The channels after a command of `channelID` was acknowledged. */
  function ReleasedIn(channels: seq<Channel>, channelID: nat, sequence: uint16): seq<Channel>
    requires ChannelsOk(channels)
  {
    if channelID < |channels| then channels[channelID := Released(channels[channelID], sequence / WINDOW_SIZE)]
      else channels
  }

  function RemovedSent(s: Sender, i: nat): Sender
    requires ChannelsOk(s.channels) && i < |s.sent|
  {
    var c := s.sent[i];
    var sent := Without(s.sent, i);
    s.(channels := ReleasedIn(s.channels, c.channelID, c.sequence),
       sent := sent,
       inTransit := if c.packet.Data? then Minus(s.inTransit, LengthWord(c.packet)) else s.inTransit,
       nextTimeout := NextTimeout(s.nextTimeout, sent))
  }

  function RemovedQueued(s: Sender, j: nat): Sender
    requires ChannelsOk(s.channels) && j < |s.outgoing|
  {
    var c := s.outgoing[j];
    s.(channels := ReleasedIn(s.channels, c.channelID, c.sequence),
       outgoing := Without(s.outgoing, j),
       nextTimeout := NextTimeout(s.nextTimeout, s.sent))
  }

  function NextTimeout(nextTimeout: uint32, sent: seq<Command>): uint32 {
    if sent != [] then Plus(sent[0].sentTime, sent[0].roundTripTimeout) else nextTimeout
  }

  /** An acknowledgement takes its command off the peer. */
  function Acknowledged(s: Sender, sequence: uint16, channelID: nat): Sender
    requires ChannelsOk(s.channels)
  {
    var i := Search(s.sent, sequence, channelID, false, 0);
    var j := Search(s.outgoing, sequence, channelID, true, 0);
    if i >= 0 then RemovedSent(s, i) else if j >= 0 then RemovedQueued(s, j) else s
  }

  // ----- the peer and the host -----

  class Host {
    var serviceTime: uint32
    var commands: seq<Command>
    var commandCount: nat
    var bufferCount: nat
    var packetSize: nat
    var continueSending: bool

    ghost function Value(): Datagram
      reads this
    {
      Datagram(commands, commandCount, bufferCount, packetSize, continueSending)
    }

    /** Adds a command and its packet to the datagram. */
    method Load(c: Command)
      modifies this
      ensures Value() == Loaded(old(Value()), c) && serviceTime == old(serviceTime)
    {
      hide Length;
      commands := commands + [c];
      packetSize := packetSize + c.commandSize;
      if c.packet.Data? {
        bufferCount := bufferCount + 1;
        packetSize := packetSize + Length(c.packet);
      }
      commandCount, bufferCount := commandCount + 1, bufferCount + 1;
    }
  }

  class Peer {
    var channels: seq<Channel>
    var outgoingReliableSequenceNumber: uint16
    var outgoingReliableCommands: seq<Command>
    var sentReliableCommands: seq<Command>
    var reliableDataInTransit: uint32
    var nextTimeout: uint32
    var earliestTimeout: uint32
    var limits: Limits

    ghost function Value(): Sender
      reads this
    {
      Sender(channels, outgoingReliableSequenceNumber, outgoingReliableCommands, sentReliableCommands,
             reliableDataInTransit, nextTimeout, earliestTimeout, limits)
    }

    /** Queues a reliable command of a channel, or one of the peer's own. */
    method SetupOutgoingCommand(channelID: nat, number: nat, packet: Packet, commandSize: nat)
      requires |channels| <= 0xFF && (channelID < |channels| || (channelID == 0xFF && packet.Nothing?))
      modifies this
      ensures Value() == if channelID == 0xFF then QueuedOwn(old(Value()), number, commandSize)
                         else Queued(old(Value()), channelID, number, packet, commandSize)
    {
      var sequence;
      if channelID == 0xFF {
        outgoingReliableSequenceNumber := (outgoingReliableSequenceNumber + 1) % 0x1_0000;
        sequence := outgoingReliableSequenceNumber;
      } else {
        var channel := channels[channelID];
        channel := channel.(outgoingReliableSequenceNumber := (channel.outgoingReliableSequenceNumber + 1) % 0x1_0000);
        channels := channels[channelID := channel];
        sequence := channel.outgoingReliableSequenceNumber;
      }
      var c := Command(channelID, sequence, number, packet, commandSize, 0, 0, 0, 0);
      outgoingReliableCommands := outgoingReliableCommands + [c];
    }

    /** Puts on the wire what the windows, the data in transit and the datagram allow. */
    method SendReliableOutgoingCommands(host: Host) returns (canPing: bool)
      requires ChannelsOk(channels) && host.packetSize <= limits.mtu
      requires forall i {:trigger outgoingReliableCommands[i]} :: 0 <= i < |outgoingReliableCommands| ==>
        Fits(outgoingReliableCommands[i], limits.mtu)
      modifies this, host
      ensures var p := Passed(Pass(old(Value()), old(host.Value()), 0, false, false, true), host.serviceTime);
        Value() == p.s && host.Value() == p.d && canPing == p.canPing
      ensures host.serviceTime == old(host.serviceTime)
    {
      hide Exceeds, NoSpace, Blocked, Launched, Loaded, Fits, Length, LengthWord, Plus, Attempted, Marked;
      var windowExceeded, windowWrap := false, false;
      canPing := true;
      var current := 0;
      ghost var now, start := host.serviceTime, Pass(Value(), host.Value(), 0, false, false, true);
      while current < |outgoingReliableCommands|
        invariant ChannelsOk(channels) && host.packetSize <= limits.mtu && current <= |outgoingReliableCommands|
        invariant limits == old(limits) && host.serviceTime == now
        invariant forall i {:trigger outgoingReliableCommands[i]} :: 0 <= i < |outgoingReliableCommands| ==>
          Fits(outgoingReliableCommands[i], limits.mtu)
        invariant Passed(start, now)
          == Passed(Pass(Value(), host.Value(), current, windowWrap, windowExceeded, canPing), now)
        decreases |outgoingReliableCommands| - current
      {
        ghost var p := Pass(Value(), host.Value(), current, windowWrap, windowExceeded, canPing);
        var c := outgoingReliableCommands[current];
        if c.channelID < |channels| {
          if !windowWrap && Blocked(channels[c.channelID], c) {
            windowWrap := true;
          }
          if windowWrap {
            current := current + 1;
            continue;
          }
        }
        if c.packet.Data? {
          if !windowExceeded && Exceeds(reliableDataInTransit, limits, c) {
            windowExceeded := true;
          }
          if windowExceeded {
            current := current + 1;
            continue;
          }
        }
        canPing := false;
        if NoSpace(limits.mtu, host.commandCount, host.bufferCount, host.packetSize, c) {
          host.continueSending := true;
          break;
        }
        LoadedFits(limits.mtu, host.Value(), c);
        Launch(host, current);
      }
    }

    /** One attempt more; the first sets the timeout. */
    method Attempt(command: Command, now: uint32) returns (c: Command)
      ensures c == Attempted(command, limits, now) && c.packet == command.packet && c.commandSize == command.commandSize
    {
      hide Plus, Times;
      c := command.(sendAttempts := command.sendAttempts + 1);
      if c.roundTripTimeout == 0 {
        c := c.(roundTripTimeout := Plus(limits.roundTripTime, Times(4, limits.roundTripTimeVariance)));
        c := c.(roundTripTimeoutLimit := Times(limits.timeoutLimit, c.roundTripTimeout));
      }
      c := c.(sentTime := now);
    }

    /** One command goes out. */
    method Launch(host: Host, current: nat)
      requires ChannelsOk(channels) && current < |outgoingReliableCommands|
      modifies this, host
      ensures Value() == Launched(old(Value()), current, host.serviceTime)
      ensures host.Value() == Loaded(old(host.Value()), old(outgoingReliableCommands[current]))
      ensures host.serviceTime == old(host.serviceTime)
    {
      hide Plus, LengthWord, Length, Marked, Attempted, Loaded;
      var c := outgoingReliableCommands[current];
      host.Load(c);
      if c.channelID < |channels| && c.sendAttempts < 1 {
        channels := channels[c.channelID := Marked(channels[c.channelID], c.sequence / WINDOW_SIZE)];
      }
      c := Attempt(c, host.serviceTime);
      if sentReliableCommands == [] {
        nextTimeout := Plus(host.serviceTime, c.roundTripTimeout);
      }
      outgoingReliableCommands := outgoingReliableCommands[..current] + outgoingReliableCommands[current + 1..];
      sentReliableCommands := sentReliableCommands + [c];
      if c.packet.Data? {
        reliableDataInTransit := Plus(reliableDataInTransit, LengthWord(c.packet));
      }
    }

    /** Returns the commands whose acknowledgement is late to the queue; reports whether the
        peer has to be given up. */
    method CheckTimeouts(host: Host) returns (disconnected: bool)
      modifies this
      ensures var r := TimedOut(old(Value()), 0, 0, host.serviceTime);
        Value() == r.0 && disconnected == r.1
    {
      hide TimeLess, TimeDifference, Returned;
      var current, insertPosition := 0, 0;
      ghost var now, start := host.serviceTime, Value();
      while current < |sentReliableCommands|
        invariant current <= |sentReliableCommands| && insertPosition <= |outgoingReliableCommands|
        invariant host.serviceTime == now
        invariant TimedOut(start, 0, 0, now) == TimedOut(Value(), current, insertPosition, now)
        decreases |sentReliableCommands| - current
      {
        var c := sentReliableCommands[current];
        if TimeDifference(host.serviceTime, c.sentTime) < c.roundTripTimeout {
          current := current + 1;
          continue;
        }
        if earliestTimeout == 0 || TimeLess(c.sentTime, earliestTimeout) {
          earliestTimeout := c.sentTime;
        }
        if earliestTimeout != 0 &&
           (|| TimeDifference(host.serviceTime, earliestTimeout) >= limits.timeoutMaximum
            || (c.roundTripTimeout >= c.roundTripTimeoutLimit
                && TimeDifference(host.serviceTime, earliestTimeout) >= limits.timeoutMinimum)) {
          return true;
        }
        Return(current, insertPosition);
        insertPosition := insertPosition + 1;
      }
      return false;
    }

    /** A late command goes back to the queue. */
    method Return(current: nat, insertPosition: nat)
      requires current < |sentReliableCommands| && insertPosition <= |outgoingReliableCommands|
      modifies this
      ensures Value() == Returned(old(Value()), current, insertPosition)
    {
      hide Minus, Times, Plus, LengthWord;
      var c := sentReliableCommands[current];
      if c.packet.Data? {
        reliableDataInTransit := Minus(reliableDataInTransit, LengthWord(c.packet));
      }
      c := c.(roundTripTimeout := Times(c.roundTripTimeout, 2));
      sentReliableCommands := sentReliableCommands[..current] + sentReliableCommands[current + 1..];
      outgoingReliableCommands :=
        outgoingReliableCommands[..insertPosition] + [c] + outgoingReliableCommands[insertPosition..];
      if current == 0 && sentReliableCommands != [] {
        nextTimeout := Plus(sentReliableCommands[0].sentTime, sentReliableCommands[0].roundTripTimeout);
      }
    }

    /** Takes the command an acknowledgement answers off the peer. */
    method RemoveSentReliableCommand(sequence: uint16, channelID: nat) returns (found: bool)
      requires ChannelsOk(channels)
      modifies this
      ensures Value() == Acknowledged(old(Value()), sequence, channelID)
      ensures found == (Search(old(sentReliableCommands), sequence, channelID, false, 0) >= 0
                        || Search(old(outgoingReliableCommands), sequence, channelID, true, 0) >= 0)
    {
      hide Minus, Plus, LengthWord, Search;
      var current := FindCommand(sentReliableCommands, sequence, channelID, false);
      var wasSent := current < |sentReliableCommands|;
      if !wasSent {
        current := FindCommand(outgoingReliableCommands, sequence, channelID, true);
        if current == |outgoingReliableCommands| {
          return false;
        }
      }
      if channelID < |channels| {
        var channel := channels[channelID];
        var w := sequence / WINDOW_SIZE;
        if channel.reliableWindows[w] > 0 {
          channel := channel.(reliableWindows := channel.reliableWindows[w := channel.reliableWindows[w] - 1]);
          if channel.reliableWindows[w] == 0 {
            channel := channel.(used := channel.used - {w});
          }
        }
        channels := channels[channelID := channel];
      }
      if wasSent {
        var c := sentReliableCommands[current];
        if c.packet.Data? {
          reliableDataInTransit := Minus(reliableDataInTransit, LengthWord(c.packet));
        }
        sentReliableCommands := Without(sentReliableCommands, current);
      } else {
        outgoingReliableCommands := Without(outgoingReliableCommands, current);
      }
      if sentReliableCommands != [] {
        nextTimeout := Plus(sentReliableCommands[0].sentTime, sentReliableCommands[0].roundTripTimeout);
      }
      return true;
    }
  }

  /** The position of the command an acknowledgement answers, or the end of the list. */
  method FindCommand(commands: seq<Command>, sequence: uint16, channelID: nat, queue: bool) returns (i: nat)
    ensures i <= |commands|
    ensures var r := Search(commands, sequence, channelID, queue, 0);
      i == if r < 0 then |commands| else r
  {
    i := 0;
    while i < |commands|
      invariant i <= |commands|
      invariant Search(commands, sequence, channelID, queue, 0) == Search(commands, sequence, channelID, queue, i)
    {
      if queue && commands[i].sendAttempts < 1 {
        return |commands|;
      }
      if commands[i].sequence == sequence && commands[i].channelID == channelID {
        return i;
      }
      i := i + 1;
    }
  }
}
