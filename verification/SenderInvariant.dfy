/** The invariant of the whole sending peer, kept by queueing, sending, timeouts and
    acknowledgements. */
module SenderInvariant {
  import opened Fragmentation
  import opened Words
  import opened Windows
  import opened Sending
  import opened CommandLists
  import opened InFlight

  type Flows = seq<Flow>

  /** A command still held by the peer: a channel's command carries the packet of its number,
      is not acknowledged, and was attempted just when its number was put on the wire. */
  ghost predicate CommandOk(c: Command, flows: Flows) {
    if c.channelID < |flows| then (
      var f := flows[c.channelID];
      && 1 <= c.number <= |f.log| && c.number !in f.acked
      && c.sequence == Seq(c.number) && c.packet == Data(f.log[c.number - 1])
      && (c.sendAttempts < 1 <==> c.number > f.first))
    else c.packet == Nothing
  }

  ghost predicate AllOk(list: seq<Command>, flows: Flows, mtu: nat) {
    forall c {:trigger c in list} :: c in list ==> CommandOk(c, flows) && Fits(c, mtu)
  }

  ghost predicate AllAttempted(list: seq<Command>) {
    forall c {:trigger c in list} :: c in list ==> c.sendAttempts >= 1
  }

  /** Retried commands come first, and new ones are in the order of their numbers. */
  ghost predicate QueueOk(queue: seq<Command>, k: nat) {
    && (forall i, j {:trigger queue[i], queue[j]} :: 0 <= i < j < |queue| && queue[j].sendAttempts >= 1 ==>
         queue[i].sendAttempts >= 1)
    && (forall i, j {:trigger queue[i], queue[j]} :: 0 <= i < j < |queue| && Follows(queue[i], queue[j], k) ==>
          queue[i].number < queue[j].number)
  }

  predicate Follows(c: Command, d: Command, k: nat) { c.sendAttempts < 1 && c.channelID == d.channelID < k }

  ghost predicate Kept(s: Sender, channelID: nat, n: nat) {
    exists c {:trigger c in s.sent} {:trigger c in s.outgoing} ::
      (c in s.sent || c in s.outgoing) && c.channelID == channelID && c.number == n
  }

  /** Every command not yet acknowledged is still held. */
  ghost predicate NothingLost(s: Sender, flows: Flows) {
    forall k, n {:trigger Kept(s, k, n)} :: 0 <= k < |flows| && 1 <= n <= |flows[k].log| && n !in flows[k].acked ==>
      Kept(s, k, n)
  }

  ghost predicate FlowsOk(channels: seq<Channel>, flows: Flows) {
    && |channels| == |flows| <= 0xFF
    && (forall k {:trigger flows[k]} {:trigger channels[k]} :: 0 <= k < |flows| ==>
         FlowOk(flows[k]) && CountersOk(channels[k], flows[k]))
  }

  ghost predicate LimitsOk(limits: Limits) {
    limits.packetThrottle <= THROTTLE_SCALE && limits.windowSize <= MAXIMUM_WINDOW_SIZE && limits.mtu <= MAXIMUM_MTU
  }

  /** The data in transit is that of the sent commands, and never more than 65536 bytes. */
  ghost predicate TransitOk(s: Sender) {
    s.inTransit == DataSum(s.sent) <= MAXIMUM_WINDOW_SIZE
  }

  ghost predicate ListsOk(s: Sender, flows: Flows) {
    && AllOk(s.sent, flows, s.limits.mtu) && AllOk(s.outgoing, flows, s.limits.mtu) && AllAttempted(s.sent)
    && Apart(s.sent, |flows|) && Apart(s.outgoing, |flows|) && Disjoint(s.sent, s.outgoing, |flows|)
    && QueueOk(s.outgoing, |flows|)
  }

  ghost predicate SenderOk(s: Sender, flows: Flows) {
    LimitsOk(s.limits) && FlowsOk(s.channels, flows) && ListsOk(s, flows) && NothingLost(s, flows) && TransitOk(s)
  }

  // ----- queueing -----

  function LoggedFlows(flows: Flows, k: nat, content: Content): Flows
    requires k < |flows|
  {
    flows[k := flows[k].(log := flows[k].log + [content])]
  }

  /** All commands of a packet are queued, the first under number `first`. */
  function QueuedAll(s: Sender, k: nat, first: nat, contents: seq<Content>, commandSize: nat): (s1: Sender)
    requires k < |s.channels|
    ensures |s1.channels| == |s.channels| && s1.limits == s.limits
    decreases |contents|
  {
    if contents == [] then s else (
      var n := |contents| - 1;
      Queued(QueuedAll(s, k, first, contents[..n], commandSize), k, first + n, Data(contents[n]), commandSize))
  }

  function LoggedAll(flows: Flows, k: nat, contents: seq<Content>): Flows
    requires k < |flows|
  {
    flows[k := flows[k].(log := flows[k].log + contents)]
  }

  lemma {:induction false} QueuedAllOk(s: Sender, flows: Flows, k: nat, contents: seq<Content>, commandSize: nat)
    requires SenderOk(s, flows) && k < |flows| && k < |s.channels|
    requires forall i {:trigger contents[i]} :: 0 <= i < |contents| ==>
      4 + commandSize + |Bytes(contents[i])| <= s.limits.mtu
    ensures SenderOk(QueuedAll(s, k, |flows[k].log| + 1, contents, commandSize), LoggedAll(flows, k, contents))
    decreases |contents|
  {
    hide SenderOk, Queued;
    if contents == [] {
      assert flows[k].log + [] == flows[k].log;
      assert LoggedAll(flows, k, contents) == flows;
    } else {
      var n := |contents| - 1;
      QueuedAllOk(s, flows, k, contents[..n], commandSize);
      QueuedOk(QueuedAll(s, k, |flows[k].log| + 1, contents[..n], commandSize), LoggedAll(flows, k, contents[..n]), k,
               contents[n], commandSize);
      assert flows[k].log + contents == (flows[k].log + contents[..n]) + [contents[n]];
      assert LoggedFlows(LoggedAll(flows, k, contents[..n]), k, contents[n]) == LoggedAll(flows, k, contents);
    }
  }

  lemma QueuedOk(s: Sender, flows: Flows, k: nat, content: Content, commandSize: nat)
    requires SenderOk(s, flows) && k < |flows| && 4 + commandSize + |Bytes(content)| <= s.limits.mtu
    ensures SenderOk(Queued(s, k, |flows[k].log| + 1, Data(content), commandSize), LoggedFlows(flows, k, content))
  {
    var n := |flows[k].log| + 1;
    var s1, flows1 := Queued(s, k, n, Data(content), commandSize), LoggedFlows(flows, k, content);
    var c := s1.outgoing[|s.outgoing|];
    hide FlowOk, CountersOk;
    forall j | 0 <= j < |flows| ensures FlowOk(flows1[j]) && CountersOk(s1.channels[j], flows1[j]) {
      OneQueued(s.channels[k], flows[k], content);
    }
    QueuedCommand(s, flows, k, content, commandSize);
    QueuedLists(s, flows, flows1, c);
    QueuedKept(s, flows, k, content, commandSize);
  }

  lemma QueuedCommand(s: Sender, flows: Flows, k: nat, content: Content, commandSize: nat)
    requires FlowsOk(s.channels, flows) && k < |flows|
    requires 4 + commandSize + |Bytes(content)| <= s.limits.mtu <= MAXIMUM_MTU
    ensures var n, flows1 := |flows[k].log| + 1, LoggedFlows(flows, k, content);
      var c := Queued(s, k, n, Data(content), commandSize).outgoing[|s.outgoing|];
      && CommandOk(c, flows1) && Fits(c, s.limits.mtu) && c.channelID == k && c.number == n && c.sendAttempts < 1
      && (forall d :: CommandOk(d, flows) ==>
            CommandOk(d, flows1) && !Clash(d, c, |flows|) && (d.channelID == k ==> d.number < n))
  {
    hide CountersOk;
    assert CountersOk(s.channels[k], flows[k]);
    SeqNext(s.channels[k], flows[k]);
  }

  lemma SeqNext(channel: Channel, f: Flow)
    requires CountersOk(channel, f)
    ensures (channel.outgoingReliableSequenceNumber + 1) % 0x1_0000 == Seq(|f.log| + 1)
  {
  }

  lemma QueuedLists(s: Sender, flows: Flows, flows1: Flows, c: Command)
    requires ListsOk(s, flows) && |flows1| == |flows|
    requires CommandOk(c, flows1) && Fits(c, s.limits.mtu) && c.sendAttempts < 1
    requires forall d :: CommandOk(d, flows) ==>
      CommandOk(d, flows1) && !Clash(d, c, |flows|) && (d.channelID == c.channelID < |flows| ==> d.number < c.number)
    ensures ListsOk(s.(outgoing := s.outgoing + [c]), flows1)
  {
    hide CommandOk;
    assert s.outgoing + [c] == Insert(s.outgoing, |s.outgoing|, c);
    InsertMembers(s.outgoing, |s.outgoing|, c);
    InsertApart(s.outgoing, |s.outgoing|, c, |flows|);
    AppendedQueue(s.outgoing, c, |flows|);
    hide Insert, Apart, QueueOk;
  }

  lemma AppendedQueue(queue: seq<Command>, c: Command, k: nat)
    requires QueueOk(queue, k) && c.sendAttempts < 1
    requires forall d :: d in queue && d.channelID == c.channelID < k ==> d.number < c.number
    ensures QueueOk(queue + [c], k)
  {
    assert forall i :: 0 <= i < |queue| ==> queue[i] in queue;
  }

  lemma QueuedKept(s: Sender, flows: Flows, k: nat, content: Content, commandSize: nat)
    requires NothingLost(s, flows) && |s.channels| == |flows| && k < |flows|
    ensures NothingLost(Queued(s, k, |flows[k].log| + 1, Data(content), commandSize), LoggedFlows(flows, k, content))
  {
    var s1, flows1 := Queued(s, k, |flows[k].log| + 1, Data(content), commandSize), LoggedFlows(flows, k, content);
    forall j, n | 0 <= j < |flows1| && 1 <= n <= |flows1[j].log| && n !in flows1[j].acked ensures Kept(s1, j, n) {
      if n <= |flows[j].log| {
        assert Kept(s, j, n);
        var c :| (c in s.sent || c in s.outgoing) && c.channelID == j && c.number == n;
        assert c in s1.sent || c in s1.outgoing;
      } else {
        assert s1.outgoing[|s.outgoing|] in s1.outgoing;
      }
    }
  }

  lemma QueuedOwnOk(s: Sender, flows: Flows, number: nat, commandSize: nat)
    requires SenderOk(s, flows) && 4 + commandSize <= s.limits.mtu
    ensures SenderOk(QueuedOwn(s, number, commandSize), flows)
  {
    hide FlowOk, CountersOk;
    var s1 := QueuedOwn(s, number, commandSize);
    QueuedLists(s, flows, flows, s1.outgoing[|s.outgoing|]);
    hide ListsOk;
    forall j, n | 0 <= j < |flows| && 1 <= n <= |flows[j].log| && n !in flows[j].acked ensures Kept(s1, j, n) {
      assert Kept(s, j, n);
      var c :| (c in s.sent || c in s.outgoing) && c.channelID == j && c.number == n;
      assert c in s1.sent || c in s1.outgoing;
    }
  }

  /** The throttle and the peer's window may change at any time. */
  lemma TunedOk(s: Sender, flows: Flows, limits: Limits)
    requires SenderOk(s, flows) && LimitsOk(limits) && limits.mtu == s.limits.mtu
    ensures SenderOk(s.(limits := limits), flows)
  {
    hide FlowsOk;
    var s1 := s.(limits := limits);
    forall j, n | 0 <= j < |flows| && 1 <= n <= |flows[j].log| && n !in flows[j].acked ensures Kept(s1, j, n) {
      assert Kept(s, j, n);
    }
  }

  // ----- sending -----

  function LaunchedFlows(flows: Flows, c: Command): Flows {
    if c.channelID < |flows| && c.sendAttempts < 1
    then flows[c.channelID := flows[c.channelID].(first := flows[c.channelID].first + 1)]
    else flows
  }

  /** A channel's command goes out only from the head of the queue, past the gate, and with
      room in the data in transit; others from anywhere. */
  ghost predicate MayLaunch(s: Sender, i: nat)
    requires i < |s.outgoing| && ChannelsOk(s.channels)
  {
    var c := s.outgoing[i];
    c.channelID < |s.channels| ==> i == 0 && !Blocked(s.channels[c.channelID], c) && !Exceeds(s.inTransit, s.limits, c)
  }

  lemma FlowsChannels(channels: seq<Channel>, flows: Flows)
    requires FlowsOk(channels, flows)
    ensures ChannelsOk(channels) && |channels| == |flows|
  {
  }

  /** A new command at the head of the queue is the next to be numbered on the wire. */
  lemma HeadIsNext(s: Sender, flows: Flows)
    requires ListsOk(s, flows) && NothingLost(s, flows) && s.outgoing != []
    requires var c := s.outgoing[0]; c.channelID < |flows| && c.sendAttempts < 1 && FlowOk(flows[c.channelID])
    ensures var c := s.outgoing[0];
      && c.number == flows[c.channelID].first + 1 && c.sequence == Seq(c.number)
      && flows[c.channelID].first < |flows[c.channelID].log|
  {
    var c := s.outgoing[0];
    assert c in s.outgoing;
    var k, f := c.channelID, flows[c.channelID];
    var n := f.first + 1;
    assert n !in f.acked && n <= |f.log|;
    assert Kept(s, k, n);
    var d :| (d in s.sent || d in s.outgoing) && d.channelID == k && d.number == n;
    assert CommandOk(d, flows);
    var j :| 0 <= j < |s.outgoing| && s.outgoing[j] == d;
    assert Follows(c, d, |flows|);
  }

  lemma LaunchedOk(s: Sender, flows: Flows, i: nat, now: uint32)
    requires SenderOk(s, flows) && i < |s.outgoing| && ChannelsOk(s.channels) && MayLaunch(s, i)
    ensures SenderOk(Launched(s, i, now), LaunchedFlows(flows, s.outgoing[i]))
  {
    var c := s.outgoing[i];
    assert c in s.outgoing;
    var s1, flows1 := Launched(s, i, now), LaunchedFlows(flows, c);
    hide FlowOk, CountersOk, Plus, AllOk, Apart, Disjoint, QueueOk, Marked, AllAttempted, Blocked, Exceeds;
    LaunchedFlowsOk(s, flows, i, now);
    LaunchedLists(s, flows, i, now);
    LaunchedKept(s, flows, i, now);
    LaunchedTransit(s, flows, i, now);
  }

  lemma LaunchedFlowsOk(s: Sender, flows: Flows, i: nat, now: uint32)
    requires SenderOk(s, flows) && i < |s.outgoing| && ChannelsOk(s.channels) && MayLaunch(s, i)
    ensures FlowsOk(Launched(s, i, now).channels, LaunchedFlows(flows, s.outgoing[i]))
    ensures |LaunchedFlows(flows, s.outgoing[i])| == |flows|
    ensures var c := s.outgoing[i]; c.channelID < |flows| && c.sendAttempts < 1 ==>
      c.number == flows[c.channelID].first + 1
  {
    var c := s.outgoing[i];
    hide FlowOk, CountersOk, ListsOk, NothingLost, Blocked, TransitOk, LimitsOk, Marked;
    if c.channelID < |flows| && c.sendAttempts < 1 {
      var k := c.channelID;
      assert FlowOk(flows[k]) && CountersOk(s.channels[k], flows[k]);
      HeadIsNext(s, flows);
      FirstSent(s.channels[k], flows[k], c);
    }
  }

  lemma LaunchedLists(s: Sender, flows: Flows, i: nat, now: uint32)
    requires ListsOk(s, flows) && i < |s.outgoing| && ChannelsOk(s.channels) && |s.channels| == |flows|
    requires var c := s.outgoing[i]; c.channelID < |flows| && c.sendAttempts < 1 ==>
      c.number == flows[c.channelID].first + 1
    ensures ListsOk(Launched(s, i, now), LaunchedFlows(flows, s.outgoing[i]))
  {
    var c := s.outgoing[i];
    var c1 := Attempted(c, s.limits, now);
    var k := |flows|;
    AttemptedSame(c, s.limits, now);
    hide Attempted, CommandOk, Fits, Launched, LaunchedFlows;
    LaunchedListsAre(s, i, now);
    WithoutMembers(s.outgoing, i);
    WithoutApart(s.outgoing, i, k);
    WithoutQueue(s.outgoing, i, k);
    assert c in s.outgoing;
    assert s.sent + [c1] == Insert(s.sent, |s.sent|, c1);
    InsertMembers(s.sent, |s.sent|, c1);
    InsertApart(s.sent, |s.sent|, c1, k);
    LaunchedCommands(s, flows, i, c1);
    hide QueueOk, Apart, Without, Insert;
  }

  lemma LaunchedListsAre(s: Sender, i: nat, now: uint32)
    requires i < |s.outgoing| && ChannelsOk(s.channels)
    ensures var s1 := Launched(s, i, now);
      && s1.sent == s.sent + [Attempted(s.outgoing[i], s.limits, now)]
      && s1.outgoing == Without(s.outgoing, i) && s1.limits == s.limits
    ensures forall flows :: |LaunchedFlows(flows, s.outgoing[i])| == |flows|
  {
    hide Attempted;
  }

  lemma AttemptedSame(c: Command, limits: Limits, now: uint32)
    ensures var c1 := Attempted(c, limits, now);
      && c1.channelID == c.channelID && c1.number == c.number && c1.sequence == c.sequence && c1.packet == c.packet
      && c1.commandSize == c.commandSize && c1.sendAttempts == c.sendAttempts + 1
      && (forall mtu :: Fits(c, mtu) ==> Fits(c1, mtu))
  {
    hide Plus, Times;
  }

  lemma LaunchedCommands(s: Sender, flows: Flows, i: nat, c1: Command)
    requires ListsOk(s, flows) && i < |s.outgoing|
    requires var c := s.outgoing[i];
      && (c.channelID < |flows| && c.sendAttempts < 1 ==> c.number == flows[c.channelID].first + 1)
      && c1.channelID == c.channelID && c1.number == c.number && c1.sequence == c.sequence && c1.packet == c.packet
      && c1.sendAttempts == c.sendAttempts + 1
    ensures var flows1 := LaunchedFlows(flows, s.outgoing[i]);
      && CommandOk(c1, flows1)
      && (forall d :: d in s.sent ==> CommandOk(d, flows1))
      && (forall d :: d in Without(s.outgoing, i) ==> CommandOk(d, flows1))
  {
    var c, flows1 := s.outgoing[i], LaunchedFlows(flows, s.outgoing[i]);
    assert c in s.outgoing;
    WithoutMembers(s.outgoing, i);
    WithoutApart(s.outgoing, i, |flows|);
    hide Apart, QueueOk, Without, Fits;
    forall d | d in s.sent ensures CommandOk(d, flows1) {
      assert CommandOk(d, flows) && !Clash(d, c, |flows|);
    }
    forall d | d in Without(s.outgoing, i) ensures CommandOk(d, flows1) {
      assert d in s.outgoing && CommandOk(d, flows) && !Clash(d, c, |flows|);
    }
  }

  lemma WithoutQueue(queue: seq<Command>, i: nat, k: nat)
    requires i < |queue| && QueueOk(queue, k)
    ensures QueueOk(Without(queue, i), k)
  {
    WithoutMembers(queue, i);
    var rest := Without(queue, i);
    assert forall a :: 0 <= a < |rest| ==> rest[a] == queue[if a < i then a else a + 1];
    hide Follows, Without;
  }

  lemma LaunchedKept(s: Sender, flows: Flows, i: nat, now: uint32)
    requires NothingLost(s, flows) && i < |s.outgoing| && ChannelsOk(s.channels) && |s.channels| == |flows|
    ensures NothingLost(Launched(s, i, now), LaunchedFlows(flows, s.outgoing[i]))
  {
    var c := s.outgoing[i];
    var s1, flows1 := Launched(s, i, now), LaunchedFlows(flows, c);
    AttemptedSame(c, s.limits, now);
    hide Attempted, Launched;
    LaunchedListsAre(s, i, now);
    WithoutMembers(s.outgoing, i);
    forall j, n | 0 <= j < |flows1| && 1 <= n <= |flows1[j].log| && n !in flows1[j].acked ensures Kept(s1, j, n) {
      assert Kept(s, j, n);
      var d :| (d in s.sent || d in s.outgoing) && d.channelID == j && d.number == n;
      assert s1.sent[|s.sent|] in s1.sent;
      assert d in s1.sent || d in s1.outgoing || d == c;
    }
  }

  lemma LaunchedTransit(s: Sender, flows: Flows, i: nat, now: uint32)
    requires TransitOk(s) && LimitsOk(s.limits) && i < |s.outgoing| && ChannelsOk(s.channels) && MayLaunch(s, i)
    requires CommandOk(s.outgoing[i], flows) && |s.channels| == |flows| && Fits(s.outgoing[i], s.limits.mtu)
    ensures TransitOk(Launched(s, i, now)) && Launched(s, i, now).limits == s.limits
  {
    hide Launched, Attempted, Blocked, CommandOk, Allowed, Plus, DataSum, Length, LengthWord;
    var p := s.outgoing[i].packet;
    LaunchedData(s, i, now);
    CommandPacket(s.outgoing[i], flows);
    AllowedBounded(s.limits);
    LengthSmall(s.outgoing[i], s.limits.mtu);
    if p.Data? {
      PlusExact(s.inTransit, p);
    }
  }

  lemma LaunchedData(s: Sender, i: nat, now: uint32)
    requires i < |s.outgoing| && ChannelsOk(s.channels)
    ensures var p, s1 := s.outgoing[i].packet, Launched(s, i, now);
      && DataSum(s1.sent) == DataSum(s.sent) + Length(p) && s1.limits == s.limits
      && s1.inTransit == (if p.Data? then Plus(s.inTransit, LengthWord(p)) else s.inTransit)
  {
    AppendSum(s.sent, Attempted(s.outgoing[i], s.limits, now));
    AttemptedSame(s.outgoing[i], s.limits, now);
    hide Attempted, DataSum, Plus, LengthWord;
  }

  lemma LengthSmall(c: Command, mtu: nat)
    requires Fits(c, mtu)
    ensures Length(c.packet) < MAXIMUM_MTU == 4096 && (c.packet.Nothing? ==> Length(c.packet) == 0)
  {
  }

  lemma PlusExact(a: uint32, p: Packet)
    requires a <= MAXIMUM_WINDOW_SIZE && Length(p) < 4096
    ensures Plus(a, LengthWord(p)) == a + Length(p)
  {
  }

  lemma CommandPacket(c: Command, flows: Flows)
    requires CommandOk(c, flows)
    ensures c.packet.Data? <==> c.channelID < |flows|
  {
  }

  // ----- a pass over the queue -----

  /** The same packets and acknowledgements, and perhaps more put on the wire. */
  ghost predicate Advanced(flows: Flows, flows1: Flows) {
    && |flows1| == |flows|
    && forall k {:trigger flows1[k]} :: 0 <= k < |flows| ==>
         flows1[k].log == flows[k].log && flows1[k].acked == flows[k].acked && flows[k].first <= flows1[k].first
  }

  /** A command on the wire is one put there, with the packet of its number. */
  ghost predicate OnWire(c: Command, flows: Flows) {
    c.channelID < |flows| ==>
      && 1 <= c.number <= flows[c.channelID].first <= |flows[c.channelID].log|
      && c.sequence == Seq(c.number) && c.packet == Data(flows[c.channelID].log[c.number - 1])
  }

  ghost predicate AllOnWire(list: seq<Command>, flows: Flows) {
    forall c {:trigger c in list} :: c in list ==> OnWire(c, flows)
  }

  ghost predicate DatagramOk(d: Datagram, mtu: nat) {
    d.commandCount <= MAXIMUM_COMMANDS && d.bufferCount <= MAXIMUM_BUFFERS && d.packetSize <= mtu
  }

  lemma AllFit(s: Sender, flows: Flows)
    requires SenderOk(s, flows)
    ensures ChannelsOk(s.channels) && |s.channels| == |flows|
    ensures forall i {:trigger s.outgoing[i]} :: 0 <= i < |s.outgoing| ==> Fits(s.outgoing[i], s.limits.mtu)
    ensures forall i {:trigger s.outgoing[i]} :: 0 <= i < |s.outgoing| ==> CommandOk(s.outgoing[i], flows)
  {
    FlowsChannels(s.channels, flows);
    hide FlowsOk, NothingLost, CommandOk, Fits;
    assert forall i {:trigger s.outgoing[i]} :: 0 <= i < |s.outgoing| ==> s.outgoing[i] in s.outgoing;
  }

  /** The flows after these commands were put on the wire. */
  function SentFlows(flows: Flows, commands: seq<Command>): Flows
    decreases |commands|
  {
    if commands == [] then flows
    else LaunchedFlows(SentFlows(flows, commands[..|commands| - 1]), commands[|commands| - 1])
  }

  lemma SentOneMore(flows: Flows, commands: seq<Command>, c: Command)
    ensures SentFlows(flows, commands + [c]) == LaunchedFlows(SentFlows(flows, commands), c)
  {
    assert (commands + [c])[..|commands|] == commands;
  }

  /** A pass over the queue keeps the invariant, puts only commands on the wire that are due,
      and keeps the datagram within the peer's datagram size, 32 commands and 65 buffers. */
  lemma {:induction false} PassedOk(p: Pass, start: Flows, flows: Flows, now: uint32)
    requires SenderOk(p.s, flows) && PassOk(p) && (p.at == 0 || p.wrapped || p.exceeded)
    requires AllOnWire(p.d.commands, flows) && DatagramOk(p.d, p.s.limits.mtu)
    requires flows == SentFlows(start, p.d.commands)
    requires forall i {:trigger p.s.outgoing[i]} :: 0 <= i < |p.s.outgoing| ==> Fits(p.s.outgoing[i], p.s.limits.mtu)
    ensures var p1 := Passed(p, now);
      var flows1 := SentFlows(start, p1.d.commands);
      && SenderOk(p1.s, flows1) && Advanced(flows, flows1) && AllOnWire(p1.d.commands, flows1)
      && DatagramOk(p1.d, p.s.limits.mtu) && p1.s.limits == p.s.limits
    decreases |p.s.outgoing| - p.at
  {
    hide *;
    AllFit(p.s, flows);
    PassedNext(p, flows, now);
    AdvancedNone(flows);
    if p.at < |p.s.outgoing| {
      var q := Looked(p);
      var c := q.s.outgoing[q.at];
      if Skips(q) {
        PassedOk(q.(at := q.at + 1), start, flows, now);
      } else if !NoSpace(q.s.limits.mtu, q.d.commandCount, q.d.bufferCount, q.d.packetSize, c) {
        LaunchedOk(q.s, flows, q.at, now);
        var flows2 := LaunchedFlows(flows, c);
        SentOneMore(start, q.d.commands, c);
        WireGrows(q.s, flows, q.at, q.d.commands);
        var q1 := q.(canPing := false, s := Launched(q.s, q.at, now), d := Loaded(q.d, c));
        AllFit(q1.s, flows2);
        PassedOk(q1, start, flows2, now);
        AdvancedTwice(flows, flows2, SentFlows(start, Passed(q1, now).d.commands));
      }
    }
  }

  lemma AdvancedNone(flows: Flows)
    ensures Advanced(flows, flows)
  {
  }

  /** One step of the pass. */
  lemma PassedNext(p: Pass, flows: Flows, now: uint32)
    requires SenderOk(p.s, flows) && PassOk(p) && (p.at == 0 || p.wrapped || p.exceeded)
    requires DatagramOk(p.d, p.s.limits.mtu)
    requires forall i {:trigger p.s.outgoing[i]} :: 0 <= i < |p.s.outgoing| ==> Fits(p.s.outgoing[i], p.s.limits.mtu)
    ensures p.at <= |p.s.outgoing| && ChannelsOk(p.s.channels)
    ensures p.at == |p.s.outgoing| ==> Passed(p, now) == p
    ensures p.at < |p.s.outgoing| ==>
      var q := Looked(p);
      var c := q.s.outgoing[q.at];
      && q.s == p.s && q.d == p.d && q.at == p.at && p.d.packetSize <= p.s.limits.mtu
      && (if Skips(q) then
            var q1 := q.(at := q.at + 1);
            PassOk(q1) && (q1.wrapped || q1.exceeded) && Passed(p, now) == Passed(q1, now)
          else if NoSpace(q.s.limits.mtu, q.d.commandCount, q.d.bufferCount, q.d.packetSize, c) then
            && Passed(p, now).s == p.s && Passed(p, now).d.commands == p.d.commands
            && DatagramOk(Passed(p, now).d, p.s.limits.mtu)
          else (
            var q1 := q.(canPing := false, s := Launched(q.s, q.at, now), d := Loaded(q.d, c));
            && MayLaunch(q.s, q.at) && PassOk(q1) && (q1.at == 0 || q1.wrapped || q1.exceeded)
            && (forall i {:trigger q1.s.outgoing[i]} :: 0 <= i < |q1.s.outgoing| ==>
                 Fits(q1.s.outgoing[i], q1.s.limits.mtu))
            && q1.d.commands == p.d.commands + [c] && DatagramOk(q1.d, p.s.limits.mtu)
            && q1.s.limits == p.s.limits && |q1.s.outgoing| == |p.s.outgoing| - 1
            && Passed(p, now) == Passed(q1, now)))
  {
    hide SenderOk, Blocked, Exceeds, NoSpace, Launched, ChannelsOk, Fits;
    AllFit(p.s, flows);
    if p.at < |p.s.outgoing| {
      var q := Looked(p);
      var c := q.s.outgoing[q.at];
      if !Skips(q) && !NoSpace(q.s.limits.mtu, q.d.commandCount, q.d.bufferCount, q.d.packetSize, c) {
        LoadedFits(q.s.limits.mtu, q.d, c);
        CommandPacket(c, flows);
      }
    }
  }

  lemma WireGrows(s: Sender, flows: Flows, i: nat, wire: seq<Command>)
    requires SenderOk(s, flows) && i < |s.outgoing| && ChannelsOk(s.channels) && MayLaunch(s, i)
    requires AllOnWire(wire, flows)
    ensures AllOnWire(wire + [s.outgoing[i]], LaunchedFlows(flows, s.outgoing[i]))
    ensures Advanced(flows, LaunchedFlows(flows, s.outgoing[i]))
  {
    var c := s.outgoing[i];
    LaunchedFlowsOk(s, flows, i, 0);
    AllFit(s, flows);
    hide SenderOk, Blocked, MayLaunch;
    var flows1 := LaunchedFlows(flows, c);
    assert OnWire(c, flows1) by { CommandOnWire(s, flows, c); }
    forall d | d in wire ensures OnWire(d, flows1) {
      assert OnWire(d, flows);
    }
  }

  lemma CommandOnWire(s: Sender, flows: Flows, c: Command)
    requires SenderOk(s, flows) && CommandOk(c, flows)
    requires c.channelID < |flows| && c.sendAttempts < 1 ==> c.number == flows[c.channelID].first + 1
    ensures OnWire(c, LaunchedFlows(flows, c))
  {
    hide CountersOk, ListsOk, NothingLost;
    if c.channelID < |flows| {
      assert FlowOk(flows[c.channelID]);
    }
  }

  lemma AdvancedTwice(a: Flows, b: Flows, c: Flows)
    requires Advanced(a, b) && Advanced(b, c)
    ensures Advanced(a, c)
  {
    forall k | 0 <= k < |a| ensures c[k].log == a[k].log && c[k].acked == a[k].acked && a[k].first <= c[k].first {
      assert b[k].log == a[k].log;
    }
  }

  // ----- timeouts -----

  ghost predicate AttemptedTo(queue: seq<Command>, back: nat) {
    back <= |queue| && forall i {:trigger queue[i]} :: 0 <= i < back ==> queue[i].sendAttempts >= 1
  }

  lemma ReturnedOk(s: Sender, flows: Flows, at: nat, back: nat)
    requires SenderOk(s, flows) && at < |s.sent| && AttemptedTo(s.outgoing, back)
    ensures SenderOk(Returned(s, at, back), flows) && AttemptedTo(Returned(s, at, back).outgoing, back + 1)
  {
    hide FlowsOk, Returned, CommandOk, Fits, Length, LengthWord, Minus, Times, DataSum;
    ReturnedLists(s, at, back);
    var c := Late(s.sent[at]);
    var k := |flows|;
    assert s.sent[at] in s.sent;
    LateSame(s.sent[at], flows);
    hide Late;
    WithoutMembers(s.sent, at);
    WithoutApart(s.sent, at, k);
    InsertMembers(s.outgoing, back, c);
    InsertApart(s.outgoing, back, c, k);
    InsertQueue(s.outgoing, back, c, k);
    WithoutSum(s.sent, at);
    LengthSmall(s.sent[at], s.limits.mtu);
    if c.packet.Data? { MinusExact(s.inTransit, c.packet); }
    var s1 := Returned(s, at, back);
    assert ListsOk(s1, flows);
    hide ListsOk, Apart, QueueOk, Without, Insert;
    ReturnedKept(s, s1, flows, s.sent[at], c);
  }

  function Late(c: Command): Command { c.(roundTripTimeout := Times(c.roundTripTimeout, 2)) }

  lemma LateSame(c: Command, flows: Flows)
    requires CommandOk(c, flows)
    ensures CommandOk(Late(c), flows) && Late(c).channelID == c.channelID && Late(c).number == c.number
    ensures Late(c).packet == c.packet && Late(c).sendAttempts == c.sendAttempts
    ensures forall mtu :: Fits(c, mtu) ==> Fits(Late(c), mtu)
    ensures forall d, k {:trigger Clash(d, c, k)} {:trigger Clash(d, Late(c), k)} ::
      Clash(d, Late(c), k) == Clash(d, c, k)
  {
    hide Times;
  }

  lemma ReturnedLists(s: Sender, at: nat, back: nat)
    requires at < |s.sent| && back <= |s.outgoing|
    ensures var c, s1 := s.sent[at], Returned(s, at, back);
      && s1.sent == Without(s.sent, at) && s1.outgoing == Insert(s.outgoing, back, Late(c))
      && s1.channels == s.channels && s1.limits == s.limits
      && s1.inTransit == (if c.packet.Data? then Minus(s.inTransit, LengthWord(c.packet)) else s.inTransit)
  {
    hide Minus, LengthWord, Times;
  }

  lemma MinusExact(a: uint32, p: Packet)
    requires Length(p) <= a && Length(p) < 4096
    ensures Minus(a, LengthWord(p)) == a - Length(p)
  {
  }

  lemma InsertQueue(queue: seq<Command>, at: nat, c: Command, k: nat)
    requires QueueOk(queue, k) && AttemptedTo(queue, at) && c.sendAttempts >= 1
    ensures QueueOk(Insert(queue, at, c), k) && AttemptedTo(Insert(queue, at, c), at + 1)
  {
    InsertMembers(queue, at, c);
    var more := Insert(queue, at, c);
    assert forall a {:trigger more[a]} :: 0 <= a < |more| && a != at ==> more[a] == queue[if a < at then a else a - 1];
    hide Insert;
  }

  lemma ReturnedKept(s: Sender, s1: Sender, flows: Flows, c: Command, c1: Command)
    requires NothingLost(s, flows) && c1.channelID == c.channelID && c1.number == c.number
    requires forall d :: d in s.sent ==> d == c || d in s1.sent
    requires forall d :: d in s.outgoing || d == c1 ==> d in s1.outgoing
    ensures NothingLost(s1, flows)
  {
    forall j, n | 0 <= j < |flows| && 1 <= n <= |flows[j].log| && n !in flows[j].acked ensures Kept(s1, j, n) {
      assert Kept(s, j, n);
      var d :| (d in s.sent || d in s.outgoing) && d.channelID == j && d.number == n;
      assert d in s1.sent || d in s1.outgoing || c1 in s1.outgoing;
    }
  }

  /** Checking the timeouts keeps the invariant: late commands go back in front of the new ones. */
  lemma {:induction false} TimedOutOk(s: Sender, flows: Flows, at: nat, back: nat, now: uint32)
    requires SenderOk(s, flows) && at <= |s.sent| && AttemptedTo(s.outgoing, back)
    ensures SenderOk(TimedOut(s, at, back, now).0, flows)
    decreases |s.sent| - at
  {
    hide InTime, Earliest, GivenUp, Returned;
    if at == |s.sent| {
    } else if InTime(s.sent[at], now) {
      TimedOutOk(s, flows, at + 1, back, now);
    } else {
      var s1 := s.(earliestTimeout := Earliest(s.earliestTimeout, s.sent[at]));
      assert SenderOk(s1, flows) by { OnlyTimes(s, s1, flows); }
      if !GivenUp(s1.earliestTimeout, s1.sent[at], s1.limits, now) {
        ReturnedOk(s1, flows, at, back);
        TimedOutOk(Returned(s1, at, back), flows, at, back + 1, now);
      }
    }
  }

  lemma OnlyTimes(s: Sender, s1: Sender, flows: Flows)
    requires SenderOk(s, flows) && s1 == s.(earliestTimeout := s1.earliestTimeout)
    ensures SenderOk(s1, flows)
  {
    hide FlowsOk;
    forall j, n | 0 <= j < |flows| && 1 <= n <= |flows[j].log| && n !in flows[j].acked ensures Kept(s1, j, n) {
      assert Kept(s, j, n);
    }
  }

  // ----- acknowledgements -----

  function AckedFlows(flows: Flows, k: nat, n: nat): Flows {
    if k < |flows| then flows[k := flows[k].(acked := flows[k].acked + {n})] else flows
  }

  /** A command is taken off one of the lists. */
  lemma CommandRemoved(s: Sender, s1: Sender, flows: Flows, c: Command)
    requires SenderOk(s, flows) && (c in s.sent || c in s.outgoing) && c.sendAttempts >= 1
    requires s1.limits == s.limits && s1.channels == ReleasedIn(s.channels, c.channelID, c.sequence)
    requires ListsOk(s1, flows) && NoneLike(s1.sent, c, |flows|) && NoneLike(s1.outgoing, c, |flows|)
    requires forall d :: d in s.sent ==> d == c || d in s1.sent
    requires forall d :: d in s.outgoing ==> d == c || d in s1.outgoing
    requires TransitOk(s1)
    ensures SenderOk(s1, AckedFlows(flows, c.channelID, c.number))
  {
    var flows1 := AckedFlows(flows, c.channelID, c.number);
    hide FlowOk, CountersOk, Released, Apart, QueueOk, Disjoint;
    if c.channelID < |flows| {
      var f := flows[c.channelID];
      assert CommandOk(c, flows);
      assert FlowOk(f) && CountersOk(s.channels[c.channelID], f);
      OneAcked(s.channels[c.channelID], f, c.number, c.sequence);
    }
    assert FlowsOk(s1.channels, flows1);
    hide FlowsOk;
    forall d | d in s1.sent ensures CommandOk(d, flows1) {
      assert CommandOk(d, flows) && !Clash(d, c, |flows|);
    }
    forall d | d in s1.outgoing ensures CommandOk(d, flows1) {
      assert CommandOk(d, flows) && !Clash(d, c, |flows|);
    }
    RemovedKept(s, s1, flows, c);
  }

  lemma RemovedKept(s: Sender, s1: Sender, flows: Flows, c: Command)
    requires NothingLost(s, flows)
    requires forall d :: d in s.sent ==> d == c || d in s1.sent
    requires forall d :: d in s.outgoing ==> d == c || d in s1.outgoing
    ensures NothingLost(s1, AckedFlows(flows, c.channelID, c.number))
  {
    var flows1 := AckedFlows(flows, c.channelID, c.number);
    forall j, n | 0 <= j < |flows1| && 1 <= n <= |flows1[j].log| && n !in flows1[j].acked ensures Kept(s1, j, n) {
      assert Kept(s, j, n);
      var d :| (d in s.sent || d in s.outgoing) && d.channelID == j && d.number == n;
      assert d != c;
    }
  }

  lemma RemovedSentOk(s: Sender, flows: Flows, i: nat)
    requires SenderOk(s, flows) && ChannelsOk(s.channels) && i < |s.sent|
    ensures SenderOk(RemovedSent(s, i), AckedFlows(flows, s.sent[i].channelID, s.sent[i].number))
  {
    hide FlowsOk, CommandOk, Fits, Released, Length, LengthWord, Minus, NextTimeout, DataSum, ReleasedIn, NothingLost;
    var c, k, s1 := s.sent[i], |flows|, RemovedSent(s, i);
    assert c in s.sent;
    WithoutMembers(s.sent, i);
    WithoutApart(s.sent, i, k);
    WithoutSum(s.sent, i);
    LengthSmall(c, s.limits.mtu);
    if c.packet.Data? { MinusExact(s.inTransit, c.packet); }
    assert NoneLike(s.outgoing, c, k) by { DisjointLike(s.sent, s.outgoing, c, k); }
    assert ListsOk(s1, flows);
    hide ListsOk, Apart, QueueOk, Without;
    CommandRemoved(s, s1, flows, c);
  }

  lemma DisjointLike(a: seq<Command>, b: seq<Command>, c: Command, k: nat)
    requires Disjoint(a, b, k)
    ensures c in a ==> NoneLike(b, c, k)
    ensures c in b ==> NoneLike(a, c, k)
  {
    if c in a {
      forall d | d in b ensures !Clash(d, c, k) {
        assert !Clash(c, d, k);
      }
    }
  }

  lemma RemovedQueuedOk(s: Sender, flows: Flows, j: nat)
    requires SenderOk(s, flows) && ChannelsOk(s.channels) && j < |s.outgoing| && s.outgoing[j].sendAttempts >= 1
    ensures SenderOk(RemovedQueued(s, j), AckedFlows(flows, s.outgoing[j].channelID, s.outgoing[j].number))
  {
    hide FlowsOk, CommandOk, Fits, Released, NextTimeout, DataSum, ReleasedIn, NothingLost;
    var c, k, s1 := s.outgoing[j], |flows|, RemovedQueued(s, j);
    assert c in s.outgoing;
    WithoutMembers(s.outgoing, j);
    WithoutApart(s.outgoing, j, k);
    WithoutQueue(s.outgoing, j, k);
    assert NoneLike(s.sent, c, k) by { DisjointLike(s.sent, s.outgoing, c, k); }
    assert ListsOk(s1, flows);
    hide ListsOk, Apart, QueueOk, Without;
    CommandRemoved(s, s1, flows, c);
  }

  lemma {:induction false} SearchFinds(commands: seq<Command>, sequence: uint16, channelID: nat, queue: bool, from: nat)
    requires from <= |commands| && Search(commands, sequence, channelID, queue, from) < 0
    requires queue ==> forall i, j {:trigger commands[i], commands[j]} ::
      0 <= i < j < |commands| && commands[j].sendAttempts >= 1 ==>
      commands[i].sendAttempts >= 1
    ensures forall i {:trigger commands[i]} :: from <= i < |commands| && (queue ==> commands[i].sendAttempts >= 1) ==>
      !Answers(commands[i], sequence, channelID)
    decreases |commands| - from
  {
    if from < |commands| && !(queue && commands[from].sendAttempts < 1) {
      SearchFinds(commands, sequence, channelID, queue, from + 1);
    }
  }

  lemma SearchNone(commands: seq<Command>, sequence: uint16, channelID: nat, queue: bool)
    requires Search(commands, sequence, channelID, queue, 0) < 0
    requires queue ==> forall i, j {:trigger commands[i], commands[j]} ::
      0 <= i < j < |commands| && commands[j].sendAttempts >= 1 ==>
      commands[i].sendAttempts >= 1
    ensures forall c {:trigger c in commands} :: c in commands && c.sendAttempts >= 1 ==>
      !Answers(c, sequence, channelID)
  {
    SearchFinds(commands, sequence, channelID, queue, 0);
    hide Answers, Search;
  }

  /** What an acknowledgement of number `n` finds is command `n`: an open command's 16 bits
      are its own. */
  lemma OnlyThatOne(s: Sender, flows: Flows, k: nat, n: nat, c: Command)
    requires SenderOk(s, flows) && k < |flows| && 1 <= n <= flows[k].first && Window(flows[k].first) <= Window(n) + 8
    requires CommandOk(c, flows) && c.sendAttempts >= 1 && Answers(c, Seq(n), k)
    ensures c.number == n
  {
    var f := flows[k];
    assert FlowOk(f) && Open(f, c.number);
    InsideWindow(n, f.first);
    InsideWindow(c.number, f.first);
    SeqUnique(n, c.number);
  }

  /** An acknowledgement of command `n`, unless it is long out of date, takes exactly that
      command off the peer, if it is still there. */
  lemma AcknowledgedOk(s: Sender, flows: Flows, k: nat, n: nat)
    requires SenderOk(s, flows) && ChannelsOk(s.channels)
    requires k < |flows| && 1 <= n <= flows[k].first && Window(flows[k].first) <= Window(n) + 8
    ensures SenderOk(Acknowledged(s, Seq(n), k), AckedFlows(flows, k, n))
  {
    hide SenderOk, RemovedSent, RemovedQueued, CommandOk, Answers;
    var i := Search(s.sent, Seq(n), k, false, 0);
    var j := Search(s.outgoing, Seq(n), k, true, 0);
    SenderLists(s, flows);
    if i >= 0 {
      assert s.sent[i] in s.sent;
      AnswersFields(s.sent[i], Seq(n), k);
      OnlyThatOne(s, flows, k, n, s.sent[i]);
      RemovedSentOk(s, flows, i);
    } else if j >= 0 {
      assert s.outgoing[j] in s.outgoing;
      AnswersFields(s.outgoing[j], Seq(n), k);
      OnlyThatOne(s, flows, k, n, s.outgoing[j]);
      RemovedQueuedOk(s, flows, j);
    } else {
      SearchNone(s.sent, Seq(n), k, false);
      SearchNone(s.outgoing, Seq(n), k, true);
      SomethingHeld(s, flows, k, n);
      if s.sent + s.outgoing != [] {
        var _ := HeldAnswer(s, flows, k, n);
      }
      assert flows[k].acked + {n} == flows[k].acked;
      assert AckedFlows(flows, k, n) == flows;
    }
  }

  /** An acknowledgement of one of the peer's own commands, whatever number it names, leaves the
      channels as they are. */
  lemma OwnAcknowledgedOk(s: Sender, flows: Flows, sequence: uint16)
    requires SenderOk(s, flows) && ChannelsOk(s.channels) && |flows| <= 0xFF
    ensures SenderOk(Acknowledged(s, sequence, 0xFF), flows)
  {
    hide SenderOk, RemovedSent, RemovedQueued, CommandOk, Answers;
    var i := Search(s.sent, sequence, 0xFF, false, 0);
    var j := Search(s.outgoing, sequence, 0xFF, true, 0);
    if i >= 0 {
      AnswersFields(s.sent[i], sequence, 0xFF);
      RemovedSentOk(s, flows, i);
    } else if j >= 0 {
      AnswersFields(s.outgoing[j], sequence, 0xFF);
      RemovedQueuedOk(s, flows, j);
    }
  }

  lemma AnswersFields(c: Command, sequence: uint16, k: nat)
    requires Answers(c, sequence, k)
    ensures c.sequence == sequence && c.channelID == k
  {
  }

  lemma SenderLists(s: Sender, flows: Flows)
    requires SenderOk(s, flows)
    ensures forall c :: c in s.sent ==> CommandOk(c, flows) && c.sendAttempts >= 1
    ensures forall c :: c in s.outgoing ==> CommandOk(c, flows)
    ensures forall i, j {:trigger s.outgoing[i], s.outgoing[j]} ::
      0 <= i < j < |s.outgoing| && s.outgoing[j].sendAttempts >= 1 ==>
      s.outgoing[i].sendAttempts >= 1
  {
    hide FlowsOk, CommandOk, Fits, NothingLost;
  }

  /** The command an open number's acknowledgement answers. */
  lemma HeldAnswer(s: Sender, flows: Flows, k: nat, n: nat) returns (d: Command)
    requires SenderOk(s, flows) && k < |flows| && 1 <= n <= flows[k].first && s.sent + s.outgoing != []
    ensures n !in flows[k].acked ==> d in s.sent || d in s.outgoing
    ensures n !in flows[k].acked ==> d.sendAttempts >= 1 && Answers(d, Seq(n), k)
  {
    assert FlowOk(flows[k]);
    hide FlowsOk, FlowOk, CountersOk, QueueOk, Apart, Disjoint;
    d := (s.sent + s.outgoing)[0];
    if n !in flows[k].acked {
      assert n <= |flows[k].log|;
      assert Kept(s, k, n);
      d :| (d in s.sent || d in s.outgoing) && d.channelID == k && d.number == n;
      assert CommandOk(d, flows);
    }
  }

  lemma SomethingHeld(s: Sender, flows: Flows, k: nat, n: nat)
    requires SenderOk(s, flows) && k < |flows| && 1 <= n <= flows[k].first
    ensures n !in flows[k].acked ==> s.sent + s.outgoing != []
  {
    assert FlowOk(flows[k]);
    hide FlowsOk, FlowOk, ListsOk;
    assert n !in flows[k].acked ==> Kept(s, k, n);
  }
}
