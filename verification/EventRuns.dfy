/** What the application is told, over whole runs: the packets of every connection in the order in
    which they became ready, with nothing left out; and which event a dispatch reports. */
module EventRuns {
  import opened PeerInvariants
  import opened PeerRuns
  import opened PeerStates

  // ----- the packets of a connection -----

  /** A packet that became ready on a connection. */
  datatype Arrival = Arrival(slot: nat, epoch: nat, packet: nat)

  function Tagged(slot: nat, epoch: nat, packets: seq<nat>): seq<Arrival> {
    seq(|packets|, n requires 0 <= n < |packets| => Arrival(slot, epoch, packets[n]))
  }

  /** Everything that became ready in a run, in order. */
  function Arrivals(run: seq<HostState>, steps: seq<Step>, k: nat): seq<Arrival>
    requires k <= |steps| < |run|
  {
    if k == 0 then [] else
      var h := run[k - 1];
      Arrivals(run, steps, k - 1)
      + match steps[k - 1]
        case Packets(i, packets) =>
          if i < |h.peers| && InData(h.peers[i].state) then Tagged(i, h.peers[i].epoch, packets) else []
        case _ => []
  }

  /** The packets that became ready on one connection. */
  function On(arrivals: seq<Arrival>, slot: nat, epoch: nat): seq<nat> {
    if arrivals == [] then [] else
      var a := arrivals[|arrivals| - 1];
      On(arrivals[..|arrivals| - 1], slot, epoch) + if a.slot == slot && a.epoch == epoch then [a.packet] else []
  }

  /** Those that the application was given, reported or taken. */
  function Given(events: seq<Event>, slot: nat, epoch: nat): seq<nat> {
    if events == [] then [] else
      var e := events[|events| - 1];
      Given(events[..|events| - 1], slot, epoch)
      + if IsPacket(e.kind) && e.slot == slot && e.epoch == epoch then [e.kind.packet] else []
  }

  /** What a peer's connection was given, and what is ready of it, are the first packets that arrived
      on it, in order; and all of them while the peer is live. */
  ghost predicate PeerPackets(events: seq<Event>, arrivals: seq<Arrival>, i: nat, p: Peer) {
    && Given(events, i, p.epoch) + p.dispatchedCommands <= On(arrivals, i, p.epoch)
    && (Live(p) ==> Given(events, i, p.epoch) + p.dispatchedCommands == On(arrivals, i, p.epoch))
  }

  ghost predicate PacketsOk(h: HostState, arrivals: seq<Arrival>) {
    && (forall i {:trigger h.peers[i]} :: 0 <= i < |h.peers| ==> PeerPackets(h.events, arrivals, i, h.peers[i]))
    && (forall i: nat, e: nat {:trigger Given(h.events, i, e)} {:trigger On(arrivals, i, e)} ::
          Given(h.events, i, e) <= On(arrivals, i, e))
    && (forall i: nat, e: nat {:trigger On(arrivals, i, e)} :: i < |h.peers| && e > h.peers[i].epoch ==>
          On(arrivals, i, e) == [])
  }

  /** A new event adds its packet to its own connection only. */
  lemma GivenMore(events: seq<Event>, events1: seq<Event>, slot: nat, epoch: nat)
    requires events <= events1 && |events1| == |events| + 1
    ensures var e := events1[|events|];
      Given(events1, slot, epoch)
      == Given(events, slot, epoch)
         + if IsPacket(e.kind) && e.slot == slot && e.epoch == epoch then [e.kind.packet] else []
  {
    assert events1[..|events|] == events;
  }

  lemma {:induction false} OnTagged(arrivals: seq<Arrival>, i: nat, n: nat, packets: seq<nat>, slot: nat, epoch: nat)
    ensures On(arrivals + Tagged(i, n, packets), slot, epoch)
         == On(arrivals, slot, epoch) + if slot == i && epoch == n then packets else []
    decreases |packets|
  {
    if packets == [] {
      assert arrivals + Tagged(i, n, []) == arrivals;
    } else {
      var m := |packets| - 1;
      OnTagged(arrivals, i, n, packets[..m], slot, epoch);
      var all := arrivals + Tagged(i, n, packets);
      assert all[..|all| - 1] == arrivals + Tagged(i, n, packets[..m]);
      assert all[|all| - 1] == Arrival(i, n, packets[m]);
      assert packets[..m] + [packets[m]] == packets;
    }
  }

  lemma NoneHandedKeeps(h: HostState, h1: HostState, i: nat, arrivals: seq<Arrival>)
    requires PacketsOk(h, arrivals) && i < |h.peers| == |h1.peers| && h1.peers == h.peers[i := h1.peers[i]]
    requires h.events <= h1.events && NoneHanded(h, h1, i)
    ensures PacketsOk(h1, arrivals)
  {
    hide Live;
    forall j: nat, e: nat ensures Given(h1.events, j, e) == Given(h.events, j, e) {
      if h1.events != h.events { GivenMore(h.events, h1.events, j, e); }
    }
    forall j {:trigger h1.peers[j]} | 0 <= j < |h1.peers|
      ensures PeerPackets(h1.events, arrivals, j, h1.peers[j])
    {
      var _ := h.peers[j];
      assert Given(h.events, j, h1.peers[j].epoch) <= On(arrivals, j, h1.peers[j].epoch);
    }
  }

  /** How one hand-over or arrival changes what was given of a connection and what arrived on it. */
  ghost predicate GivenGrows(events: seq<Event>, events1: seq<Event>, i: nat, epoch: nat, packets: seq<nat>) {
    forall j: nat, e: nat {:trigger Given(events1, j, e)} ::
      Given(events1, j, e) == Given(events, j, e) + if j == i && e == epoch then packets else []
  }

  ghost predicate OnGrows(arrivals: seq<Arrival>, arrivals1: seq<Arrival>, i: nat, epoch: nat, packets: seq<nat>) {
    forall j: nat, e: nat {:trigger On(arrivals1, j, e)} ::
      On(arrivals1, j, e) == On(arrivals, j, e) + if j == i && e == epoch then packets else []
  }

  lemma FirstHandedKeeps(h: HostState, h1: HostState, i: nat, arrivals: seq<Arrival>)
    requires PacketsOk(h, arrivals) && i < |h.peers| == |h1.peers| && h1.peers == h.peers[i := h1.peers[i]]
    requires h.events <= h1.events && FirstHanded(h, h1, i)
    ensures PacketsOk(h1, arrivals)
  {
    var p, p1, packet := h.peers[i], h1.peers[i], h1.events[|h.events|].kind.packet;
    forall j: nat, e: nat
      ensures Given(h1.events, j, e) == Given(h.events, j, e) + if j == i && e == p.epoch then [packet] else []
    {
      GivenMore(h.events, h1.events, j, e);
    }
    assert GivenGrows(h.events, h1.events, i, p.epoch, [packet]);
    LiveWith(p);
    hide IsPacket, Given, On;
    HandedPackets(h, h1, i, packet, arrivals);
  }

  lemma HandedPackets(h: HostState, h1: HostState, i: nat, packet: nat, arrivals: seq<Arrival>)
    requires PacketsOk(h, arrivals) && i < |h.peers| == |h1.peers| && h1.peers == h.peers[i := h1.peers[i]]
    requires GivenGrows(h.events, h1.events, i, h.peers[i].epoch, [packet]) && h1.peers[i].epoch == h.peers[i].epoch
    requires Live(h.peers[i]) && h.peers[i].dispatchedCommands == [packet] + h1.peers[i].dispatchedCommands
    ensures PacketsOk(h1, arrivals)
  {
    hide Live, Given, On, PeerPackets, GivenGrows;
    forall j {:trigger h1.peers[j]} | 0 <= j < |h1.peers|
      ensures PeerPackets(h1.events, arrivals, j, h1.peers[j])
    {
      HandedPeer(h, h1, i, packet, arrivals, j);
    }
    forall j: nat, e: nat ensures Given(h1.events, j, e) <= On(arrivals, j, e) {
      HandedGiven(h, h1, i, packet, arrivals, j, e);
    }
  }

  lemma HandedPeer(h: HostState, h1: HostState, i: nat, packet: nat, arrivals: seq<Arrival>, j: nat)
    requires PacketsOk(h, arrivals) && i < |h.peers| == |h1.peers| && h1.peers == h.peers[i := h1.peers[i]]
    requires GivenGrows(h.events, h1.events, i, h.peers[i].epoch, [packet]) && h1.peers[i].epoch == h.peers[i].epoch
    requires Live(h.peers[i]) && h.peers[i].dispatchedCommands == [packet] + h1.peers[i].dispatchedCommands
    requires j < |h1.peers|
    ensures PeerPackets(h1.events, arrivals, j, h1.peers[j])
  {
    hide Live, Given, On;
    assert PeerPackets(h.events, arrivals, j, h.peers[j]);
    var p, p1 := h.peers[i], h1.peers[i];
    assert Given(h.events, i, p.epoch) + ([packet] + p1.dispatchedCommands)
        == Given(h1.events, i, p.epoch) + p1.dispatchedCommands;
  }

  lemma HandedGiven(h: HostState, h1: HostState, i: nat, packet: nat, arrivals: seq<Arrival>, j: nat, e: nat)
    requires PacketsOk(h, arrivals) && i < |h.peers| == |h1.peers| && h1.peers == h.peers[i := h1.peers[i]]
    requires GivenGrows(h.events, h1.events, i, h.peers[i].epoch, [packet]) && h1.peers[i].epoch == h.peers[i].epoch
    requires Live(h.peers[i]) && h.peers[i].dispatchedCommands == [packet] + h1.peers[i].dispatchedCommands
    ensures Given(h1.events, j, e) <= On(arrivals, j, e)
  {
    hide Live, Given, On;
    assert Given(h.events, j, e) <= On(arrivals, j, e);
    assert PeerPackets(h.events, arrivals, i, h.peers[i]);
  }

  lemma LiveWith(p: Peer)
    requires p.dispatchedCommands != []
    ensures Live(p)
  {
  }

  lemma ArrivedKeeps(h: HostState, i: nat, packets: seq<nat>, arrivals: seq<Arrival>)
    requires PacketsOk(h, arrivals) && i < |h.peers|
    ensures PacketsOk(Arrived(h, i, packets),
                      if InData(h.peers[i].state) then arrivals + Tagged(i, h.peers[i].epoch, packets) else arrivals)
  {
    var p, h1 := h.peers[i], Arrived(h, i, packets);
    if InData(p.state) {
      var arrivals1 := arrivals + Tagged(i, p.epoch, packets);
      forall j: nat, e: nat
        ensures On(arrivals1, j, e) == On(arrivals, j, e) + if j == i && e == p.epoch then packets else []
      {
        OnTagged(arrivals, i, p.epoch, packets, j, e);
      }
      assert OnGrows(arrivals, arrivals1, i, p.epoch, packets);
      assert h1.events == h.events && h1.peers == h.peers[i := h1.peers[i]];
      assert Live(p);
      hide Given, On, Tagged, Live, PacketsOk, OnGrows;
      ArrivedPackets(h, h1, i, packets, arrivals, arrivals1);
    }
  }

  lemma ArrivedPackets(h: HostState, h1: HostState, i: nat, packets: seq<nat>, arrivals: seq<Arrival>,
                       arrivals1: seq<Arrival>)
    requires PacketsOk(h, arrivals) && i < |h.peers| == |h1.peers| && h1.peers == h.peers[i := h1.peers[i]]
    requires OnGrows(arrivals, arrivals1, i, h.peers[i].epoch, packets) && h1.events == h.events
    requires Live(h.peers[i]) && h1.peers[i].epoch == h.peers[i].epoch
    requires h1.peers[i].dispatchedCommands == h.peers[i].dispatchedCommands + packets
    ensures PacketsOk(h1, arrivals1)
  {
    var p, p1 := h.peers[i], h1.peers[i];
    hide Live, Given, On;
    assert Given(h.events, i, p.epoch) + p.dispatchedCommands + packets
        == Given(h.events, i, p.epoch) + p1.dispatchedCommands;
    forall j {:trigger h1.peers[j]} | 0 <= j < |h1.peers|
      ensures PeerPackets(h1.events, arrivals1, j, h1.peers[j])
    {
      assert PeerPackets(h.events, arrivals, j, h.peers[j]);
    }
    forall j: nat, e: nat ensures Given(h1.events, j, e) <= On(arrivals1, j, e) {
      assert Given(h.events, j, e) <= On(arrivals, j, e);
    }
  }

  lemma HandsPackets(h: HostState, h1: HostState, i: nat, arrivals: seq<Arrival>)
    requires Hands(h, h1, i) && PacketsOk(h, arrivals)
    ensures PacketsOk(h1, arrivals)
  {
    hide PacketsOk, NoneHanded, FirstHanded, QueueNet, MarkOk, AnnouncedOk, EventsNet;
    if NoneHanded(h, h1, i) {
      NoneHandedKeeps(h, h1, i, arrivals);
    } else {
      FirstHandedKeeps(h, h1, i, arrivals);
    }
  }

  lemma {:induction false} DispatchPackets(h: HostState, arrivals: seq<Arrival>)
    requires Inv(h) && QueueInside(h) && PacketsOk(h, arrivals)
    ensures PacketsOk(Dispatch(h).0, arrivals)
    decreases |h.dispatchQueue|
  {
    hide Inv, DispatchFirst, Hands, PacketsOk;
    if h.dispatchQueue != [] {
      DispatchFirstNet(h);
      HandsKeeps(h, DispatchFirst(h).0, h.dispatchQueue[0]);
      HandsPackets(h, DispatchFirst(h).0, h.dispatchQueue[0], arrivals);
      FirstInside(h);
      if !DispatchFirst(h).1 {
        DispatchPackets(DispatchFirst(h).0, arrivals);
      }
    }
  }

  lemma BeginPackets(h: HostState, s: State, incomingBandwidth: nat, data: nat, arrivals: seq<Arrival>)
    requires Inv(h) && (s.Connecting? || s.AcknowledgingConnect?) && PacketsOk(h, arrivals)
    ensures var i := FreeSlot(h.peers);
      i < |h.peers| ==> PacketsOk(With(h, i, Begun(h.peers[i], s, incomingBandwidth, data)), arrivals)
  {
    hide Inv, Hands, PacketsOk;
    var i := FreeSlot(h.peers);
    if i < |h.peers| {
      BegunNet(h, i, s, incomingBandwidth, data);
      HandsPackets(h, With(h, i, Begun(h.peers[i], s, incomingBandwidth, data)), i, arrivals);
    }
  }

  lemma StepPackets(run: seq<HostState>, steps: seq<Step>, k: nat)
    requires IsRun(run, steps) && k < |steps| && Inv(run[k]) && PacketsOk(run[k], Arrivals(run, steps, k))
    ensures PacketsOk(run[k + 1], Arrivals(run, steps, k + 1))
  {
    var h, step, arrivals := run[k], steps[k], Arrivals(run, steps, k);
    assert Enabled(h, step) && run[k + 1] == Next(h, step);
    hide Inv, Hands, PacketsOk, QueueInside, Begun, HandleVerifyConnect, HandleAcknowledge, HandleDisconnect,
      OwesDisconnect, SendDisconnectAcknowledgement, HandleBandwidthLimit, Arrived, NotifyDisconnect, Dispatch,
      PeerDisconnect, PeerDisconnectNow, PeerDisconnectLater, Reset, PeerReceive, With, Tagged;
    assert arrivals + [] == arrivals;
    match step
    case HostConnect => BeginPackets(h, Connecting, 0, 0, arrivals);
    case HostAccept(incomingBandwidth, data) =>
      BeginPackets(h, AcknowledgingConnect, incomingBandwidth, data, arrivals);
    case DispatchEvents => DispatchPackets(h, arrivals);
    case Packets(i, packets) => ArrivedKeeps(h, i, packets, arrivals);
    case _ =>
      StepHands(h, step);
      HandsPackets(h, Next(h, step), step.slot, arrivals);
  }

  lemma {:induction false} RunPackets(run: seq<HostState>, steps: seq<Step>, k: nat)
    requires IsRun(run, steps) && k <= |steps|
    ensures PacketsOk(run[k], Arrivals(run, steps, k))
    decreases k
  {
    if k > 0 {
      RunPackets(run, steps, k - 1);
      RunOk(run, steps, k - 1);
      StepPackets(run, steps, k - 1);
    }
  }

  /** In every run and for every connection, what the application was given is, in order, the first
      packets that arrived; and with what is ready it is all of them, until the peer's queues are
      cleared. */
  lemma GivenInOrder(run: seq<HostState>, steps: seq<Step>, k: nat, i: nat, epoch: nat)
    requires IsRun(run, steps) && k <= |steps| && i < |run[k].peers|
    ensures var h, arrived := run[k], On(Arrivals(run, steps, k), i, epoch);
      var p, given := h.peers[i], Given(h.events, i, epoch);
      && given <= arrived
      && (epoch == p.epoch && (InData(p.state) || p.dispatchedCommands != []) ==>
            given + p.dispatchedCommands == arrived)
  {
    RunPackets(run, steps, k);
    hide IsRun, Given, On;
    assert PeerPackets(run[k].events, Arrivals(run, steps, k), i, run[k].peers[i]);
  }

  // ----- which event a dispatch reports -----

  predicate Ready(p: Peer) { MustDispatch(p.state) || (p.state.Connected? && p.dispatchedCommands != []) }

  /** What there is to report of peer `i`. */
  function EventFor(i: nat, p: Peer): Event
    requires Ready(p)
  {
    match p.state
    case Connected => Event(i, p.epoch, Receive(p.dispatchedCommands[0]), 0)
    case Zombie => Event(i, p.epoch, Disconnect, p.eventData)
    case _ => Event(i, p.epoch, Connect, p.eventData)
  }

  ghost predicate FirstReady(h: HostState, n: nat) {
    && n < |h.dispatchQueue| && h.dispatchQueue[n] < |h.peers| && Ready(h.peers[h.dispatchQueue[n]])
    && forall m {:trigger h.dispatchQueue[m]} :: 0 <= m < n ==>
         h.dispatchQueue[m] < |h.peers| && !Ready(h.peers[h.dispatchQueue[m]])
  }

  /** What is left of the queue: those behind the peer reported, and that one again when it has more
      packets. */
  function LeftOf(h: HostState, n: nat): seq<nat>
    requires n < |h.dispatchQueue| && h.dispatchQueue[n] < |h.peers|
  {
    var p := h.peers[h.dispatchQueue[n]];
    h.dispatchQueue[n + 1..] + if p.state.Connected? && |p.dispatchedCommands| > 1 then [h.dispatchQueue[n]] else []
  }

  ghost predicate ReportsAt(h: HostState, h1: HostState, n: nat) {
    && FirstReady(h, n)
    && h1.events == h.events + [EventFor(h.dispatchQueue[n], h.peers[h.dispatchQueue[n]])]
    && h1.dispatchQueue == LeftOf(h, n)
  }

  lemma FirstReports(h: HostState)
    requires QueueInside(h) && Distinct(h.dispatchQueue) && h.dispatchQueue != []
    ensures h.dispatchQueue[0] < |h.peers|
    ensures var (h1, reported) := DispatchFirst(h);
      && reported == Ready(h.peers[h.dispatchQueue[0]])
      && (reported ==> ReportsAt(h, h1, 0))
      && (!reported ==> h1 == Unmarked(h, h.dispatchQueue[0]))
  {
    FirstInside(h);
    var i := h.dispatchQueue[0];
    var p := h.peers[i];
    hide Removed;
    if p.state.Connected? && |p.dispatchedCommands| == 1 {
      assert p.dispatchedCommands[1..] == [];
    }
  }

  /** A dispatch reports exactly when some peer has an event: that of the first such peer of the
      queue, which goes to the end of it while it has more packets. */
  lemma {:induction false} DispatchReports(h: HostState)
    requires QueueInside(h) && Distinct(h.dispatchQueue)
    ensures var (h1, reported) := Dispatch(h);
      && (reported ==> exists n {:trigger FirstReady(h, n)} :: FirstReady(h, n) && ReportsAt(h, h1, n))
      && (!reported ==> h1.events == h.events)
      && (!reported ==> forall m {:trigger h.dispatchQueue[m]} :: 0 <= m < |h.dispatchQueue| ==>
            !Ready(h.peers[h.dispatchQueue[m]]))
    decreases |h.dispatchQueue|
  {
    hide DispatchFirst, Ready, MustDispatch;
    if h.dispatchQueue != [] {
      FirstInside(h);
      FirstReports(h);
      var (h1, reported) := DispatchFirst(h);
      if reported {
        assert FirstReady(h, 0);
      } else {
        UnmarkedReady(h);
        DispatchReports(h1);
        var (h2, later) := Dispatch(h1);
        if later {
          var n :| FirstReady(h1, n) && ReportsAt(h1, h2, n);
          LaterReports(h, h2, n);
        } else {
          forall m {:trigger h.dispatchQueue[m]} | 0 <= m < |h.dispatchQueue|
            ensures !Ready(h.peers[h.dispatchQueue[m]])
          {
            if m > 0 { assert h1.dispatchQueue[m - 1] == h.dispatchQueue[m]; }
          }
        }
      }
    }
  }

  /** Taking a peer off the queue changes nothing of the others. */
  lemma UnmarkedReady(h: HostState)
    requires QueueInside(h) && Distinct(h.dispatchQueue) && h.dispatchQueue != [] && h.dispatchQueue[0] < |h.peers|
    ensures var h1 := Unmarked(h, h.dispatchQueue[0]);
      && QueueInside(h1) && Distinct(h1.dispatchQueue)
      && forall m {:trigger h1.dispatchQueue[m]} :: 0 <= m < |h1.dispatchQueue| ==>
           h1.dispatchQueue[m] == h.dispatchQueue[m + 1]
           && h1.peers[h1.dispatchQueue[m]] == h.peers[h1.dispatchQueue[m]]
  {
    var h1 := Unmarked(h, h.dispatchQueue[0]);
    assert forall m {:trigger h1.dispatchQueue[m]} :: 0 <= m < |h1.dispatchQueue| ==>
      h1.dispatchQueue[m] == h.dispatchQueue[m + 1];
  }

  lemma LaterReports(h: HostState, h2: HostState, n: nat)
    requires QueueInside(h) && Distinct(h.dispatchQueue) && h.dispatchQueue != [] && h.dispatchQueue[0] < |h.peers|
    requires !Ready(h.peers[h.dispatchQueue[0]]) && ReportsAt(Unmarked(h, h.dispatchQueue[0]), h2, n)
    ensures FirstReady(h, n + 1) && ReportsAt(h, h2, n + 1)
  {
    hide Ready;
    UnmarkedReady(h);
    var h1 := Unmarked(h, h.dispatchQueue[0]);
    assert h1.dispatchQueue[n] == h.dispatchQueue[n + 1];
    forall m {:trigger h.dispatchQueue[m]} | 0 <= m < n + 1
      ensures h.dispatchQueue[m] < |h.peers| && !Ready(h.peers[h.dispatchQueue[m]])
    {
      if m > 0 { assert h1.dispatchQueue[m - 1] == h.dispatchQueue[m]; }
    }
    assert h1.dispatchQueue[n + 1..] == h.dispatchQueue[n + 2..];
  }

  /** In every run a dispatch reports an event if and only if some peer has one. */
  lemma NothingHeldBack(run: seq<HostState>, steps: seq<Step>, k: nat)
    requires IsRun(run, steps) && k <= |steps|
    ensures QueueInside(run[k])
    ensures Dispatch(run[k]).1 <==>
      exists i {:trigger run[k].peers[i]} :: 0 <= i < |run[k].peers| && Ready(run[k].peers[i])
  {
    RunOk(run, steps, k);
    hide IsRun;
    var h := run[k];
    DispatchAll(h);
  }

  lemma DispatchAll(h: HostState)
    requires Inv(h)
    ensures QueueInside(h)
    ensures Dispatch(h).1 <==> exists i {:trigger h.peers[i]} :: 0 <= i < |h.peers| && Ready(h.peers[i])
  {
    hide CountersOk, EventsOk, Dispatch;
    var q := h.dispatchQueue;
    assert forall k {:trigger q[k]} :: 0 <= k < |q| ==> q[k] in q;
    DispatchReports(h);
    if i :| 0 <= i < |h.peers| && Ready(h.peers[i]) {
      assert MarkOk(h.peers[i]) && i in q;
    }
    if Dispatch(h).1 {
      var n: nat :| FirstReady(h, n) && ReportsAt(h, Dispatch(h).0, n);
      var _ := h.peers[q[n]];
    }
  }
}
