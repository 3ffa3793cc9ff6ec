/** The story of a slot's connection: what its events carry, that its end is not lost, and that the
    bandwidth limits are told anew when it comes and goes. */
module PeerStories {
  import opened EventRuns
  import opened PeerInvariants
  import opened PeerRuns
  import opened PeerStates

  // ----- what an event carries, and that no end is lost -----

  predicate Leaving(s: State) { s.AcknowledgingDisconnect? || s.Zombie? }

  /** The number with which a slot's present connection was asked for by the other side. */
  function Opening(run: seq<HostState>, steps: seq<Step>, i: nat, k: nat): nat
    requires k <= |steps| < |run|
  {
    if k == 0 then 0 else OpeningAfter(run[k - 1], steps[k - 1], i, Opening(run, steps, i, k - 1))
  }

  function OpeningAfter(h: HostState, step: Step, i: nat, opening: nat): nat {
    match step
    case HostConnect => if FreeSlot(h.peers) == i then 0 else opening
    case HostAccept(_, data) => if FreeSlot(h.peers) == i then data else opening
    case _ => opening
  }

  /** The number with which the other side ended it: that of the disconnect command that took it out
      of use, and 0 when there was none, or when it timed out. */
  function Ending(run: seq<HostState>, steps: seq<Step>, i: nat, k: nat): nat
    requires k <= |steps| < |run|
  {
    if k == 0 then 0 else EndingAfter(run[k - 1], steps[k - 1], i, Ending(run, steps, i, k - 1))
  }

  function EndingAfter(h: HostState, step: Step, i: nat, ending: nat): nat {
    match step
    case HostConnect => if FreeSlot(h.peers) == i then 0 else ending
    case HostAccept(_, _) => if FreeSlot(h.peers) == i then 0 else ending
    case DisconnectArrives(j, _, data) =>
      if j == i < |h.peers| && !Leaving(h.peers[i].state) then data else ending
    case TimeOut(j, _) => if j == i then 0 else ending
    case _ => ending
  }

  ghost predicate DataOk(p: Peer, opening: nat, ending: nat) {
    && (Unconnected(p.state) ==> p.eventData == opening)
    && (!p.state.Disconnected? && !Leaving(p.state) ==> ending == 0)
    && (Leaving(p.state) ==> p.eventData == ending)
  }

  /** A new event of peer `i` carries what it should. */
  ghost predicate Tells(h: HostState, h1: HostState, i: nat, opening: nat, ending: nat)
    requires i < |h.peers| == |h1.peers|
  {
    || h1.events == h.events
    || (|h1.events| == |h.events| + 1 && h.events <= h1.events
        && var e := h1.events[|h.events|];
           e.slot == i ==>
             && e.epoch == h.peers[i].epoch
             && match e.kind
                case Connect =>
                  e.data == opening && !h1.peers[i].state.Disconnected? && h1.peers[i].epoch == e.epoch
                case Disconnect => e.data == ending
                case _ => e.data == 0)
  }

  /** A connection that was reported ends with an event. */
  ghost predicate EndTold(h: HostState, h1: HostState, i: nat)
    requires i < |h.peers| == |h1.peers|
  {
    h.peers[i].announced && !h.peers[i].state.Disconnected? && h1.peers[i].state.Disconnected? ==>
      |h1.events| == |h.events| + 1 && h.events <= h1.events
      && var e := h1.events[|h.events|]; e.slot == i && e.epoch == h.peers[i].epoch && e.kind.Disconnect?
  }

  /** The application drops the connection without wanting to hear of it. */
  predicate DropsOf(step: Step, i: nat) { (step.AskReset? || step.AskDisconnectNow?) && step.slot == i }

  ghost predicate Story(h: HostState, h1: HostState, step: Step, i: nat, opening: nat, ending: nat) {
    && i < |h.peers| == |h1.peers|
    && DataOk(h1.peers[i], opening, ending) && Tells(h, h1, i, opening, ending)
    && (!DropsOf(step, i) ==> EndTold(h, h1, i))
    && (h1.peers[i].epoch == h.peers[i].epoch || h.peers[i].state.Disconnected?)
  }

  /** What an operation leaves of a peer, and the events it reports. */
  ghost predicate After(h: HostState, h1: HostState, i: nat, p: Peer, events: seq<Event>) {
    i < |h.peers| == |h1.peers| && h1.events == h.events + events && h1.peers[i] == p
  }

  /** A peer after a reset. */
  function Blank(p: Peer): Peer { Peer(Disconnected, 0, 0, false, [], false, p.epoch, p.announced) }

  function Cleared(p: Peer): Peer { p.(needsDispatch := false, dispatchedCommands := [], owesDisconnect := false) }

  lemma PartsAfter(h: HostState, i: nat, s: State)
    requires i < |h.peers|
    ensures After(h, ChangeState(h, i, s), i, h.peers[i].(state := s), [])
    ensures After(h, DispatchState(h, i, s), i, h.peers[i].(state := s, needsDispatch := true), [])
    ensures After(h, ResetQueues(h, i), i, Cleared(h.peers[i]), [])
    ensures After(h, Reset(h, i), i, Blank(h.peers[i]), [])
    ensures After(h, OnDisconnect(h, i), i, h.peers[i], [])
  {
    hide Removed;
  }

  lemma NotifyConnectAfter(h: HostState, i: nat, event: bool)
    requires i < |h.peers|
    ensures var p, h1 := h.peers[i], NotifyConnect(h, i, event);
      if event then
        After(h, h1, i, p.(state := Connected, announced := true), [Event(i, p.epoch, Connect, p.eventData)])
      else
        After(h, h1, i, p.(state := if p.state.Connecting? then ConnectionSucceeded else ConnectionPending,
                           needsDispatch := true), [])
  {
    var h1 := h.(recalculateBandwidthLimits := true);
    PartsAfter(h1, i, Connected);
    PartsAfter(h1, i, if h.peers[i].state.Connecting? then ConnectionSucceeded else ConnectionPending);
    hide ChangeState, DispatchState;
  }

  /** Is the application not told of the end of a connection in this state? */
  predicate EndsQuietly(s: State) { s.Disconnected? || s.AcknowledgingConnect? || s.ConnectionPending? }

  lemma NotifyDisconnectAfter(h: HostState, i: nat, event: bool)
    requires i < |h.peers|
    ensures var p, h1 := h.peers[i], NotifyDisconnect(h, i, event);
      if EndsQuietly(p.state) then After(h, h1, i, Blank(p), [])
      else if event then After(h, h1, i, Blank(p), [Event(i, p.epoch, Disconnect, 0)])
      else After(h, h1, i, p.(state := Zombie, eventData := 0, needsDispatch := true), [])
  {
    var s := h.peers[i].state;
    var h1 := if AtLeastPending(s) then h.(recalculateBandwidthLimits := true) else h;
    hide Reset, DispatchState, AtLeastPending, After;
    if EndsQuietly(s) {
      PartsAfter(h1, i, Zombie);
      assert After(h1, Reset(h1, i), i, Blank(h.peers[i]), []);
      SameAfter(h, h1, Reset(h1, i), i, Blank(h.peers[i]), []);
    } else if event {
      ReportedAfter(h1, i, Disconnect, 0);
      SameAfter(h, h1, NotifyDisconnect(h, i, event), i, Blank(h.peers[i]),
                [Event(i, h.peers[i].epoch, Disconnect, 0)]);
    } else {
      var h2 := With(h1, i, h1.peers[i].(eventData := 0));
      PartsAfter(h2, i, Zombie);
      SameAfter(h, h2, DispatchState(h2, i, Zombie), i,
                h.peers[i].(state := Zombie, eventData := 0, needsDispatch := true), []);
    }
  }

  lemma SameAfter(h: HostState, h0: HostState, h1: HostState, i: nat, p: Peer, events: seq<Event>)
    requires After(h0, h1, i, p, events) && |h0.peers| == |h.peers| && h0.events == h.events
    ensures After(h, h1, i, p, events)
  {
  }

  lemma ReportedAfter(h: HostState, i: nat, kind: Kind, data: nat)
    requires i < |h.peers| && !kind.Connect?
    ensures |Reported(h, i, kind, data).peers| == |h.peers|
    ensures After(h, Reset(Reported(h, i, kind, data), i), i, Blank(h.peers[i]),
                  [Event(i, h.peers[i].epoch, kind, data)])
  {
    PartsAfter(Reported(h, i, kind, data), i, Zombie);
    hide Reset;
  }

  lemma PeerDisconnectAfter(h: HostState, i: nat)
    requires i < |h.peers|
    ensures var p, h1 := h.peers[i], PeerDisconnect(h, i);
      if p.state.Disconnecting? || p.state.Disconnected? || Leaving(p.state) then h1 == h
      else if InData(p.state) then After(h, h1, i, Cleared(p).(state := Disconnecting), [])
      else After(h, h1, i, Blank(p), [])
  {
    var h1 := ResetQueues(h, i);
    PartsAfter(h, i, Zombie);
    PartsAfter(h1, i, Zombie);
    hide Reset, ResetQueues, OnDisconnect;
  }

  lemma HandleDisconnectAfter(h: HostState, i: nat, acknowledges: bool, data: nat)
    requires i < |h.peers|
    ensures var p, h1 := h.peers[i], HandleDisconnect(h, i, acknowledges, data);
      if p.state.Disconnected? || Leaving(p.state) then h1 == h
      else if p.state.AcknowledgingConnect? || p.state.ConnectionPending? then After(h, h1, i, Blank(p), [])
      else if InData(p.state) && acknowledges then
        After(h, h1, i, Cleared(p).(state := AcknowledgingDisconnect, eventData := data), [])
      else After(h, h1, i, Cleared(p).(state := Zombie, eventData := data, needsDispatch := true), [])
  {
    hide ResetQueues, Reset, ChangeState, DispatchState, After;
    var p := h.peers[i];
    var h1 := ResetQueues(h, i);
    ClearedIs(h, i);
    if p.state.AcknowledgingConnect? || p.state.ConnectionPending? {
      var h2 := if p.state.ConnectionPending? then h1.(recalculateBandwidthLimits := true) else h1;
      PartsAfter(h2, i, Zombie);
      BlankIs(h2, i);
      SameAfter(h, h2, Reset(h2, i), i, Blank(p), []);
    } else if InData(p.state) && acknowledges {
      PartsAfter(h1, i, AcknowledgingDisconnect);
      WithData(h, h1, ChangeState(h1, i, AcknowledgingDisconnect), i,
               Cleared(p).(state := AcknowledgingDisconnect), data);
    } else if !p.state.Disconnected? && !Leaving(p.state) {
      PartsAfter(h1, i, Zombie);
      WithData(h, h1, DispatchState(h1, i, Zombie), i, Cleared(p).(state := Zombie, needsDispatch := true), data);
    }
  }

  lemma ClearedIs(h: HostState, i: nat)
    requires i < |h.peers|
    ensures var h1 := ResetQueues(h, i);
      |h1.peers| == |h.peers| && h1.events == h.events && h1.peers[i] == Cleared(h.peers[i])
  {
    hide Removed;
  }

  lemma BlankIs(h: HostState, i: nat)
    requires i < |h.peers|
    ensures |Reset(h, i).peers| == |h.peers| && Reset(h, i).peers[i] == Blank(h.peers[i])
  {
    hide Removed;
  }

  lemma WithData(h: HostState, h1: HostState, h2: HostState, i: nat, p: Peer, data: nat)
    requires After(h1, h2, i, p, []) && |h1.peers| == |h.peers| && h1.events == h.events
    ensures h2.peers[i] == p && After(h, With(h2, i, h2.peers[i].(eventData := data)), i, p.(eventData := data), [])
  {
  }

  lemma StoryAfter(h: HostState, h1: HostState, step: Step, i: nat, p1: Peer, opening: nat, ending: nat)
    requires After(h, h1, i, p1, []) && DataOk(p1, opening, ending) && p1.epoch == h.peers[i].epoch
    requires !DropsOf(step, i) && p1.state.Disconnected? ==> !h.peers[i].announced || h.peers[i].state.Disconnected?
    ensures Story(h, h1, step, i, opening, ending)
  {
    hide DataOk;
  }

  lemma StoryEvent(h: HostState, h1: HostState, step: Step, i: nat, p1: Peer, e: Event, opening: nat, ending: nat)
    requires After(h, h1, i, p1, [e]) && DataOk(p1, opening, ending) && p1.epoch == h.peers[i].epoch
    requires e.slot == i && e.epoch == h.peers[i].epoch
    requires e.data == match e.kind case Connect => opening case Disconnect => ending case _ => 0
    requires p1.state.Disconnected? ==> e.kind.Disconnect?
    ensures Story(h, h1, step, i, opening, ending)
  {
    hide DataOk;
  }

  lemma VerifyStory(h: HostState, step: Step, opening: nat, ending: nat)
    requires Enabled(h, step) && step.VerifyConnect?
    requires DataOk(h.peers[step.slot], opening, ending) && AnnouncedOk(h.peers[step.slot])
    ensures Story(h, Next(h, step), step, step.slot, opening, ending)
  {
    var i := step.slot;
    var p, h1 := h.peers[i], Next(h, step);
    hide Story;
    if !p.state.Connecting? {
      StoryAfter(h, h1, step, i, p, opening, ending);
    } else if !step.valid {
      PartsAfter(With(h, i, p.(eventData := 0)), i, Zombie);
      hide DispatchState;
      StoryAfter(h, h1, step, i, h1.peers[i], opening, ending);
    } else {
      NotifyStory(h, h1, step, p.(incomingBandwidth := step.incomingBandwidth), opening, ending);
    }
  }

  lemma NotifyStory(h: HostState, h1: HostState, step: Step, p: Peer, opening: nat, ending: nat)
    requires (step.VerifyConnect? || step.Acknowledge?) && step.slot < |h.peers|
    requires p == h.peers[step.slot].(incomingBandwidth := p.incomingBandwidth) && Unconnected(p.state)
    requires h1 == NotifyConnect(With(h, step.slot, p), step.slot, step.event) && DataOk(p, opening, ending)
    ensures Story(h, h1, step, step.slot, opening, ending)
  {
    hide Story, NotifyConnect;
    NotifyConnectAfter(With(h, step.slot, p), step.slot, step.event);
    var p1 := h1.peers[step.slot];
    if step.event {
      StoryEvent(h, h1, step, step.slot, p1, Event(step.slot, p.epoch, Connect, p.eventData), opening, ending);
    } else {
      StoryAfter(h, h1, step, step.slot, p1, opening, ending);
    }
  }

  lemma EndingStory(h: HostState, h1: HostState, step: Step, i: nat, opening: nat)
    requires i < |h.peers| && (step.TimeOut? || step.Acknowledge?) && h1 == NotifyDisconnect(h, i, step.event)
    requires AnnouncedOk(h.peers[i]) && !h.peers[i].state.Disconnected?
    ensures Story(h, h1, step, i, opening, 0)
  {
    hide Story, NotifyDisconnect;
    NotifyDisconnectAfter(h, i, step.event);
    var p, p1 := h.peers[i], h1.peers[i];
    if !EndsQuietly(p.state) && step.event {
      StoryEvent(h, h1, step, i, p1, Event(i, p.epoch, Disconnect, 0), opening, 0);
    } else {
      StoryAfter(h, h1, step, i, p1, opening, 0);
    }
  }

  lemma LeaveStory(h: HostState, h1: HostState, step: Step, i: nat, opening: nat, ending: nat)
    requires i < |h.peers| && h1 == PeerDisconnect(h, i) && AnnouncedOk(h.peers[i])
    requires DataOk(h.peers[i], opening, ending)
    ensures Story(h, h1, step, i, opening, ending)
  {
    hide Story, PeerDisconnect;
    PeerDisconnectAfter(h, i);
    StoryAfter(h, h1, step, i, h1.peers[i], opening, ending);
  }

  lemma AcknowledgeStory(h: HostState, step: Step, opening: nat, ending: nat)
    requires Enabled(h, step) && step.Acknowledge?
    requires DataOk(h.peers[step.slot], opening, ending) && AnnouncedOk(h.peers[step.slot])
    ensures Story(h, Next(h, step), step, step.slot, opening, ending)
  {
    var i := step.slot;
    var p, h1 := h.peers[i], Next(h, step);
    hide Story, NotifyConnect, NotifyDisconnect, PeerDisconnect;
    if p.state.AcknowledgingConnect? && step.acked.VerifyConnectCommand? {
      assert With(h, i, p) == h;
      NotifyStory(h, h1, step, p, opening, ending);
    } else if p.state.Disconnecting? && step.acked.DisconnectCommand? {
      EndingStory(h, h1, step, i, opening);
    } else if p.state.DisconnectLater? && step.drained {
      LeaveStory(h, h1, step, i, opening, ending);
    } else {
      StoryAfter(h, h1, step, i, p, opening, ending);
    }
  }

  lemma ArrivesStory(h: HostState, step: Step, opening: nat, ending: nat)
    requires Enabled(h, step) && step.DisconnectArrives?
    requires DataOk(h.peers[step.slot], opening, ending) && AnnouncedOk(h.peers[step.slot])
    ensures Story(h, Next(h, step), step, step.slot, opening, EndingAfter(h, step, step.slot, ending))
  {
    hide Story, HandleDisconnect;
    HandleDisconnectAfter(h, step.slot, step.acknowledges, step.data);
    var h1 := Next(h, step);
    StoryAfter(h, h1, step, step.slot, h1.peers[step.slot], opening, EndingAfter(h, step, step.slot, ending));
  }

  lemma DropStory(h: HostState, step: Step, opening: nat, ending: nat)
    requires Enabled(h, step) && (step.AskReset? || step.AskDisconnectNow?)
    requires DataOk(h.peers[step.slot], opening, ending)
    ensures Story(h, Next(h, step), step, step.slot, opening, ending)
  {
    var i, h1 := step.slot, Next(h, step);
    hide Story, PeerDisconnectNow, Reset;
    PartsAfter(h, i, Zombie);
    DisconnectNowAfter(h, i);
    StoryAfter(h, h1, step, i, h1.peers[i], opening, ending);
  }

  lemma DisconnectNowAfter(h: HostState, i: nat)
    requires i < |h.peers|
    ensures var p, h1 := h.peers[i], PeerDisconnectNow(h, i);
      if p.state.Disconnected? then h1 == h else After(h, h1, i, Blank(p), [])
  {
    hide Reset, ResetQueues, After;
    PartsAfter(h, i, Zombie);
    ClearedAfter(h, i);
  }

  lemma ClearedAfter(h: HostState, i: nat)
    requires i < |h.peers|
    ensures |ResetQueues(h, i).peers| == |h.peers|
    ensures After(h, Reset(ResetQueues(h, i), i), i, Blank(h.peers[i]), [])
  {
    hide Reset, ResetQueues;
    PartsAfter(h, i, Zombie);
    PartsAfter(ResetQueues(h, i), i, Zombie);
  }

  lemma LaterStory(h: HostState, step: Step, opening: nat, ending: nat)
    requires Enabled(h, step) && step.AskDisconnectLater?
    requires DataOk(h.peers[step.slot], opening, ending) && AnnouncedOk(h.peers[step.slot])
    ensures Story(h, Next(h, step), step, step.slot, opening, ending)
  {
    var i, h1 := step.slot, Next(h, step);
    hide Story, PeerDisconnect;
    if InData(h.peers[i].state) && !step.drained {
      StoryAfter(h, h1, step, i, h1.peers[i], opening, ending);
    } else {
      LeaveStory(h, h1, step, i, opening, ending);
    }
  }

  lemma TakeStory(h: HostState, step: Step, opening: nat, ending: nat)
    requires Enabled(h, step) && step.Take?
    requires DataOk(h.peers[step.slot], opening, ending) && MarkOk(h.peers[step.slot])
    ensures Story(h, Next(h, step), step, step.slot, opening, ending)
  {
    var i, h1 := step.slot, Next(h, step);
    var p := h.peers[i];
    hide Story;
    if p.dispatchedCommands == [] {
      StoryAfter(h, h1, step, i, p, opening, ending);
    } else {
      StoryEvent(h, h1, step, i, h1.peers[i], Event(i, p.epoch, Taken(p.dispatchedCommands[0]), 0), opening, ending);
    }
  }

  lemma OtherStory(h: HostState, step: Step, opening: nat, ending: nat)
    requires Enabled(h, step)
    requires step.OwesAcknowledgement? || step.AcknowledgeDisconnect? || step.BandwidthLimit? || step.Packets?
    requires DataOk(h.peers[step.slot], opening, ending) && MarkOk(h.peers[step.slot])
    ensures Story(h, Next(h, step), step, step.slot, opening, EndingAfter(h, step, step.slot, ending))
  {
  }

  lemma BeginStory(h: HostState, step: Step, i: nat, opening: nat, ending: nat)
    requires Enabled(h, step) && (step.HostConnect? || step.HostAccept?) && i < |h.peers|
    requires DataOk(h.peers[i], opening, ending)
    ensures Story(h, Next(h, step), step, i, OpeningAfter(h, step, i, opening), EndingAfter(h, step, i, ending))
  {
  }

  /** A step on another slot leaves this one and its story. */
  lemma ElsewhereStory(h: HostState, h1: HostState, step: Step, j: nat, i: nat, opening: nat, ending: nat)
    requires Net(h, h1, j) && i != j && i < |h.peers| && DataOk(h.peers[i], opening, ending)
    ensures Story(h, h1, step, i, opening, ending)
  {
    hide DataOk, QueueNet, MarkOk, AnnouncedOk;
  }

  /** The peer whose event a dispatch reports. */
  lemma FirstAfter(h: HostState)
    requires QueueInside(h) && h.dispatchQueue != [] && h.dispatchQueue[0] < |h.peers|
    ensures var i := h.dispatchQueue[0];
      var p, h1 := h.peers[i], DispatchFirst(h).0;
      match p.state
      case Zombie => After(h, h1, i, Blank(p), [Event(i, p.epoch, Disconnect, p.eventData)])
      case ConnectionPending => ConnectAfter(h, h1, i)
      case ConnectionSucceeded => ConnectAfter(h, h1, i)
      case Connected =>
        p.dispatchedCommands != [] ==>
          |h.peers| == |h1.peers| && h1.peers[i].state.Connected? && h1.peers[i].epoch == p.epoch
          && h1.events == h.events + [Event(i, p.epoch, Receive(p.dispatchedCommands[0]), 0)]
      case _ => true
  {
    var i := h.dispatchQueue[0];
    var h1 := Unmarked(h, i);
    PartsAfter(h1, i, Connected);
    PartsAfter(Reported(h1.(recalculateBandwidthLimits := true), i, Disconnect, h.peers[i].eventData), i, Connected);
    hide ChangeState, Reset;
  }

  ghost predicate ConnectAfter(h: HostState, h1: HostState, i: nat)
    requires i < |h.peers|
  {
    var p := h.peers[i];
    After(h, h1, i, p.(state := Connected, needsDispatch := false, announced := true),
          [Event(i, p.epoch, Connect, p.eventData)])
  }

  lemma FirstHere(h: HostState, opening: nat, ending: nat)
    requires QueueInside(h) && h.dispatchQueue != [] && h.dispatchQueue[0] < |h.peers|
    requires DataOk(h.peers[h.dispatchQueue[0]], opening, ending) && Distinct(h.dispatchQueue)
    ensures Story(h, DispatchFirst(h).0, DispatchEvents, h.dispatchQueue[0], opening, ending)
  {
    var i := h.dispatchQueue[0];
    var p, h1 := h.peers[i], DispatchFirst(h).0;
    FirstAfter(h);
    FirstReports(h);
    hide Story, DispatchFirst, ReportsAt;
    if Ready(p) {
      StoryEvent(h, h1, DispatchEvents, i, h1.peers[i], EventFor(i, p), opening, ending);
    } else {
      StoryAfter(h, h1, DispatchEvents, i, h1.peers[i], opening, ending);
    }
  }

  lemma FirstStory(h: HostState, i: nat, opening: nat, ending: nat)
    requires Inv(h) && h.dispatchQueue != [] && i < |h.peers| && DataOk(h.peers[i], opening, ending)
    ensures h.dispatchQueue[0] < |h.peers|
    ensures var (h1, reported) := DispatchFirst(h);
      && Story(h, h1, DispatchEvents, i, opening, ending)
      && (!reported ==> h1.events == h.events)
      && (!reported ==> h1.peers[i] == h.peers[i].(needsDispatch := h1.peers[i].needsDispatch))
  {
    FirstIsPeer(h);
    PeerFacts(h, h.dispatchQueue[0]);
    hide Story, Hands, DispatchFirst, Inv, Net, DataOk, ReportsAt;
    FirstReports(h);
    if i == h.dispatchQueue[0] {
      FirstHere(h, opening, ending);
    } else {
      DispatchFirstNet(h);
      HandsNet(h, DispatchFirst(h).0, h.dispatchQueue[0]);
      ElsewhereStory(h, DispatchFirst(h).0, DispatchEvents, h.dispatchQueue[0], i, opening, ending);
    }
  }

  lemma {:induction false} DispatchStory(h: HostState, i: nat, opening: nat, ending: nat)
    requires Inv(h) && QueueInside(h) && i < |h.peers| && DataOk(h.peers[i], opening, ending)
    ensures Story(h, Dispatch(h).0, DispatchEvents, i, opening, ending)
    decreases |h.dispatchQueue|
  {
    hide DispatchFirst, DataOk, Inv, Hands;
    if h.dispatchQueue != [] {
      FirstStory(h, i, opening, ending);
      FirstInside(h);
      if !DispatchFirst(h).1 {
        DispatchFirstNet(h);
        HandsKeeps(h, DispatchFirst(h).0, h.dispatchQueue[0]);
        DispatchStory(DispatchFirst(h).0, i, opening, ending);
      }
    }
  }

  lemma StepStory(h: HostState, step: Step, i: nat, opening: nat, ending: nat)
    requires Inv(h) && Enabled(h, step) && i < |h.peers| && DataOk(h.peers[i], opening, ending)
    ensures Story(h, Next(h, step), step, i, OpeningAfter(h, step, i, opening), EndingAfter(h, step, i, ending))
  {
    PeerFacts(h, i);
    hide Inv, Story, DataOk, Hands, Net, QueueNet, MarkOk, AnnouncedOk, QueueInside, HandleVerifyConnect,
      HandleAcknowledge, HandleDisconnect, OwesDisconnect, SendDisconnectAcknowledgement, HandleBandwidthLimit,
      Arrived, NotifyDisconnect, Dispatch, PeerDisconnect, PeerDisconnectNow, PeerDisconnectLater, Reset,
      PeerReceive, With, Begun;
    if step.HostConnect? || step.HostAccept? {
      BeginStory(h, step, i, opening, ending);
    } else if step.DispatchEvents? {
      DispatchStory(h, i, opening, ending);
    } else if step.slot != i {
      if step.Packets? {
        ArrivedNet(h, step.slot, step.packets);
      } else {
        StepHands(h, step);
        assert Net(h, Next(h, step), step.slot) by { HandsNet(h, Next(h, step), step.slot); }
      }
      ElsewhereStory(h, Next(h, step), step, step.slot, i, opening, ending);
    } else {
      HereStory(h, step, opening, ending);
    }
  }

  lemma HandsNet(h: HostState, h1: HostState, i: nat)
    requires Hands(h, h1, i)
    ensures Net(h, h1, i)
  {
  }

  lemma HereStory(h: HostState, step: Step, opening: nat, ending: nat)
    requires Enabled(h, step) && !step.HostConnect? && !step.HostAccept? && !step.DispatchEvents?
    requires DataOk(h.peers[step.slot], opening, ending)
    requires MarkOk(h.peers[step.slot]) && AnnouncedOk(h.peers[step.slot])
    ensures Story(h, Next(h, step), step, step.slot, opening, EndingAfter(h, step, step.slot, ending))
  {
    hide Story, DataOk, MarkOk, AnnouncedOk, HandleVerifyConnect, HandleAcknowledge, HandleDisconnect, OwesDisconnect,
      SendDisconnectAcknowledgement, HandleBandwidthLimit, Arrived, NotifyDisconnect, Dispatch, PeerDisconnect,
      PeerDisconnectNow, PeerDisconnectLater, Reset, PeerReceive;
    match step
    case VerifyConnect(_, _, _, _) => VerifyStory(h, step, opening, ending);
    case Acknowledge(_, _, _, _) => AcknowledgeStory(h, step, opening, ending);
    case DisconnectArrives(_, _, _) => ArrivesStory(h, step, opening, ending);
    case TimeOut(i, _) => EndingStory(h, Next(h, step), step, i, opening);
    case AskReset(_) => DropStory(h, step, opening, ending);
    case AskDisconnectNow(_) => DropStory(h, step, opening, ending);
    case AskDisconnect(i) => LeaveStory(h, Next(h, step), step, i, opening, ending);
    case AskDisconnectLater(_, _, _) => LaterStory(h, step, opening, ending);
    case OwesAcknowledgement(_) => OtherStory(h, step, opening, ending);
    case AcknowledgeDisconnect(_) => OtherStory(h, step, opening, ending);
    case BandwidthLimit(_, _) => OtherStory(h, step, opening, ending);
    case Packets(_, _) => OtherStory(h, step, opening, ending);
    case Take(_) => TakeStory(h, step, opening, ending);
  }

  lemma NextIs(run: seq<HostState>, steps: seq<Step>, k: nat)
    requires IsRun(run, steps) && k < |steps|
    ensures Enabled(run[k], steps[k]) && run[k + 1] == Next(run[k], steps[k])
  {
  }

  lemma {:induction false} RunData(run: seq<HostState>, steps: seq<Step>, k: nat, i: nat)
    requires IsRun(run, steps) && k <= |steps| && i < |run[k].peers|
    ensures DataOk(run[k].peers[i], Opening(run, steps, i, k), Ending(run, steps, i, k))
    decreases k
  {
    if k > 0 {
      NextIs(run, steps, k - 1);
      RunOk(run, steps, k - 1);
      hide IsRun, Next, Inv, DataOk, Enabled, OpeningAfter, EndingAfter;
      SamePeers(run[k - 1], steps[k - 1]);
      RunData(run, steps, k - 1, i);
      StepStory(run[k - 1], steps[k - 1], i, Opening(run, steps, i, k - 1), Ending(run, steps, i, k - 1));
    }
  }

  lemma SamePeers(h: HostState, step: Step)
    requires Inv(h) && Enabled(h, step)
    ensures |Next(h, step).peers| == |h.peers|
  {
    hide Inv, Net, Hands, Enabled, HandleVerifyConnect, HandleAcknowledge, HandleDisconnect, OwesDisconnect,
      SendDisconnectAcknowledgement, HandleBandwidthLimit, Arrived, NotifyDisconnect, Dispatch, PeerDisconnect,
      PeerDisconnectNow, PeerDisconnectLater, Reset, PeerReceive;
    if !step.HostConnect? && !step.HostAccept? && !step.DispatchEvents? { SlotInside(h, step); }
    if step.DispatchEvents? {
      EnabledInside(h, step);
      DispatchSize(h);
    } else if step.Packets? {
      ArrivedNet(h, step.slot, step.packets);
      NetSize(h, Next(h, step), step.slot);
    } else if !step.HostConnect? && !step.HostAccept? {
      StepHands(h, step);
      HandsNet(h, Next(h, step), step.slot);
      NetSize(h, Next(h, step), step.slot);
    }
  }

  lemma SlotInside(h: HostState, step: Step)
    requires Enabled(h, step) && !step.HostConnect? && !step.HostAccept? && !step.DispatchEvents?
    ensures step.slot < |h.peers|
  {
  }

  lemma EnabledInside(h: HostState, step: Step)
    requires Enabled(h, step)
    ensures QueueInside(h)
  {
  }

  lemma NetSize(h: HostState, h1: HostState, i: nat)
    requires Net(h, h1, i)
    ensures |h1.peers| == |h.peers|
  {
  }

  lemma {:induction false} DispatchSize(h: HostState)
    requires QueueInside(h)
    ensures |Dispatch(h).0.peers| == |h.peers|
    decreases |h.dispatchQueue|
  {
    hide DispatchFirst;
    if h.dispatchQueue != [] {
      FirstInside(h);
      if !DispatchFirst(h).1 {
        DispatchSize(DispatchFirst(h).0);
      }
    }
  }

  /** In every run a step reports at most one event, and the event carries the number with which the
      other side began the connection, or ended it. */
  lemma EventData(run: seq<HostState>, steps: seq<Step>, k: nat, i: nat)
    requires IsRun(run, steps) && k < |steps| && i < |run[k].peers|
    ensures |run[k + 1].peers| == |run[k].peers|
    ensures Tells(run[k], run[k + 1], i, Opening(run, steps, i, k + 1), Ending(run, steps, i, k + 1))
  {
    StoryStep(run, steps, k, i);
    hide IsRun, DataOk, Inv, Tells, DropsOf, EndTold;
  }

  ghost predicate Ended(events: seq<Event>, i: nat, epoch: nat) {
    exists n {:trigger events[n]} ::
      0 <= n < |events| && events[n].slot == i && events[n].epoch == epoch && events[n].kind.Disconnect?
  }

  ghost predicate Dropped(run: seq<HostState>, steps: seq<Step>, k: nat, i: nat, epoch: nat)
    requires k <= |steps| < |run|
  {
    exists j {:trigger steps[j]} ::
      0 <= j < k && DropsOf(steps[j], i) && i < |run[j].peers| && run[j].peers[i].epoch == epoch
  }

  /** In every run a connection that was reported and is over was reported to have ended, unless the
      application dropped it. */
  lemma {:induction false} NoEndLost(run: seq<HostState>, steps: seq<Step>, k: nat, i: nat, epoch: nat)
    requires IsRun(run, steps) && k <= |steps| && i < |run[k].peers| && epoch <= run[k].peers[i].epoch
    requires Remembered(run[k].events, i, epoch)
    requires epoch < run[k].peers[i].epoch || run[k].peers[i].state.Disconnected?
    ensures Ended(run[k].events, i, epoch) || Dropped(run, steps, k, i, epoch)
    decreases k
  {
    NoneAtFirst(run, steps);
    hide *;
    hide Remembered;
    if k > 0 {
      NextIs(run, steps, k - 1);
      RunOk(run, steps, k - 1);
      SamePeers(run[k - 1], steps[k - 1]);
      var h, h1, opening, ending := run[k - 1], run[k], Opening(run, steps, i, k), Ending(run, steps, i, k);
      StoryStep(run, steps, k - 1, i);
      StoryOver(h, h1, steps[k - 1], i, opening, ending, epoch);
      if Remembered(h.events, i, epoch) && (epoch < h.peers[i].epoch || h.peers[i].state.Disconnected?) {
        NoEndLost(run, steps, k - 1, i, epoch);
      }
      DroppedMore(run, steps, k - 1, i, epoch);
    }
  }

  lemma NoneAtFirst(run: seq<HostState>, steps: seq<Step>)
    requires IsRun(run, steps)
    ensures |run| == |steps| + 1 && forall i, epoch :: !Remembered(run[0].events, i, epoch)
  {
  }

  lemma StoryStep(run: seq<HostState>, steps: seq<Step>, k: nat, i: nat)
    requires IsRun(run, steps) && k < |steps| && i < |run[k].peers|
    ensures Inv(run[k])
    ensures Story(run[k], run[k + 1], steps[k], i, Opening(run, steps, i, k + 1), Ending(run, steps, i, k + 1))
  {
    NextIs(run, steps, k);
    RunOk(run, steps, k);
    RunData(run, steps, k, i);
    hide IsRun, Next, Inv, DataOk, Enabled, OpeningAfter, EndingAfter, Story;
    StepStory(run[k], steps[k], i, Opening(run, steps, i, k), Ending(run, steps, i, k));
  }

  lemma DroppedMore(run: seq<HostState>, steps: seq<Step>, k: nat, i: nat, epoch: nat)
    requires k < |steps| < |run|
    ensures Dropped(run, steps, k, i, epoch) ==> Dropped(run, steps, k + 1, i, epoch)
    ensures DropsOf(steps[k], i) && i < |run[k].peers| && run[k].peers[i].epoch == epoch ==>
      Dropped(run, steps, k + 1, i, epoch)
  {
    hide DropsOf;
  }

  /** A step after which a reported connection is over. */
  lemma StoryOver(h: HostState, h1: HostState, step: Step, i: nat, opening: nat, ending: nat, epoch: nat)
    requires Inv(h) && Story(h, h1, step, i, opening, ending) && Remembered(h1.events, i, epoch)
    requires epoch <= h1.peers[i].epoch && (epoch < h1.peers[i].epoch || h1.peers[i].state.Disconnected?)
    ensures h.events <= h1.events && (Ended(h.events, i, epoch) ==> Ended(h1.events, i, epoch))
    ensures Remembered(h.events, i, epoch) && epoch <= h.peers[i].epoch
    ensures || epoch < h.peers[i].epoch || h.peers[i].state.Disconnected?
            || Ended(h1.events, i, epoch) || (DropsOf(step, i) && h.peers[i].epoch == epoch)
  {
    hide DataOk, CountersOk, QueueOk, DropsOf, Inv;
    RememberedBefore(h, h1, step, i, opening, ending, epoch);
    if n: nat :| n < |h.events| && h.events[n].slot == i && h.events[n].epoch == epoch && h.events[n].kind.Disconnect? {
      assert h1.events[n] == h.events[n];
    }
    AnnouncedAt(h, i, epoch);
    if epoch == h.peers[i].epoch && !h.peers[i].state.Disconnected? && !DropsOf(step, i) {
      assert h1.events[|h.events|].kind.Disconnect?;
    }
  }

  lemma RememberedBefore(h: HostState, h1: HostState, step: Step, i: nat, opening: nat, ending: nat, epoch: nat)
    requires Story(h, h1, step, i, opening, ending) && Remembered(h1.events, i, epoch)
    requires epoch < h1.peers[i].epoch || h1.peers[i].state.Disconnected?
    ensures h.events <= h1.events && Remembered(h.events, i, epoch)
  {
    hide DataOk, DropsOf, EndTold;
    var n: nat :|
      n < |h1.events| && h1.events[n].slot == i && h1.events[n].epoch == epoch && h1.events[n].kind.Connect?;
    if n < |h.events| { assert h.events[n] == h1.events[n]; }
  }

  lemma AnnouncedAt(h: HostState, i: nat, epoch: nat)
    requires Inv(h) && Remembered(h.events, i, epoch)
    ensures i < |h.peers| && epoch <= h.peers[i].epoch && (epoch == h.peers[i].epoch ==> h.peers[i].announced)
  {
    hide CountersOk, QueueOk, InOrder, AnnouncedOk;
    var n: nat :| n < |h.events| && h.events[n].slot == i && h.events[n].epoch == epoch && h.events[n].kind.Connect?;
    assert EventOk(h.events[n], h.peers);
  }

  // ----- when the bandwidth limits have to be told anew -----

  predicate NotYet(s: State) { s.Connecting? || s.AcknowledgingConnect? }

  /** A connection comes about, or the end of one that had is reported. */
  ghost predicate ChangesShares(h: HostState, h1: HostState, i: nat)
    requires i < |h.peers| == |h1.peers|
  {
    var s, t := h.peers[i].state, h1.peers[i].state;
    || (NotYet(s) && (InData(t) || t.ConnectionPending? || t.ConnectionSucceeded?))
    || (!NotYet(s) && |h1.events| == |h.events| + 1 && h1.events[|h.events|].slot == i
        && h1.events[|h.events|].kind.Disconnect?)
  }

  /** A step keeps the flag when it is set, and sets it when the shares change. */
  ghost predicate Renews(h: HostState, h1: HostState, i: nat) {
    && i < |h.peers| == |h1.peers|
    && (h.recalculateBandwidthLimits ==> h1.recalculateBandwidthLimits)
    && (ChangesShares(h, h1, i) ==> h1.recalculateBandwidthLimits)
  }

  lemma PartsFlag(h: HostState, i: nat, s: State)
    requires i < |h.peers|
    ensures ChangeState(h, i, s).recalculateBandwidthLimits == h.recalculateBandwidthLimits
    ensures DispatchState(h, i, s).recalculateBandwidthLimits == h.recalculateBandwidthLimits
    ensures ResetQueues(h, i).recalculateBandwidthLimits == h.recalculateBandwidthLimits
    ensures Reset(h, i).recalculateBandwidthLimits == h.recalculateBandwidthLimits
    ensures OnDisconnect(h, i).recalculateBandwidthLimits == h.recalculateBandwidthLimits
  {
    hide Removed;
  }

  lemma NotifyFlags(h: HostState, i: nat, event: bool)
    requires i < |h.peers|
    ensures NotifyConnect(h, i, event).recalculateBandwidthLimits
    ensures AtLeastPending(h.peers[i].state) ==> NotifyDisconnect(h, i, event).recalculateBandwidthLimits
    ensures h.recalculateBandwidthLimits ==> NotifyDisconnect(h, i, event).recalculateBandwidthLimits
  {
    hide AtLeastPending, ChangeState, DispatchState, Reset, Reported;
    var h1 := h.(recalculateBandwidthLimits := true);
    var h2 := if AtLeastPending(h.peers[i].state) then h1 else h;
    PartsAfter(h1, i, Connected);
    PartsFlag(h1, i, Connected);
    PartsFlag(h1, i, ConnectionSucceeded);
    PartsFlag(h1, i, ConnectionPending);
    PartsFlag(h2, i, Zombie);
    PartsFlag(With(h2, i, h2.peers[i].(eventData := 0)), i, Zombie);
    ReportedFlag(ChangeState(h1, i, Connected), i, Connect, h1.peers[i].eventData);
    PartsAfter(h2, i, Zombie);
    ReportedFlag(h2, i, Disconnect, 0);
    PartsFlag(Reported(h2, i, Disconnect, 0), i, Zombie);
  }

  lemma ReportedFlag(h: HostState, i: nat, kind: Kind, data: nat)
    requires i < |h.peers|
    ensures |Reported(h, i, kind, data).peers| == |h.peers|
    ensures Reported(h, i, kind, data).recalculateBandwidthLimits == h.recalculateBandwidthLimits
  {
  }

  predicate Kept(h: HostState, h1: HostState) { h.recalculateBandwidthLimits ==> h1.recalculateBandwidthLimits }

  lemma PeerDisconnectFlag(h: HostState, i: nat)
    requires i < |h.peers|
    ensures Kept(h, PeerDisconnect(h, i))
  {
    hide ResetQueues, OnDisconnect, Reset;
    PartsFlag(h, i, Zombie);
    PartsAfter(h, i, Zombie);
    PartsFlag(ResetQueues(h, i), i, Zombie);
  }

  lemma HandleDisconnectFlag(h: HostState, i: nat, acknowledges: bool, data: nat)
    requires i < |h.peers|
    ensures Kept(h, HandleDisconnect(h, i, acknowledges, data))
  {
    hide ResetQueues, DispatchState, ChangeState, Reset;
    var h1 := ResetQueues(h, i);
    PartsFlag(h, i, Zombie);
    PartsAfter(h, i, Zombie);
    PartsFlag(h1, i, Zombie);
    PartsFlag(h1, i, AcknowledgingDisconnect);
    PartsFlag(h1.(recalculateBandwidthLimits := true), i, Zombie);
  }

  lemma VerifyFlag(h: HostState, step: Step)
    requires Enabled(h, step) && step.VerifyConnect?
    ensures var h1 := Next(h, step);
      && Kept(h, h1)
      && (|h1.peers| == |h.peers| && ChangesShares(h, h1, step.slot) ==> h1.recalculateBandwidthLimits)
  {
    var i, p := step.slot, h.peers[step.slot];
    hide NotifyConnect, DispatchState;
    NotifyFlags(With(h, i, p.(incomingBandwidth := step.incomingBandwidth)), i, step.event);
    PartsFlag(With(h, i, p.(eventData := 0)), i, Zombie);
    PartsAfter(With(h, i, p.(eventData := 0)), i, Zombie);
  }

  lemma AcknowledgeFlag(h: HostState, step: Step)
    requires Enabled(h, step) && step.Acknowledge?
    ensures var h1 := Next(h, step);
      && Kept(h, h1)
      && (|h1.peers| == |h.peers| && ChangesShares(h, h1, step.slot) ==> h1.recalculateBandwidthLimits)
  {
    var i, p := step.slot, h.peers[step.slot];
    hide NotifyConnect, NotifyDisconnect, PeerDisconnect;
    NotifyFlags(h, i, step.event);
    PeerDisconnectFlag(h, i);
    PeerDisconnectAfter(h, i);
  }

  lemma DispatchFlag(h: HostState)
    requires QueueInside(h) && h.dispatchQueue != []
    ensures h.dispatchQueue[0] < |h.peers|
    ensures Kept(h, DispatchFirst(h).0)
    ensures h.peers[h.dispatchQueue[0]].state.Zombie? ==> DispatchFirst(h).0.recalculateBandwidthLimits
  {
    FirstInside(h);
    var i := h.dispatchQueue[0];
    var h1 := Unmarked(h, i);
    var h2 := Reported(h1.(recalculateBandwidthLimits := true), i, Disconnect, h.peers[i].eventData);
    PartsFlag(h1, i, Connected);
    PartsFlag(h2, i, Connected);
    hide ChangeState, Reset;
  }

  /** A dispatch that reports a disconnect does so for a zombie. */
  lemma {:induction false} DispatchRenews(h: HostState, i: nat)
    requires Inv(h) && QueueInside(h) && i < |h.peers|
    ensures |Dispatch(h).0.peers| == |h.peers| && Kept(h, Dispatch(h).0)
    ensures ChangesShares(h, Dispatch(h).0, i) ==> Dispatch(h).0.recalculateBandwidthLimits
    decreases |h.dispatchQueue|
  {
    hide DispatchFirst, Inv, Hands;
    DispatchSize(h);
    if h.dispatchQueue != [] {
      FirstInside(h);
      DispatchFlag(h);
      FirstIsPeer(h);
      DispatchFirstNet(h);
      HandsNet(h, DispatchFirst(h).0, h.dispatchQueue[0]);
      PeerFacts(h, h.dispatchQueue[0]);
      FirstReports(h);
      FirstAfter(h);
      if !DispatchFirst(h).1 {
        HandsKeeps(h, DispatchFirst(h).0, h.dispatchQueue[0]);
        DispatchRenews(DispatchFirst(h).0, i);
      }
    }
  }

  lemma EndFlag(h: HostState, step: Step)
    requires Enabled(h, step) && (step.TimeOut? || step.DisconnectArrives? || step.AskDisconnect?)
    ensures var h1 := Next(h, step);
      && Kept(h, h1)
      && (|h1.peers| == |h.peers| && ChangesShares(h, h1, step.slot) ==> h1.recalculateBandwidthLimits)
  {
    var i := step.slot;
    hide NotifyDisconnect, PeerDisconnect, HandleDisconnect;
    match step
    case TimeOut(_, event) =>
      NotifyFlags(h, i, event);
      NotifyDisconnectAfter(h, i, event);
    case DisconnectArrives(_, acknowledges, data) =>
      HandleDisconnectFlag(h, i, acknowledges, data);
      HandleDisconnectAfter(h, i, acknowledges, data);
    case AskDisconnect(_) =>
      PeerDisconnectFlag(h, i);
      PeerDisconnectAfter(h, i);
  }

  lemma NoShares(h: HostState, h1: HostState, i: nat)
    requires i < |h.peers| && (h1 == h || After(h, h1, i, Blank(h.peers[i]), []))
    ensures !ChangesShares(h, h1, i)
  {
  }

  lemma AskFlag(h: HostState, step: Step)
    requires Enabled(h, step) && (step.AskDisconnectNow? || step.AskReset?)
    ensures var h1 := Next(h, step);
      && Kept(h, h1)
      && (|h1.peers| == |h.peers| && ChangesShares(h, h1, step.slot) ==> h1.recalculateBandwidthLimits)
  {
    var i := step.slot;
    hide PeerDisconnectNow, Reset, After, ChangesShares;
    PartsFlag(h, i, Zombie);
    DisconnectNowFlag(h, i);
    PartsAfter(h, i, Zombie);
    DisconnectNowAfter(h, i);
    NoShares(h, Next(h, step), i);
  }

  lemma DisconnectNowFlag(h: HostState, i: nat)
    requires i < |h.peers|
    ensures PeerDisconnectNow(h, i).recalculateBandwidthLimits == h.recalculateBandwidthLimits
  {
    PartsFlag(h, i, Zombie);
    PartsAfter(h, i, Zombie);
    PartsFlag(ResetQueues(h, i), i, Zombie);
    hide Reset, ResetQueues;
  }

  lemma TakeFlag(h: HostState, step: Step)
    requires Enabled(h, step) && (step.AskDisconnectLater? || step.Take?)
    ensures var h1 := Next(h, step);
      && Kept(h, h1)
      && (|h1.peers| == |h.peers| && ChangesShares(h, h1, step.slot) ==> h1.recalculateBandwidthLimits)
  {
    var i := step.slot;
    PeerDisconnectFlag(h, i);
    PeerDisconnectAfter(h, i);
    hide PeerDisconnect;
  }

  lemma OtherFlag(h: HostState, step: Step)
    requires Enabled(h, step)
    requires step.OwesAcknowledgement? || step.AcknowledgeDisconnect? || step.BandwidthLimit? || step.Packets?
    requires MarkOk(h.peers[step.slot])
    ensures var h1 := Next(h, step);
      && Kept(h, h1)
      && (|h1.peers| == |h.peers| && ChangesShares(h, h1, step.slot) ==> h1.recalculateBandwidthLimits)
  {
    var i := step.slot;
    hide DispatchState;
    PartsFlag(With(h, i, h.peers[i].(owesDisconnect := false)), i, Zombie);
    PartsAfter(With(h, i, h.peers[i].(owesDisconnect := false)), i, Zombie);
  }

  /** A step on another slot changes nothing for this one. */
  lemma ElsewhereShares(h: HostState, h1: HostState, j: nat, i: nat)
    requires Net(h, h1, j) && i != j && i < |h.peers|
    ensures |h1.peers| == |h.peers| && !ChangesShares(h, h1, i)
  {
    hide QueueNet, MarkOk, AnnouncedOk;
  }

  lemma SlotRenews(h: HostState, step: Step)
    requires Inv(h) && Enabled(h, step)
    requires !step.HostConnect? && !step.HostAccept? && !step.DispatchEvents?
    ensures var h1 := Next(h, step);
      && Kept(h, h1)
      && (|h1.peers| == |h.peers| && ChangesShares(h, h1, step.slot) ==> h1.recalculateBandwidthLimits)
  {
    PeerFacts(h, step.slot);
    hide Inv, Next, Enabled, ChangesShares, MarkOk;
    match step
    case VerifyConnect(_, _, _, _) => VerifyFlag(h, step);
    case Acknowledge(_, _, _, _) => AcknowledgeFlag(h, step);
    case TimeOut(_, _) => EndFlag(h, step);
    case DisconnectArrives(_, _, _) => EndFlag(h, step);
    case AskDisconnect(_) => EndFlag(h, step);
    case AskDisconnectNow(_) => AskFlag(h, step);
    case AskReset(_) => AskFlag(h, step);
    case AskDisconnectLater(_, _, _) => TakeFlag(h, step);
    case Take(_) => TakeFlag(h, step);
    case _ => OtherFlag(h, step);
  }

  /** In every run, a connection that comes about and an end that is reported have the bandwidth limits
      told anew, for nothing but telling them clears the flag. */
  lemma SharesRenewed(run: seq<HostState>, steps: seq<Step>, k: nat, i: nat)
    requires IsRun(run, steps) && k < |steps| && i < |run[k].peers|
    ensures |run[k + 1].peers| == |run[k].peers| && Kept(run[k], run[k + 1])
    ensures ChangesShares(run[k], run[k + 1], i) ==> run[k + 1].recalculateBandwidthLimits
  {
    NextIs(run, steps, k);
    RunOk(run, steps, k);
    SamePeers(run[k], steps[k]);
    hide IsRun, Inv, ChangesShares;
    StepRenews(run[k], steps[k], i);
  }

  lemma StepRenews(h: HostState, step: Step, i: nat)
    requires Inv(h) && Enabled(h, step) && i < |h.peers|
    ensures |Next(h, step).peers| == |h.peers| && Kept(h, Next(h, step))
    ensures ChangesShares(h, Next(h, step), i) ==> Next(h, step).recalculateBandwidthLimits
  {
    SamePeers(h, step);
    if step.HostConnect? || step.HostAccept? {
      hide Inv, QueueInside;
    } else if step.DispatchEvents? {
      EnabledInside(h, step);
      hide Inv, Dispatch, ChangesShares;
      DispatchRenews(h, i);
    } else {
      hide Inv, Next, Enabled, ChangesShares, Hands, Net;
      SlotRenews(h, step);
      if step.slot != i {
        StepNet(h, step);
        ElsewhereShares(h, Next(h, step), step.slot, i);
      }
    }
  }

  lemma StepNet(h: HostState, step: Step)
    requires Inv(h) && Enabled(h, step)
    requires !step.HostConnect? && !step.HostAccept? && !step.DispatchEvents?
    ensures Net(h, Next(h, step), step.slot)
  {
    SlotInside(h, step);
    if step.Packets? {
      hide Inv, Net, Arrived;
      ArrivedNet(h, step.slot, step.packets);
    } else {
      hide Inv, Next, Net, Hands;
      StepHands(h, step);
      HandsNet(h, Next(h, step), step.slot);
    }
  }
}
