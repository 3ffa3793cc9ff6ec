/** Two runs of a handshake that do not end in agreement: one in which the server's slot is reset,
    and one with an MTU below the protocol's minimum. */
module HandshakeStories {
  import opened Handshake
  import opened HandshakeRuns
  import opened PeerStates
  import Sums
  import opened Words

  /** The same end as `Ends`, whatever was reset. */
  ghost predicate LooseEnds(s: System, a: Address, i: nat, b: Address, j: nat) {
    && a in s.hosts && b in s.hosts && i < |s.hosts[a].slots| && j < |s.hosts[b].slots|
    && var p, q := s.hosts[a].slots[i], s.hosts[b].slots[j];
      Joined(p) && Serving(q) && p.address == b && q.address == a && p.connectID == q.connectID
  }

  /** Two hosts of one slot each. */
  ghost function Pair(a: Address, b: Address, h: Handshake.HostState, g: Handshake.HostState, p: Slot, q: Slot, n: nat,
                      sent: set<Datagram>, resets: set<Key>): System
  {
    System(map[a := h.(slots := [p], randomSeed := n), b := g.(slots := [q])], map[a := n, b := 0], sent, resets)
  }

  lemma PairAsks(a: Address, b: Address, h: Handshake.HostState, g: Handshake.HostState, p: Slot, q: Slot)
    requires a != b && p.state.Disconnected?
    ensures Enabled(Pair(a, b, h, g, p, q, 0, {}, {}), ConnectTo(a, b, 1, 0))
    ensures var p1 := Asking(p, h, b, 1, 1);
      Next(Pair(a, b, h, g, p, q, 0, {}, {}), ConnectTo(a, b, 1, 0))
      == Pair(a, b, h, g, p1, q, 1, {Datagram(a, b, NO_PEER, 0, Command.Connect(Request(p1, h, 0, 0)))}, {})
  {
    var p1 := Asking(p, h, b, 1, 1);
    AskingLimits(p, h, b);
    hide Asking, Request;
    assert FirstFree([p]) == 0;
    hide FirstFree;
    assert [p][0 := p1] == [p1];
  }

  lemma AskingLimits(p: Slot, h: Handshake.HostState, b: Address)
    ensures var h1 := h.(slots := [p], randomSeed := 0);
      Asking(p, h1, b, 1, 1) == Asking(p, h, b, 1, 1) && forall q: Slot :: Request(q, h1, 0, 0) == Request(q, h, 0, 0)
  {
  }

  lemma PairAccepts(a: Address, b: Address, h: Handshake.HostState, g: Handshake.HostState, p: Slot, q: Slot,
                    sent: set<Datagram>, resets: set<Key>, m: Datagram)
    requires a != b && q.state.Disconnected? && g.duplicatePeers > 0
    requires m in sent && m.command.Connect? && m.from == a && m.to == b && m.peerID == NO_PEER
    requires 1 <= m.command.request.channelCount <= MAXIMUM_CHANNELS
    ensures Enabled(Pair(a, b, h, g, p, q, 1, sent, resets), Deliver(m, true))
    ensures var q1 := Accepting(q, g, a, m.command.request);
      Next(Pair(a, b, h, g, p, q, 1, sent, resets), Deliver(m, true))
      == Pair(a, b, h, g, p, q1, 1, sent + {AnswerDatagram(b, q1, Answer(q1, g, 0, m.command.request))}, resets)
  {
    NoneFrom(q, a);
    hide Accepting, Answer, Sums.Count;
    assert FirstFree([q]) == 0;
    var q1 := Accepting(q, g, a, m.command.request);
    assert [q][0 := q1] == [q1];
    AcceptingLimits(q, g, a, m.command.request);
  }

  lemma NoneFrom(p: Slot, from: Address)
    requires p.state.Disconnected?
    ensures Sums.Count([p], q => From(q, from.host)) == 0
  {
    assert [p][..0] == [];
  }

  lemma AcceptingLimits(q: Slot, h: Handshake.HostState, a: Address, c: ConnectCommand)
    ensures Accepting(q, h.(slots := [q]), a, c) == Accepting(q, h, a, c)
    ensures forall p: Slot :: Answer(p, h.(slots := [q]), 0, c) == Answer(p, h, 0, c)
    ensures Accepting(q, h, a, c).address == a
  {
  }

  lemma PairForgets(a: Address, b: Address, h: Handshake.HostState, g: Handshake.HostState, p: Slot, q: Slot,
                    sent: set<Datagram>)
    requires a != b && Serving(q) && q.address == a
    ensures Enabled(Pair(a, b, h, g, p, q, 1, sent, {}), Forget(b, 0))
    ensures Next(Pair(a, b, h, g, p, q, 1, sent, {}), Forget(b, 0))
      == Pair(a, b, h, g, p, ResetSlot(q, g), 1, sent, {Key(b, a, q.connectID)})
  {
    assert [q][0 := ResetSlot(q, g)] == [ResetSlot(q, g)];
  }

  /** The client's host is given another MTU, and resets its free slot. */
  lemma PairConfigures(a: Address, b: Address, h: Handshake.HostState, g: Handshake.HostState, p: Slot, q: Slot,
                       mtu: nat)
    requires a != b && 1 <= h.channelLimit <= MAXIMUM_CHANNELS && p.state.Disconnected?
    ensures var s := Pair(a, b, h, g, p, q, 0, {}, {});
      var step := Configure(a, h.channelLimit, mtu, h.incomingBandwidth, h.outgoingBandwidth, h.duplicatePeers);
      Enabled(s, step) && Next(s, step) == Pair(a, b, h.(mtu := mtu), g, p, q, 0, {}, {})
    ensures var s := Pair(a, b, h, g, p, q, 0, {}, {});
      Enabled(s, Forget(a, 0)) && Next(s, Forget(a, 0)) == Pair(a, b, h, g, ResetSlot(p, h), q, 0, {}, {})
  {
    assert [p][0 := ResetSlot(p, h)] == [ResetSlot(p, h)];
  }

  lemma PairTakes(a: Address, b: Address, h: Handshake.HostState, g: Handshake.HostState, p: Slot, q: Slot,
                  sent: set<Datagram>, resets: set<Key>, d: Datagram)
    requires a != b && p.state.Connecting? && p.address == b && p.outgoingPeerID == NO_PEER
    requires d in sent && d.command.VerifyConnect? && d.from == b && d.to == a && d.peerID == 0
    requires Matches(p, d.command.answer)
    ensures Enabled(Pair(a, b, h, g, p, q, 1, sent, resets), Deliver(d, true))
    ensures var p1 := Established(p, d.command.answer, true);
      Next(Pair(a, b, h, g, p, q, 1, sent, resets), Deliver(d, true))
      == Pair(a, b, h, g, p1, q, 1,
              sent + {Datagram(a, p1.address, p1.outgoingPeerID, p1.outgoingSessionID, Acknowledge)}, resets)
  {
    var p1 := Established(p, d.command.answer, true);
    assert [p][0 := p1] == [p1];
    assert AcknowledgesVerify(p1.state);
    hide Established;
  }

  const HERE := Address(1, 1)
  const THERE := Address(2, 2)
  const EMPTY := FreshSlot(1400)
  const ALONE := Handshake.HostState.HostState([EMPTY], 0, MAXIMUM_CHANNELS, 1400, 0, 0, NO_PEER)
  const ASKED := Asking(EMPTY, ALONE, THERE, 1, 1)
  const REQUEST := Datagram(HERE, THERE, NO_PEER, 0, Command.Connect(Request(ASKED, ALONE, 0, 0)))
  const SERVED := Accepting(EMPTY, ALONE, HERE, REQUEST.command.request)
  const ANSWER := AnswerDatagram(THERE, SERVED, Answer(SERVED, ALONE, 0, REQUEST.command.request))
  const EMPTIED := ResetSlot(SERVED, ALONE)
  const SERVED_AGAIN := Accepting(EMPTIED, ALONE, HERE, REQUEST.command.request)
  const ANSWER_AGAIN := AnswerDatagram(THERE, SERVED_AGAIN, Answer(SERVED_AGAIN, ALONE, 0, REQUEST.command.request))
  const TAKEN := Established(ASKED, ANSWER.command.answer, true)
  const THANKS := Datagram(HERE, TAKEN.address, TAKEN.outgoingPeerID, TAKEN.outgoingSessionID, Acknowledge)

  lemma StoryFacts()
    ensures HERE != THERE && EMPTY.state.Disconnected? && ALONE.slots == [EMPTY] && ALONE.randomSeed == 0
    ensures ALONE.duplicatePeers > 0 && 1 <= ALONE.channelLimit
    ensures EMPTY == FreshSlot(1400) && ASKED == Asking(EMPTY, ALONE, THERE, 1, 1)
    ensures REQUEST == Datagram(HERE, THERE, NO_PEER, 0, Command.Connect(Request(ASKED, ALONE, 0, 0)))
    ensures SERVED == Accepting(EMPTY, ALONE, HERE, REQUEST.command.request) && EMPTIED == ResetSlot(SERVED, ALONE)
    ensures ANSWER == AnswerDatagram(THERE, SERVED, Answer(SERVED, ALONE, 0, REQUEST.command.request))
    ensures SERVED_AGAIN == Accepting(EMPTIED, ALONE, HERE, REQUEST.command.request)
    ensures ANSWER_AGAIN == AnswerDatagram(THERE, SERVED_AGAIN, Answer(SERVED_AGAIN, ALONE, 0, REQUEST.command.request))
    ensures TAKEN == Established(ASKED, ANSWER.command.answer, true)
    ensures THANKS == Datagram(HERE, TAKEN.address, TAKEN.outgoingPeerID, TAKEN.outgoingSessionID, Acknowledge)
    ensures ASKED.state.Connecting? && ASKED.address == THERE && ASKED.outgoingPeerID == NO_PEER
    ensures MAXIMUM_CHANNELS == 255 && REQUEST.command.Connect? && REQUEST.from == HERE && REQUEST.to == THERE
    ensures REQUEST.peerID == NO_PEER
            && REQUEST.command.request.channelCount == 1
    ensures Serving(SERVED) && SERVED.address == HERE && EMPTIED.state.Disconnected?
    ensures ANSWER.command.VerifyConnect? && ANSWER.from == THERE && ANSWER.to == HERE && ANSWER.peerID == 0
    ensures Matches(ASKED, ANSWER.command.answer)
    ensures Joined(TAKEN) && Serving(SERVED_AGAIN) && TAKEN.address == THERE && SERVED_AGAIN.address == HERE
    ensures TAKEN.connectID == SERVED_AGAIN.connectID && !Crossed(TAKEN, 0, SERVED_AGAIN, 0)
  {
  }

  /** The condition on resets is needed: a server slot is reset, the repeated request takes it
      again, and the client then takes the first answer. */
  lemma ResetUncrosses() returns (run: seq<System>, steps: seq<Step>)
    ensures IsRun(run, steps) && LooseEnds(run[|steps|], HERE, 0, THERE, 0)
    ensures !Crossed(run[|steps|].hosts[HERE].slots[0], 0, run[|steps|].hosts[THERE].slots[0], 0)
  {
    hide *;
    StoryFacts();
    var h := ALONE;
    var key := Key(THERE, HERE, SERVED.connectID);
    run := [Pair(HERE, THERE, h, h, EMPTY, EMPTY, 0, {}, {}), Pair(HERE, THERE, h, h, ASKED, EMPTY, 1, {REQUEST}, {}),
            Pair(HERE, THERE, h, h, ASKED, SERVED, 1, {REQUEST} + {ANSWER}, {}),
            Pair(HERE, THERE, h, h, ASKED, EMPTIED, 1, {REQUEST} + {ANSWER}, {key}),
            Pair(HERE, THERE, h, h, ASKED, SERVED_AGAIN, 1, {REQUEST} + {ANSWER} + {ANSWER_AGAIN}, {key}),
            Pair(HERE, THERE, h, h, TAKEN, SERVED_AGAIN, 1, {REQUEST} + {ANSWER} + {ANSWER_AGAIN} + {THANKS}, {key})];
    steps := [ConnectTo(HERE, THERE, 1, 0), Deliver(REQUEST, true), Forget(THERE, 0), Deliver(REQUEST, true),
              Deliver(ANSWER, true)];
    PairAsks(HERE, THERE, h, h, EMPTY, EMPTY);
    PairAccepts(HERE, THERE, h, h, ASKED, EMPTY, {REQUEST}, {}, REQUEST);
    PairForgets(HERE, THERE, h, h, ASKED, SERVED, {REQUEST} + {ANSWER});
    PairAccepts(HERE, THERE, h, h, ASKED, EMPTIED, {REQUEST} + {ANSWER}, {key}, REQUEST);
    PairTakes(HERE, THERE, h, h, ASKED, SERVED_AGAIN, {REQUEST} + {ANSWER} + {ANSWER_AGAIN}, {key}, ANSWER);
    assert run[0 + 1] == Next(run[0], steps[0]);
    assert run[1 + 1] == Next(run[1], steps[1]);
    assert run[2 + 1] == Next(run[2], steps[2]);
    assert run[3 + 1] == Next(run[3], steps[3]);
    assert run[4 + 1] == Next(run[4], steps[4]);
    PairBegins(HERE, THERE, h);
    MakeRun(run, steps);
    PairEnds(HERE, THERE, h, h, TAKEN, SERVED_AGAIN, {REQUEST} + {ANSWER} + {ANSWER_AGAIN} + {THANKS}, {key});
  }

  lemma PairBegins(a: Address, b: Address, h: Handshake.HostState)
    requires 1 <= h.channelLimit
    ensures Initial(Pair(a, b, h, h, FreshSlot(1400), FreshSlot(1400), 0, {}, {}))
  {
  }

  lemma MakeRun(run: seq<System>, steps: seq<Step>)
    requires |run| == |steps| + 1 && Initial(run[0])
    requires forall k {:trigger steps[k]} :: 0 <= k < |steps| ==>
      Enabled(run[k], steps[k]) && run[k + 1] == Next(run[k], steps[k])
    ensures IsRun(run, steps)
  {
  }

  lemma PairEnds(a: Address, b: Address, h: Handshake.HostState, g: Handshake.HostState, p: Slot, q: Slot,
                 sent: set<Datagram>, resets: set<Key>)
    requires a != b && Joined(p) && Serving(q) && p.address == b && q.address == a && p.connectID == q.connectID
    ensures var s := Pair(a, b, h, g, p, q, 1, sent, resets);
      LooseEnds(s, a, 0, b, 0) && (Key(b, a, q.connectID) !in resets ==>
        Ends(s, a, 0, b, 0)) && s.hosts[a].slots[0] == p && s.hosts[b].slots[0] == q
  {
  }

  // ----- an MTU below the minimum -----

  const SMALL := ALONE.(mtu := 100)
  const SHRUNK := ResetSlot(EMPTY, SMALL)
  const SMALL_ASKED := Asking(SHRUNK, SMALL, THERE, 1, 1)
  const SMALL_REQUEST := Datagram(HERE, THERE, NO_PEER, 0, Command.Connect(Request(SMALL_ASKED, SMALL, 0, 0)))
  const SMALL_SERVED := Accepting(EMPTY, ALONE, HERE, SMALL_REQUEST.command.request)
  const SMALL_ANSWER :=
    AnswerDatagram(THERE, SMALL_SERVED, Answer(SMALL_SERVED, ALONE, 0, SMALL_REQUEST.command.request))
  const SMALL_TAKEN := Established(SMALL_ASKED, SMALL_ANSWER.command.answer, true)
  const SMALL_THANKS :=
    Datagram(HERE, SMALL_TAKEN.address, SMALL_TAKEN.outgoingPeerID, SMALL_TAKEN.outgoingSessionID, Acknowledge)

  lemma SmallFacts()
    ensures SMALL == ALONE.(mtu := 100) && SHRUNK == ResetSlot(EMPTY, SMALL) && SHRUNK.state.Disconnected?
    ensures ALONE.channelLimit == 255 && ALONE.incomingBandwidth == ALONE.outgoingBandwidth == 0
    ensures ALONE.duplicatePeers == 4095
    ensures SMALL_ASKED == Asking(SHRUNK, SMALL, THERE, 1, 1)
    ensures SMALL_REQUEST == Datagram(HERE, THERE, NO_PEER, 0, Command.Connect(Request(SMALL_ASKED, SMALL, 0, 0)))
    ensures SMALL_SERVED == Accepting(EMPTY, ALONE, HERE, SMALL_REQUEST.command.request)
    ensures SMALL_ANSWER
         == AnswerDatagram(THERE, SMALL_SERVED, Answer(SMALL_SERVED, ALONE, 0, SMALL_REQUEST.command.request))
    ensures SMALL_TAKEN == Established(SMALL_ASKED, SMALL_ANSWER.command.answer, true)
    ensures SMALL_THANKS
         == Datagram(HERE, SMALL_TAKEN.address, SMALL_TAKEN.outgoingPeerID, SMALL_TAKEN.outgoingSessionID, Acknowledge)
    ensures SMALL_ASKED.state.Connecting? && SMALL_ASKED.address == THERE && SMALL_ASKED.outgoingPeerID == NO_PEER
    ensures SMALL_REQUEST.command.Connect? && SMALL_REQUEST.from == HERE && SMALL_REQUEST.to == THERE
    ensures SMALL_REQUEST.peerID == NO_PEER && SMALL_REQUEST.command.request.channelCount == 1
    ensures SMALL_ANSWER.command.VerifyConnect? && SMALL_ANSWER.from == THERE && SMALL_ANSWER.to == HERE
    ensures SMALL_ANSWER.peerID == 0 && Matches(SMALL_ASKED, SMALL_ANSWER.command.answer)
    ensures Joined(SMALL_TAKEN) && Serving(SMALL_SERVED) && SMALL_TAKEN.address == THERE && SMALL_SERVED.address == HERE
    ensures SMALL_TAKEN.connectID == SMALL_SERVED.connectID && SMALL_TAKEN.mtu == 100 && SMALL_SERVED.mtu == 576
  {
  }

  /** A host whose MTU is set to 100 ends with 100 on its side and 576 on the other. */
  lemma MtuDisagrees() returns (run: seq<System>, steps: seq<Step>)
    ensures IsRun(run, steps) && Ends(run[|steps|], HERE, 0, THERE, 0)
    ensures run[|steps|].hosts[HERE].slots[0].mtu == 100 && run[|steps|].hosts[THERE].slots[0].mtu == 576
  {
    hide *;
    StoryFacts();
    SmallFacts();
    var h, g := ALONE, SMALL;
    run := [Pair(HERE, THERE, h, h, EMPTY, EMPTY, 0, {}, {}), Pair(HERE, THERE, g, h, EMPTY, EMPTY, 0, {}, {}),
            Pair(HERE, THERE, g, h, SHRUNK, EMPTY, 0, {}, {}),
                Pair(HERE, THERE, g, h, SMALL_ASKED, EMPTY, 1, {SMALL_REQUEST}, {}),
            Pair(HERE, THERE, g, h, SMALL_ASKED, SMALL_SERVED, 1, {SMALL_REQUEST} + {SMALL_ANSWER}, {}),
            Pair(HERE, THERE, g, h, SMALL_TAKEN, SMALL_SERVED, 1, {SMALL_REQUEST} + {SMALL_ANSWER} + {SMALL_THANKS},
                 {})];
    steps := [Configure(HERE, 255, 100, 0, 0, 4095), Forget(HERE, 0), ConnectTo(HERE, THERE, 1, 0),
              Deliver(SMALL_REQUEST, true),
              Deliver(SMALL_ANSWER, true)];
    PairConfigures(HERE, THERE, h, h, EMPTY, EMPTY, 100);
    PairConfigures(HERE, THERE, g, h, EMPTY, EMPTY, 100);
    PairAsks(HERE, THERE, g, h, SHRUNK, EMPTY);
    PairAccepts(HERE, THERE, g, h, SMALL_ASKED, EMPTY, {SMALL_REQUEST}, {}, SMALL_REQUEST);
    PairTakes(HERE, THERE, g, h, SMALL_ASKED, SMALL_SERVED, {SMALL_REQUEST} + {SMALL_ANSWER}, {}, SMALL_ANSWER);
    assert run[0 + 1] == Next(run[0], steps[0]);
    assert run[1 + 1] == Next(run[1], steps[1]);
    assert run[2 + 1] == Next(run[2], steps[2]);
    assert run[3 + 1] == Next(run[3], steps[3]);
    assert run[4 + 1] == Next(run[4], steps[4]);
    PairBegins(HERE, THERE, h);
    MakeRun(run, steps);
    PairEnds(HERE, THERE, g, h, SMALL_TAKEN, SMALL_SERVED, {SMALL_REQUEST} + {SMALL_ANSWER} + {SMALL_THANKS}, {});
  }
}
