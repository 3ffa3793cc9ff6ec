/** The states a peer goes through, seen from the handshake: every operation of a host on its
    peers is a step of the handshake, a reset, or an advance. */
module PeerMoves {
  import HandshakeRuns
  import PeerInvariants
  import PeerRuns
  import opened PeerStates

  /** What the handshake itself does to a state. */
  predicate Begins(step: PeerRuns.Step, s: State, t: State) {
    || (step.HostConnect? && s.Disconnected? && t.Connecting?)
    || (step.HostAccept? && s.Disconnected? && t.AcknowledgingConnect?)
    || (step.VerifyConnect? && s.Connecting? && (t.Connected? || t.ConnectionSucceeded?))
    || (step.Acknowledge? && s.AcknowledgingConnect? && (t.Connected? || t.ConnectionPending?))
  }

  predicate Moves(step: PeerRuns.Step, s: State, t: State) {
    t.Disconnected? || HandshakeRuns.Advances(s, t) || Begins(step, s, t)
  }

  /** Peer `i` comes to a state, and no other peer is touched. */
  ghost predicate Sets(h: HostState, h1: HostState, i: nat, t: State) {
    i < |h.peers| == |h1.peers| && h1.peers == h.peers[i := h1.peers[i]] && h1.peers[i].state == t
  }

  lemma ChangeSets(h: HostState, i: nat, t: State)
    requires i < |h.peers|
    ensures Sets(h, ChangeState(h, i, t), i, t) && Sets(h, DispatchState(h, i, t), i, t)
  {
  }

  lemma ResetSets(h: HostState, i: nat)
    requires i < |h.peers|
    ensures Sets(h, Reset(h, i), i, Disconnected) && Sets(h, ResetQueues(h, i), i, h.peers[i].state)
  {
    hide Removed;
  }

  /** The parts that every operation is made of, at one peer. */
  lemma PartsSet(i: nat)
    ensures forall h: HostState, t {:trigger ChangeState(h, i, t)} :: i < |h.peers| ==>
      Sets(h, ChangeState(h, i, t), i, t)
    ensures forall h: HostState, t {:trigger DispatchState(h, i, t)} :: i < |h.peers| ==>
      Sets(h, DispatchState(h, i, t), i, t)
    ensures forall h: HostState {:trigger Reset(h, i)} :: i < |h.peers| ==> Sets(h, Reset(h, i), i, Disconnected)
    ensures forall h: HostState {:trigger ResetQueues(h, i)} :: i < |h.peers| ==>
      Sets(h, ResetQueues(h, i), i, h.peers[i].state)
    ensures forall h: HostState {:trigger OnDisconnect(h, i)} :: i < |h.peers| ==> OnDisconnect(h, i).peers == h.peers
  {
    hide ChangeState, DispatchState, Reset, ResetQueues, Sets;
    forall h: HostState, t: State | i < |h.peers|
      ensures Sets(h, ChangeState(h, i, t), i, t) && Sets(h, DispatchState(h, i, t), i, t)
    {
      ChangeSets(h, i, t);
    }
    forall h: HostState | i < |h.peers|
      ensures Sets(h, Reset(h, i), i, Disconnected) && Sets(h, ResetQueues(h, i), i, h.peers[i].state)
    {
      ResetSets(h, i);
    }
  }

  /** One peer's state moves, and no other peer is touched. */
  ghost predicate Moved(h: HostState, h1: HostState, step: PeerRuns.Step, i: nat) {
    && i < |h.peers| == |h1.peers| && h1.peers == h.peers[i := h1.peers[i]]
    && Moves(step, h.peers[i].state, h1.peers[i].state)
  }

  lemma HandshakeMoves(h: HostState, step: PeerRuns.Step)
    requires PeerRuns.Enabled(h, step) && (step.VerifyConnect? || step.Acknowledge?)
    ensures Moved(h, PeerRuns.Next(h, step), step, step.slot)
  {
    hide ChangeState, DispatchState, Reset, ResetQueues, OnDisconnect;
    PartsSet(step.slot);
  }

  lemma DisconnectMoves(h: HostState, step: PeerRuns.Step)
    requires PeerRuns.Enabled(h, step)
    requires (step.DisconnectArrives? || step.AskDisconnect? || step.AskDisconnectNow? || step.AskDisconnectLater?)
    ensures Moved(h, PeerRuns.Next(h, step), step, step.slot)
  {
    hide ChangeState, DispatchState, Reset, ResetQueues, OnDisconnect;
    PartsSet(step.slot);
  }

  lemma OtherMoves(h: HostState, step: PeerRuns.Step)
    requires PeerRuns.Enabled(h, step) && !step.HostConnect? && !step.HostAccept? && !step.DispatchEvents?
    requires !step.VerifyConnect? && !step.Acknowledge?
    requires !step.DisconnectArrives? && !step.AskDisconnect? && !step.AskDisconnectNow? && !step.AskDisconnectLater?
    requires h.peers[step.slot].owesDisconnect ==> !h.peers[step.slot].state.Disconnected?
    ensures Moved(h, PeerRuns.Next(h, step), step, step.slot)
  {
    hide ChangeState, DispatchState, Reset, ResetQueues, OnDisconnect;
    PartsSet(step.slot);
  }

  lemma BeginMoves(h: HostState, step: PeerRuns.Step, i: nat)
    requires PeerRuns.Enabled(h, step) && (step.HostConnect? || step.HostAccept?) && i < |h.peers|
    ensures |PeerRuns.Next(h, step).peers| == |h.peers|
    ensures Moves(step, h.peers[i].state, PeerRuns.Next(h, step).peers[i].state)
  {
  }

  lemma DispatchMoves(h: HostState, step: PeerRuns.Step, i: nat)
    requires PeerRuns.Enabled(h, step) && step.DispatchEvents? && i < |h.peers|
    ensures |PeerRuns.Next(h, step).peers| == |h.peers|
    ensures Moves(step, h.peers[i].state, PeerRuns.Next(h, step).peers[i].state)
  {
    hide DispatchFirst;
    DispatchAdvances(h, i);
  }

  /** Every step of a host's peers is one of the handshake, a reset, or an advance. */
  lemma PeersAdvance(h: HostState, step: PeerRuns.Step, i: nat)
    requires PeerInvariants.Inv(h) && PeerRuns.Enabled(h, step) && i < |h.peers|
    ensures |PeerRuns.Next(h, step).peers| == |h.peers|
    ensures Moves(step, h.peers[i].state, PeerRuns.Next(h, step).peers[i].state)
  {
    hide PeerRuns.Next, PeerInvariants.CountersOk, PeerInvariants.EventsOk;
    match step
    case HostConnect => BeginMoves(h, step, i);
    case HostAccept(_, _) => BeginMoves(h, step, i);
    case DispatchEvents => DispatchMoves(h, step, i);
    case VerifyConnect(_, _, _, _) => HandshakeMoves(h, step);
    case Acknowledge(_, _, _, _) => HandshakeMoves(h, step);
    case DisconnectArrives(_, _, _) => DisconnectMoves(h, step);
    case AskDisconnect(_) => DisconnectMoves(h, step);
    case AskDisconnectNow(_) => DisconnectMoves(h, step);
    case AskDisconnectLater(_, _, _) => DisconnectMoves(h, step);
    case _ =>
      var _ := h.peers[step.slot];
      OtherMoves(h, step);
  }

  lemma {:induction false} DispatchAdvances(h: HostState, i: nat)
    requires QueueInside(h) && i < |h.peers|
    ensures var h1 := Dispatch(h).0;
      && |h1.peers| == |h.peers|
      && (h1.peers[i].state.Disconnected? || HandshakeRuns.Advances(h.peers[i].state, h1.peers[i].state))
    decreases |h.dispatchQueue|
  {
    if h.dispatchQueue != [] {
      FirstInside(h);
      PartsSet(h.dispatchQueue[0]);
      hide ChangeState, Reset, ResetQueues, OnDisconnect;
      if !DispatchFirst(h).1 {
        DispatchAdvances(DispatchFirst(h).0, i);
      }
    }
  }
}
