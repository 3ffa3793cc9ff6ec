/** The handshake: a connect request, the answer to it, and what the two ends take from them. */
module Handshake {
  import opened PeerStates
  import opened Sums
  import opened Words

  const MINIMUM_MTU := 576
  const MAXIMUM_MTU := 4096
  const MINIMUM_WINDOW := 4096
  const MAXIMUM_WINDOW := 65536
  const WINDOW_SCALE := 65536
  const MAXIMUM_CHANNELS := 255
  const NO_PEER := 0xFFF
  const NO_SESSION := 0xFF

  datatype Address = Address(host: nat, port: nat)

  datatype Throttle = Throttle(interval: nat, acceleration: nat, deceleration: nat)

  const DEFAULT_THROTTLE := Throttle(5000, 2, 2)

  /** What of a peer the handshake sets.  `accepted` says that the slot was taken by a request
      from outside; it is history, and nothing decides on it. */
  datatype Slot = Slot(
    state: State, address: Address, connectID: nat, outgoingPeerID: nat, incomingSessionID: nat, outgoingSessionID: nat,
    channelCount: nat, mtu: nat, windowSize: nat, incomingBandwidth: nat, outgoingBandwidth: nat, throttle: Throttle,
    eventData: nat, accepted: bool)

  datatype HostState = HostState(
    slots: seq<Slot>, randomSeed: nat, channelLimit: nat, mtu: nat, incomingBandwidth: nat, outgoingBandwidth: nat,
    duplicatePeers: nat)

  datatype ConnectCommand = ConnectCommand(
    outgoingPeerID: nat, incomingSessionID: nat, outgoingSessionID: nat, mtu: nat, windowSize: nat, channelCount: nat,
    incomingBandwidth: nat, outgoingBandwidth: nat, throttle: Throttle, connectID: nat, data: nat)

  datatype VerifyCommand = VerifyCommand(
    outgoingPeerID: nat, incomingSessionID: nat, outgoingSessionID: nat, mtu: nat, windowSize: nat, channelCount: nat,
    incomingBandwidth: nat, outgoingBandwidth: nat, throttle: Throttle, connectID: nat)

  // ----- what is negotiated -----

  function Min(a: nat, b: nat): nat { if a < b then a else b }

  function Max(a: nat, b: nat): nat { if a < b then b else a }

  function Between(low: nat, x: nat, high: nat): nat { if x < low then low else if x > high then high else x }

  function ScaledWindow(bandwidth: nat): nat { bandwidth / WINDOW_SCALE * MINIMUM_WINDOW }

  /** What a host may send ahead, given its own and the other side's limit; 0 is no limit. */
  function SendWindow(outgoing: nat, theirIncoming: nat): nat {
    Between(MINIMUM_WINDOW,
            if outgoing == 0 && theirIncoming == 0 then MAXIMUM_WINDOW
            else if outgoing == 0 || theirIncoming == 0 then ScaledWindow(Max(outgoing, theirIncoming))
            else ScaledWindow(Min(outgoing, theirIncoming)),
            MAXIMUM_WINDOW)
  }

  /** What a host lets the other side send ahead. */
  function ReceiveWindow(incoming: nat, asked: nat): nat {
    Between(MINIMUM_WINDOW, Min(if incoming == 0 then MAXIMUM_WINDOW else ScaledWindow(incoming), asked),
            MAXIMUM_WINDOW)
  }

  /** The session identifier that follows the one in use: never the one this slot used last. */
  function NextSession(theirs: nat, ours: nat): (r: nat)
    ensures r < 4 && r != ours
  {
    var next := ((if theirs == NO_SESSION then ours else theirs) + 1) % 4;
    if next == ours then (next + 1) % 4 else next
  }

  predicate Live(s: State) { !s.Disconnected? }

  /** A slot that a connect request is compared with. */
  predicate Occupied(p: Slot) { !p.state.Disconnected? && !p.state.Connecting? }

  predicate Serves(p: Slot, from: Address, connectID: nat) {
    Occupied(p) && p.address == from && p.connectID == connectID
  }

  predicate Served(slots: seq<Slot>, from: Address, connectID: nat) {
    exists j {:trigger slots[j]} :: 0 <= j < |slots| && Serves(slots[j], from, connectID)
  }

  predicate From(p: Slot, host: nat) { Occupied(p) && p.address.host == host }

  function FirstFree(slots: seq<Slot>): (i: nat)
    ensures i <= |slots| && (i < |slots| ==> slots[i].state.Disconnected?)
    ensures forall j {:trigger slots[j]} :: 0 <= j < i ==> !slots[j].state.Disconnected?
    decreases |slots|
  {
    if slots == [] then 0
    else if FirstFree(slots[..|slots| - 1]) < |slots| - 1 then FirstFree(slots[..|slots| - 1])
    else if slots[|slots| - 1].state.Disconnected? then |slots| - 1
    else |slots|
  }

  function WithSlot(h: HostState, i: nat, p: Slot): HostState
    requires i < |h.slots|
  {
    h.(slots := h.slots[i := p])
  }

  // ----- the client -----

  function Asking(p: Slot, h: HostState, address: Address, channelCount: nat, connectID: nat): Slot {
    p.(state := Connecting, address := address, connectID := connectID,
       channelCount := Between(1, channelCount, MAXIMUM_CHANNELS),
       windowSize := SendWindow(h.outgoingBandwidth, 0), accepted := false)
  }

  function Request(p: Slot, h: HostState, i: nat, data: nat): ConnectCommand {
    ConnectCommand(i, p.incomingSessionID, p.outgoingSessionID, p.mtu, p.windowSize, p.channelCount,
                   h.incomingBandwidth,
                   h.outgoingBandwidth, p.throttle, p.connectID, data)
  }

  /** A host asks for a connection: the slot it uses and what it sends. */
  function HostConnect(h: HostState, address: Address, channelCount: nat, data: nat): (HostState,
                       Option<(nat, ConnectCommand)>) {
    var i := FirstFree(h.slots);
    if i == |h.slots| then (h, None) else (
      var connectID := (h.randomSeed + 1) % TWO_32;
      var p := Asking(h.slots[i], h, address, channelCount, connectID);
      (WithSlot(h.(randomSeed := connectID), i, p), Some((i, Request(p, h, i, data)))))
  }

  predicate Matches(p: Slot, c: VerifyCommand) {
    1 <= c.channelCount <= MAXIMUM_CHANNELS && c.throttle == p.throttle && c.connectID == p.connectID
  }

  function Established(p: Slot, c: VerifyCommand, event: bool): Slot {
    p.(state := if event then Connected else ConnectionSucceeded, channelCount := Min(c.channelCount, p.channelCount),
       outgoingPeerID := c.outgoingPeerID, incomingSessionID := c.incomingSessionID, outgoingSessionID :=
         c.outgoingSessionID,
       mtu := Min(Between(MINIMUM_MTU, c.mtu, MAXIMUM_MTU), p.mtu),
       windowSize := Min(Between(MINIMUM_WINDOW, c.windowSize, MAXIMUM_WINDOW), p.windowSize),
       incomingBandwidth := c.incomingBandwidth, outgoingBandwidth := c.outgoingBandwidth)
  }

  /** The answer to a connect request; false when it does not belong to the request. */
  function HandleVerify(p: Slot, c: VerifyCommand, event: bool): (Slot, bool) {
    if !p.state.Connecting? then (p, true)
    else if !Matches(p, c) then (p.(eventData := 0, state := Zombie), false)
    else (Established(p, c, event), true)
  }

  // ----- the server -----

  function Accepting(p: Slot, h: HostState, from: Address, c: ConnectCommand): Slot {
    p.(state := AcknowledgingConnect, address := from, connectID := c.connectID, outgoingPeerID := c.outgoingPeerID,
       incomingSessionID := NextSession(c.outgoingSessionID, p.incomingSessionID),
       outgoingSessionID := NextSession(c.incomingSessionID, p.outgoingSessionID),
       channelCount := Min(c.channelCount, h.channelLimit), mtu := Between(MINIMUM_MTU, c.mtu, MAXIMUM_MTU),
       windowSize := SendWindow(h.outgoingBandwidth, c.incomingBandwidth),
       incomingBandwidth := c.incomingBandwidth, outgoingBandwidth := c.outgoingBandwidth, throttle := c.throttle,
       eventData := c.data, accepted := true)
  }

  function Answer(p: Slot, h: HostState, i: nat, c: ConnectCommand): VerifyCommand {
    VerifyCommand(i, p.outgoingSessionID, p.incomingSessionID, p.mtu, ReceiveWindow(h.incomingBandwidth, c.windowSize),
                  p.channelCount, h.incomingBandwidth, h.outgoingBandwidth, p.throttle, p.connectID)
  }

  predicate Refused(h: HostState, from: Address, c: ConnectCommand) {
    || !(1 <= c.channelCount <= MAXIMUM_CHANNELS)
    || FirstFree(h.slots) == |h.slots|
    || Served(h.slots, from, c.connectID)
    || Count(h.slots, p => From(p, from.host)) >= h.duplicatePeers
  }

  /** A connect request: the slot that serves it and the answer. */
  function HandleConnect(h: HostState, from: Address, c: ConnectCommand): (HostState, Option<(nat, VerifyCommand)>) {
    if Refused(h, from, c) then (h, None) else (
      var i := FirstFree(h.slots);
      var p := Accepting(h.slots[i], h, from, c);
      (WithSlot(h, i, p), Some((i, Answer(p, h, i, c)))))
  }

  /** The acknowledgement of the answer. */
  function HandleAcknowledgement(p: Slot, event: bool): Slot {
    if p.state.AcknowledgingConnect? then p.(state := if event then Connected else ConnectionPending) else p
  }

  function ResetSlot(p: Slot, h: HostState): Slot {
    p.(state := Disconnected, connectID := 0, outgoingPeerID := NO_PEER, channelCount := 0, mtu := h.mtu,
       windowSize := MAXIMUM_WINDOW, incomingBandwidth := 0, outgoingBandwidth := 0, throttle :=
         DEFAULT_THROTTLE, eventData := 0)
  }

  function FreshSlot(mtu: nat): Slot {
    Slot(Disconnected, Address(0, 0), 0, NO_PEER, NO_SESSION, NO_SESSION, 0, mtu, MAXIMUM_WINDOW, 0, 0,
         DEFAULT_THROTTLE, 0, false)
  }

  /** Whether a datagram with a peer and session identifier concerns that peer. */
  predicate Admitted(h: HostState, from: Address, peerID: nat, sessionID: nat) {
    && peerID < |h.slots|
    && Live(h.slots[peerID].state) && !h.slots[peerID].state.Zombie?
    && h.slots[peerID].address == from
    && (h.slots[peerID].outgoingPeerID < NO_PEER ==> sessionID == h.slots[peerID].incomingSessionID)
  }

  // ----- the host -----

  class Host {
    const slots: array<Slot>
    var randomSeed: nat
    var channelLimit: nat
    var mtu: nat
    var incomingBandwidth: nat
    var outgoingBandwidth: nat
    var duplicatePeers: nat

    ghost function Value(): HostState
      reads this, slots
    {
      HostState.HostState(slots[..], randomSeed, channelLimit, mtu, incomingBandwidth, outgoingBandwidth,
                          duplicatePeers)
    }

    constructor (peerCount: nat, seed: nat, limit: nat, incoming: nat, outgoing: nat)
      ensures Value() == HostState.HostState(seq(peerCount, i => FreshSlot(1400)), seed, if limit == 0 then 255
        else Between(1, limit, 255), 1400,
                                   incoming, outgoing, NO_PEER) && fresh(slots)
    {
      slots := new Slot[peerCount](i => FreshSlot(1400));
      randomSeed, mtu, incomingBandwidth, outgoingBandwidth, duplicatePeers := seed, 1400, incoming, outgoing, NO_PEER;
      channelLimit := if limit == 0 || limit > MAXIMUM_CHANNELS then MAXIMUM_CHANNELS else limit;
    }

    method Put(i: nat, p: Slot)
      requires i < slots.Length
      modifies slots
      ensures Value() == WithSlot(old(Value()), i, p)
    {
      ghost var s := slots[..];
      slots[i] := p;
      assert slots[..] == s[i := p];
    }

    /** Asks another host for a connection. */
    method Connect(address: Address, channels: nat, data: nat) returns (r: Option<(nat, ConnectCommand)>)
      modifies this`randomSeed, slots
      ensures (Value(), r) == HostConnect(old(Value()), address, channels, data)
    {
      var channelCount := channels;
      if channelCount < 1 {
        channelCount := 1;
      } else if channelCount > MAXIMUM_CHANNELS {
        channelCount := MAXIMUM_CHANNELS;
      }
      ghost var s := slots[..];
      var i := 0;
      while i < slots.Length && !slots[i].state.Disconnected?
        invariant i <= slots.Length && FirstFree(s[..i]) == i
      {
        assert s[..i + 1][..i] == s[..i];
        i := i + 1;
      }
      FirstFreeAt(s, i);
      if i == slots.Length {
        return None;
      }
      randomSeed := (randomSeed + 1) % TWO_32;
      var windowSize := if outgoingBandwidth == 0 then MAXIMUM_WINDOW
        else outgoingBandwidth / WINDOW_SCALE * MINIMUM_WINDOW;
      if windowSize < MINIMUM_WINDOW {
        windowSize := MINIMUM_WINDOW;
      } else if windowSize > MAXIMUM_WINDOW {
        windowSize := MAXIMUM_WINDOW;
      }
      Put(i, slots[i].(channelCount := channelCount, state := Connecting, address := address, connectID := randomSeed,
                       windowSize := windowSize, accepted := false));
      var p := slots[i];
      return Some((i, ConnectCommand(i, p.incomingSessionID, p.outgoingSessionID, p.mtu, p.windowSize, channelCount,
                                     incomingBandwidth,
                                     outgoingBandwidth, p.throttle, p.connectID, data)));
    }

    /** A slot for a connect request, if the request is to be accepted. */
    method FindSlot(from: Address, connectID: nat) returns (i: nat)
      ensures i <= slots.Length
      ensures i < slots.Length <==>
        && FirstFree(slots[..]) < slots.Length
        && Count(slots[..], p => From(p, from.host)) < duplicatePeers
        && !Served(slots[..], from, connectID)
      ensures i < slots.Length ==> i == FirstFree(slots[..])
    {
      ghost var s := slots[..];
      var k, duplicates := 0, 0;
      i := slots.Length;
      while k < slots.Length
        invariant k <= slots.Length && duplicates == Count(s[..k], p => From(p, from.host))
        invariant i == if FirstFree(s[..k]) < k then FirstFree(s[..k]) else slots.Length
        invariant forall j {:trigger slots[j]} :: 0 <= j < k ==> !Serves(slots[j], from, connectID)
      {
        assert s[..k + 1][..k] == s[..k];
        if slots[k].state.Disconnected? {
          if i == slots.Length {
            i := k;
          }
        } else if !slots[k].state.Connecting? && slots[k].address.host == from.host {
          if slots[k].address.port == from.port && slots[k].connectID == connectID {
            assert Serves(s[k], from, connectID);
            return slots.Length;
          }
          duplicates := duplicates + 1;
        }
        k := k + 1;
      }
      assert s[..k] == s && forall j {:trigger s[j]} :: 0 <= j < |s| ==> s[j] == slots[j];
      if duplicates >= duplicatePeers {
        i := slots.Length;
      }
    }

    /** A connect request from outside. */
    method ReceiveConnect(from: Address, command: ConnectCommand) returns (r: Option<(nat, VerifyCommand)>)
      modifies slots
      ensures (Value(), r) == HandleConnect(old(Value()), from, command)
    {
      hide FirstFree, Count, NextSession, Between, SendWindow, ScaledWindow;
      var channelCount := command.channelCount;
      if channelCount < 1 || channelCount > MAXIMUM_CHANNELS {
        return None;
      }
      var i := FindSlot(from, command.connectID);
      if i == slots.Length {
        return None;
      }
      if channelCount > channelLimit {
        channelCount := channelLimit;
      }
      var p := slots[i];
      var incoming := NextSession(command.incomingSessionID, p.outgoingSessionID);
      var outgoing := NextSession(command.outgoingSessionID, p.incomingSessionID);
      p := p.(channelCount := channelCount, state := AcknowledgingConnect, connectID := command.connectID,
              address := from,
              outgoingPeerID := command.outgoingPeerID, incomingBandwidth := command.incomingBandwidth,
              outgoingBandwidth := command.outgoingBandwidth, throttle := command.throttle, eventData := command.data,
              outgoingSessionID := incoming, incomingSessionID := outgoing, accepted := true,
              mtu := Between(MINIMUM_MTU, command.mtu, MAXIMUM_MTU),
              windowSize := SendWindow(outgoingBandwidth, command.incomingBandwidth));
      Put(i, p);
      var windowSize := if incomingBandwidth == 0 then MAXIMUM_WINDOW else ScaledWindow(incomingBandwidth);
      if windowSize > command.windowSize {
        windowSize := command.windowSize;
      }
      windowSize := Between(MINIMUM_WINDOW, windowSize, MAXIMUM_WINDOW);
      return Some((i, VerifyCommand(i, incoming, outgoing, p.mtu, windowSize, channelCount, incomingBandwidth,
                                    outgoingBandwidth,
                                    p.throttle, p.connectID)));
    }

    /** The answer to this host's own request. */
    method ReceiveVerify(i: nat, command: VerifyCommand, event: bool) returns (ok: bool)
      requires i < slots.Length
      modifies slots
      ensures var (p, matched) := HandleVerify(old(slots[i]), command, event);
        ok == matched && Value() == WithSlot(old(Value()), i, p)
    {
      var p := slots[i];
      if !p.state.Connecting? {
        assert slots[..] == slots[..][i := p];
        return true;
      }
      if command.channelCount < 1 || command.channelCount > MAXIMUM_CHANNELS || command.throttle != p.throttle
         || command.connectID != p.connectID {
        Put(i, p.(eventData := 0, state := Zombie));
        return false;
      }
      if command.channelCount < p.channelCount {
        p := p.(channelCount := command.channelCount);
      }
      p := p.(outgoingPeerID := command.outgoingPeerID, incomingSessionID := command.incomingSessionID,
              outgoingSessionID := command.outgoingSessionID);
      var mtu := Between(MINIMUM_MTU, command.mtu, MAXIMUM_MTU);
      if mtu < p.mtu {
        p := p.(mtu := mtu);
      }
      var windowSize := Between(MINIMUM_WINDOW, command.windowSize, MAXIMUM_WINDOW);
      if windowSize < p.windowSize {
        p := p.(windowSize := windowSize);
      }
      Put(i, p.(incomingBandwidth := command.incomingBandwidth, outgoingBandwidth := command.outgoingBandwidth,
                state := if event then Connected else ConnectionSucceeded));
      return true;
    }
  }

  lemma {:induction false} FirstFreeAt(slots: seq<Slot>, i: nat)
    requires i <= |slots| && FirstFree(slots[..i]) == i && (i < |slots| ==> slots[i].state.Disconnected?)
    ensures FirstFree(slots) == i
    decreases |slots|
  {
    if i < |slots| - 1 {
      assert slots[..|slots| - 1][..i] == slots[..i];
      FirstFreeAt(slots[..|slots| - 1], i);
    } else if i == |slots| {
      assert slots[..i] == slots;
    }
  }
}
