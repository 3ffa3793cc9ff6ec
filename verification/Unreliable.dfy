/** The receiving half of a channel for unreliable packets: sequenced ones are dispatched in
    order or not at all, unsequenced ones at once. */
module Unreliable {
  import opened Receiving
  import opened Windows
  import opened Words

  /** A received command.  `remaining` is the number of fragments that are missing, and `index`
      the number, without bound, whose low 16 bits are `reliable`; it is history, and nothing
      decides on it. */
  datatype Item = Item(sequenced: bool, reliable: uint16, unreliable: uint16, remaining: nat, data: seq<uint8>,
                       index: nat)

  // ----- what a dispatch does -----

  /** The packet can go to the application now. */
  predicate Ready(c: Item, incoming: uint16) { !c.sequenced || (c.reliable == incoming && c.remaining == 0) }

  /** The packet's turn is past, or so far ahead that it looks so. */
  predicate Late(c: Item, incoming: uint16) { c.sequenced && c.reliable != incoming && !Accepts(c.reliable, incoming) }

  predicate Later(c: Item, incoming: uint16) { c.sequenced && c.reliable != incoming && Accepts(c.reliable, incoming) }

  /** Where the packets begin that must wait for reliable commands. */
  function Waiting(list: seq<Item>, incoming: uint16): (e: nat)
    ensures e <= |list|
    ensures forall k {:trigger list[k]} :: 0 <= k < e ==> !Later(list[k], incoming)
    decreases |list|
  {
    if list == [] || Later(list[0], incoming) then 0 else 1 + Waiting(list[1..], incoming)
  }

  function ReadyIn(list: seq<Item>, incoming: uint16): seq<Item>
    decreases |list|
  {
    if list == [] then []
    else ReadyIn(list[..|list| - 1], incoming) + (if Ready(list[|list| - 1], incoming) then [list[|list| - 1]] else [])
  }

  /** One past the last packet that is dispatched or late. */
  function Passed(list: seq<Item>, incoming: uint16): (d: nat)
    ensures d <= |list|
    decreases |list|
  {
    if list == [] then 0
    else if Ready(list[|list| - 1], incoming) || Late(list[|list| - 1], incoming) then |list|
    else Passed(list[..|list| - 1], incoming)
  }

  /** The number of the last sequenced packet that is dispatched. */
  function LastNumber(list: seq<Item>, incoming: uint16, number: uint16): uint16
    decreases |list|
  {
    if list == [] then number
    else if list[|list| - 1].sequenced && Ready(list[|list| - 1], incoming) then list[|list| - 1].unreliable
    else LastNumber(list[..|list| - 1], incoming, number)
  }

  function Larger(a: int, b: int): int { if a < b then b else a }

  /** What stays: nothing up to the last packet dispatched or late, and of those that still
      lack fragments only the last two. */
  function Kept(list: seq<Item>, incoming: uint16): seq<Item> {
    var e := Waiting(list, incoming);
    list[Larger(Passed(list[..e], incoming), e - 2)..]
  }

  /** Of the packets in front of the first that must wait, at most two survive a dispatch. */
  lemma AtMostTwo(list: seq<Item>, incoming: uint16)
    ensures |Kept(list, incoming)| <= |list| - Waiting(list, incoming) + 2
  {
  }

  /** The input: of incomplete packets of the receiver's own number exactly the last two survive. */
  lemma IncompleteLost(list: seq<Item>, incoming: uint16)
    requires |list| >= 2
    requires forall k {:trigger list[k]} :: 0 <= k < |list| ==>
      list[k].sequenced && list[k].reliable == incoming && list[k].remaining > 0
    ensures Kept(list, incoming) == list[|list| - 2..]
  {
    NonePassed(list, incoming);
    WaitingAt(list, incoming, Waiting(list, incoming));
    assert list[..|list|] == list;
  }

  lemma {:induction false} NonePassed(list: seq<Item>, incoming: uint16)
    requires forall k {:trigger list[k]} :: 0 <= k < |list| ==>
      list[k].sequenced && list[k].reliable == incoming && list[k].remaining > 0
    ensures Passed(list, incoming) == 0
    decreases |list|
  {
    if list != [] {
      NonePassed(list[..|list| - 1], incoming);
    }
  }

  // ----- where a packet is put -----

  /** One packet comes before another in the sender's order, seen from the receiver. */
  predicate Before(a: uint16, u: uint16, b: uint16, v: uint16, incoming: uint16) {
    Ahead(a, incoming) < Ahead(b, incoming) || (a == b && u < v)
  }

  /** Where a packet belongs, looked for from the back; negative for a duplicate. */
  function Slot(list: seq<Item>, incoming: uint16, reliable: uint16, unreliable: uint16): (at: int)
    ensures at <= |list|
    decreases |list|
  {
    if list == [] then 0 else (
      var last := list[|list| - 1];
      if Before(reliable, unreliable, last.reliable, last.unreliable, incoming) then
        Slot(list[..|list| - 1], incoming, reliable, unreliable)
      else if last.reliable == reliable && last.unreliable == unreliable then -1
      else |list|)
  }

  // ----- the channel -----

  datatype Inbox = Inbox(reliable: uint16, unreliable: uint16, commands: seq<Item>, dispatched: seq<Item>)

  function Dispatch(b: Inbox): Inbox {
    var ready := b.commands[..Waiting(b.commands, b.reliable)];
    Inbox(b.reliable, LastNumber(ready, b.reliable, b.unreliable), Kept(b.commands, b.reliable),
          b.dispatched + ReadyIn(ready, b.reliable))
  }

  /** An unreliable command arrives; `full` says that there is no space for its packet.  One that
      is discarded counts as an error when it has fragments. */
  function Arrive(b: Inbox, c: Item, full: bool): (r: (Inbox, bool)) {
    if !c.sequenced then
      if full then (b, false) else (Dispatch(b.(commands := [c] + b.commands)), true)
    else if !Accepts(c.reliable, b.reliable) then (b, c.remaining == 0)
    else if c.reliable == b.reliable && c.unreliable <= b.unreliable then (b, c.remaining == 0)
    else (
      var at := Slot(b.commands, b.reliable, c.reliable, c.unreliable);
      if at < 0 then (b, c.remaining == 0)
      else if full then (b, false)
      else (Dispatch(b.(commands := b.commands[..at] + [c] + b.commands[at..])), true))
  }

  /** Reliable commands were dispatched up to a new one. */
  function Advance(b: Inbox, reliable: uint16): Inbox {
    if b.commands == [] then b.(reliable := reliable, unreliable := 0)
    else Dispatch(b.(reliable := reliable, unreliable := 0))
  }

  /** The last missing fragment of a command comes. */
  function Complete(b: Inbox, k: nat): Inbox
    requires k < |b.commands|
  {
    Dispatch(b.(commands := b.commands[k := b.commands[k].(remaining := 0)]))
  }

  class Channel {
    var incomingReliableSequenceNumber: uint16
    var incomingUnreliableSequenceNumber: uint16
    var incomingUnreliableCommands: seq<Item>
    var dispatchedCommands: seq<Item>
    var totalWaitingData: nat
    var maximumWaitingData: nat

    ghost function Value(): Inbox
      reads this
    {
      Inbox(incomingReliableSequenceNumber, incomingUnreliableSequenceNumber, incomingUnreliableCommands,
            dispatchedCommands)
    }

    /** Walks the list once: runs of ready packets are moved on, and `dropped` follows behind
        the packets that nothing can come of any more. */
    method DispatchIncomingUnreliableCommands()
      modifies this`incomingUnreliableSequenceNumber, this`incomingUnreliableCommands, this`dispatchedCommands
      ensures Value() == Dispatch(old(Value()))
    {
      hide Walked, Dispatch, Waiting, Window;
      var list, incoming := incomingUnreliableCommands, incomingReliableSequenceNumber;
      ghost var b := Value();
      var dropped, start, current := 0, 0, 0;
      WalkBegins(b);
      while current < |list|
        invariant 0 <= start <= current <= |list| && 0 <= dropped <= current
        invariant incomingReliableSequenceNumber == incoming && incomingUnreliableCommands == list
        invariant Walked(b, start, dropped, current, incomingUnreliableSequenceNumber, dispatchedCommands)
        decreases |list| - current
      {
        var c := list[current];
        if !c.sequenced {
          WalkReady(b, start, dropped, current, incomingUnreliableSequenceNumber, dispatchedCommands);
          current := current + 1;
          continue;
        }
        if c.reliable == incoming {
          if c.remaining == 0 {
            WalkReady(b, start, dropped, current, incomingUnreliableSequenceNumber, dispatchedCommands);
            incomingUnreliableSequenceNumber := c.unreliable;
            current := current + 1;
            continue;
          }
          WalkIncomplete(b, start, dropped, current, incomingUnreliableSequenceNumber, dispatchedCommands);
          assert start == current ==> dispatchedCommands + list[start..current] == dispatchedCommands;
          if start != current {
            dispatchedCommands := dispatchedCommands + list[start..current];
            dropped := current;
          } else if dropped != current {
            dropped := current - 1;
          }
        } else {
          var reliableWindow, currentWindow := Window(c.reliable), Window(incoming);
          if c.reliable < incoming {
            reliableWindow := reliableWindow + WINDOWS;
          }
          WindowTest(c.reliable, incoming);
          if reliableWindow >= currentWindow && reliableWindow < currentWindow + FREE_WINDOWS - 1 {
            break;
          }
          WalkLate(b, start, dropped, current, incomingUnreliableSequenceNumber, dispatchedCommands);
          assert start == current ==> dispatchedCommands + list[start..current] == dispatchedCommands;
          dropped := current + 1;
          if start != current {
            dispatchedCommands := dispatchedCommands + list[start..current];
          }
        }
        current := current + 1;
        start := current;
      }
      WalkEnds(b, start, dropped, current, incomingUnreliableSequenceNumber, dispatchedCommands);
      assert start == current ==> dispatchedCommands + list[start..current] == dispatchedCommands;
      if start != current {
        dispatchedCommands := dispatchedCommands + list[start..current];
        dropped := current;
      }
      incomingUnreliableCommands := list[dropped..];
    }

    /** The back-to-front walk over the list. */
    method FindPlace(list: seq<Item>, incoming: uint16, reliable: uint16, unreliable: uint16) returns (at: int)
      ensures at == Slot(list, incoming, reliable, unreliable)
    {
      hide Ahead;
      at := |list|;
      assert list[..|list|] == list;
      while at > 0
        invariant 0 <= at <= |list|
        invariant Slot(list[..at], incoming, reliable, unreliable) == Slot(list, incoming, reliable, unreliable)
      {
        var other := list[at - 1];
        AheadIs(other.reliable, incoming);
        AheadIs(reliable, incoming);
        assert list[..at][..at - 1] == list[..at - 1];
        if reliable >= incoming {
          if other.reliable < incoming {
            at := at - 1;
            continue;
          }
        } else if other.reliable >= incoming {
          return;
        }
        if other.reliable < reliable {
          return;
        }
        if other.reliable > reliable {
          at := at - 1;
          continue;
        }
        if other.unreliable <= unreliable {
          if other.unreliable < unreliable {
            return;
          }
          return -1;
        }
        at := at - 1;
      }
    }

    /** Stores an unreliable or unsequenced command and dispatches what is ready; false when
        there is no space for it. */
    method QueueIncomingCommand(c: Item) returns (ok: bool)
      modifies this
      ensures (Value(), ok) == Arrive(old(Value()), c, old(totalWaitingData) >= old(maximumWaitingData))
      ensures incomingReliableSequenceNumber == old(incomingReliableSequenceNumber)
    {
      hide Dispatch, Window, Accepts, Slot;
      var list, at := incomingUnreliableCommands, 0;
      if c.sequenced {
        var reliableWindow, currentWindow := Window(c.reliable), Window(incomingReliableSequenceNumber);
        if c.reliable < incomingReliableSequenceNumber {
          reliableWindow := reliableWindow + WINDOWS;
        }
        WindowTest(c.reliable, incomingReliableSequenceNumber);
        if reliableWindow < currentWindow || reliableWindow >= currentWindow + FREE_WINDOWS - 1 {
          return c.remaining == 0;
        }
        if c.reliable == incomingReliableSequenceNumber && c.unreliable <= incomingUnreliableSequenceNumber {
          return c.remaining == 0;
        }
        at := FindPlace(list, incomingReliableSequenceNumber, c.reliable, c.unreliable);
        if at < 0 {
          return c.remaining == 0;
        }
      }
      if totalWaitingData >= maximumWaitingData {
        return false;
      }
      totalWaitingData := totalWaitingData + |c.data|;
      incomingUnreliableCommands := list[..at] + [c] + list[at..];
      assert !c.sequenced ==> incomingUnreliableCommands == [c] + list;
      DispatchIncomingUnreliableCommands();
      return true;
    }

    /** What follows when reliable commands up to a new one were dispatched. */
    method ReliableDispatched(reliable: uint16)
      modifies this`incomingReliableSequenceNumber, this`incomingUnreliableSequenceNumber,
        this`incomingUnreliableCommands, this`dispatchedCommands
      ensures Value() == Advance(old(Value()), reliable)
    {
      hide Dispatch;
      incomingReliableSequenceNumber := reliable;
      incomingUnreliableSequenceNumber := 0;
      if incomingUnreliableCommands != [] {
        DispatchIncomingUnreliableCommands();
      }
    }
  }

  // ----- the walk over the list -----

  /** Where the walk stands: `start` begins the run of ready packets it is in, those before were
      dispatched, and `dropped` is where what is kept will begin unless the run goes on. */
  ghost predicate Walked(b: Inbox, start: int, dropped: int, current: int, number: uint16, dispatched: seq<Item>) {
    && 0 <= start <= current <= Waiting(b.commands, b.reliable) && 0 <= dropped <= current
    && number == LastNumber(b.commands[..current], b.reliable, b.unreliable)
    && dispatched == b.dispatched + ReadyIn(b.commands[..start], b.reliable)
    && (forall k {:trigger b.commands[k]} :: start <= k < current ==> Ready(b.commands[k], b.reliable))
    && (start < current ==> dropped <= start)
    && (start == current ==> dropped == Larger(Passed(b.commands[..current], b.reliable), current - 2))
  }

  lemma WalkBegins(b: Inbox)
    ensures Walked(b, 0, 0, 0, b.unreliable, b.dispatched)
  {
    hide Waiting, ReadyIn, Passed, LastNumber, Accepts;
    NoneYet(b.commands, b.reliable, b.unreliable);
  }

  /** The packet is ready: the run goes on. */
  lemma WalkReady(b: Inbox, start: int, dropped: int, current: int, number: uint16, dispatched: seq<Item>)
    requires Walked(b, start, dropped, current, number, dispatched) && current < |b.commands|
    requires Ready(b.commands[current], b.reliable)
    ensures var c := b.commands[current];
      Walked(b, start, dropped, current + 1, if c.sequenced then c.unreliable else number, dispatched)
  {
    hide Waiting, ReadyIn, Passed, LastNumber, Accepts;
    OneMore(b.commands, b.reliable, current, b.unreliable);
    WaitingAt(b.commands, b.reliable, current);
    assert start == current ==> dropped <= start;
  }

  /** Fragments of it are missing: the run before it is dispatched. */
  lemma WalkIncomplete(b: Inbox, start: int, dropped: int, current: int, number: uint16, dispatched: seq<Item>)
    requires Walked(b, start, dropped, current, number, dispatched) && current < |b.commands|
    requires var c := b.commands[current]; c.sequenced && c.reliable == b.reliable && c.remaining > 0
    ensures Walked(b, current + 1,
                   if start != current then current else if dropped != current then current - 1 else dropped,
                   current + 1, number, dispatched + b.commands[start..current])
  {
    WalkOver(b, start, dropped, current, number, dispatched);
    hide Waiting, ReadyIn, Passed, LastNumber, Accepts;
  }

  /** Its turn is past: it is dropped, with everything before it that was not dispatched. */
  lemma WalkLate(b: Inbox, start: int, dropped: int, current: int, number: uint16, dispatched: seq<Item>)
    requires Walked(b, start, dropped, current, number, dispatched) && current < |b.commands|
    requires Late(b.commands[current], b.reliable)
    ensures Walked(b, current + 1, current + 1, current + 1, number, dispatched + b.commands[start..current])
  {
    WalkOver(b, start, dropped, current, number, dispatched);
    hide Waiting, ReadyIn, Passed, LastNumber, Accepts;
  }

  /** A packet that is not ready ends the run. */
  lemma WalkOver(b: Inbox, start: int, dropped: int, current: int, number: uint16, dispatched: seq<Item>)
    requires Walked(b, start, dropped, current, number, dispatched) && current < |b.commands|
    requires !Ready(b.commands[current], b.reliable) && !Later(b.commands[current], b.reliable)
    ensures current + 1 <= Waiting(b.commands, b.reliable)
    ensures number == LastNumber(b.commands[..current + 1], b.reliable, b.unreliable)
    ensures dispatched + b.commands[start..current] == b.dispatched + ReadyIn(b.commands[..current + 1], b.reliable)
    ensures Passed(b.commands[..current + 1], b.reliable)
         == if Late(b.commands[current], b.reliable) then current + 1 else Passed(b.commands[..current], b.reliable)
    ensures start < current ==> Passed(b.commands[..current], b.reliable) == current
  {
    hide Waiting, ReadyIn, Passed, LastNumber, Accepts;
    OneMore(b.commands, b.reliable, current, b.unreliable);
    WaitingAt(b.commands, b.reliable, current);
    if start < current {
      ReadyRun(b.commands, b.reliable, start, current);
    }
  }

  /** The walk is over: what comes next must wait, or nothing comes next. */
  lemma WalkEnds(b: Inbox, start: int, dropped: int, current: int, number: uint16, dispatched: seq<Item>)
    requires Walked(b, start, dropped, current, number, dispatched) && 0 <= current <= |b.commands|
    requires current == |b.commands| || Later(b.commands[current], b.reliable)
    ensures 0 <= start <= current && 0 <= dropped <= current
    ensures Dispatch(b) == Inbox(b.reliable, number, b.commands[if start != current then current else dropped..],
                                 dispatched + b.commands[start..current])
  {
    hide Waiting, ReadyIn, Passed, LastNumber, Accepts;
    WaitingAt(b.commands, b.reliable, current);
    assert current == Waiting(b.commands, b.reliable);
    if start < current {
      ReadyRun(b.commands, b.reliable, start, current);
    }
  }

  /** The test as the walk makes it. */
  lemma WindowTest(reliable: uint16, incoming: uint16)
    ensures var w: nat := Window(reliable) + (if reliable < incoming then WINDOWS else 0);
      Accepts(reliable, incoming) <==> Window(incoming) <= w < Window(incoming) + FREE_WINDOWS - 1
  {
  }

  lemma NoneYet(list: seq<Item>, incoming: uint16, number: uint16)
    ensures Passed(list[..0], incoming) == 0 && ReadyIn(list[..0], incoming) == []
    ensures LastNumber(list[..0], incoming, number) == number
  {
  }

  lemma OneMore(list: seq<Item>, incoming: uint16, k: nat, number: uint16)
    requires k < |list|
    ensures Passed(list[..k + 1], incoming) == if Ready(list[k], incoming) || Late(list[k], incoming) then k + 1
      else Passed(list[..k], incoming)
    ensures ReadyIn(list[..k + 1], incoming)
      == ReadyIn(list[..k], incoming) + (if Ready(list[k], incoming) then [list[k]] else [])
    ensures LastNumber(list[..k + 1], incoming, number)
         == if list[k].sequenced && Ready(list[k], incoming) then list[k].unreliable
           else LastNumber(list[..k], incoming, number)
  {
    assert list[..k + 1][..k] == list[..k];
  }

  /** The walk stops where the waiting packets begin. */
  lemma {:induction false} WaitingAt(list: seq<Item>, incoming: uint16, k: nat)
    requires k <= Waiting(list, incoming)
    ensures k == |list| || Later(list[k], incoming) <==> k == Waiting(list, incoming)
    decreases k
  {
    if k > 0 {
      WaitingAt(list[1..], incoming, k - 1);
    }
  }

  lemma {:induction false} ReadyRun(list: seq<Item>, incoming: uint16, start: nat, end: nat)
    requires start < end <= |list| && forall k {:trigger list[k]} :: start <= k < end ==> Ready(list[k], incoming)
    ensures ReadyIn(list[..end], incoming) == ReadyIn(list[..start], incoming) + list[start..end]
    ensures Passed(list[..end], incoming) == end
    decreases end
  {
    assert list[..end][..end - 1] == list[..end - 1];
    if start < end - 1 {
      ReadyRun(list, incoming, start, end - 1);
      assert list[start..end] == list[start..end - 1] + [list[end - 1]];
    } else {
      assert list[start..end] == [list[start]];
    }
  }
}
