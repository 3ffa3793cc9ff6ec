/** What one check of the timeouts does, exactly: which commands go back to the queue, and when it
    gives the peer up. */
module LateCommands {
  import opened Sending
  import opened Words

  /** The acknowledgement of a sent command is late. */
  predicate IsLate(c: Command, now: uint32) { TimeDifference(now, c.sentTime) >= c.roundTripTimeout }

  function LateOf(sent: seq<Command>, now: uint32): seq<Command> {
    if sent == [] then [] else (if IsLate(sent[0], now) then [sent[0]] else []) + LateOf(sent[1..], now)
  }

  function OnTimeOf(sent: seq<Command>, now: uint32): seq<Command> {
    if sent == [] then [] else (if IsLate(sent[0], now) then [] else [sent[0]]) + OnTimeOf(sent[1..], now)
  }

  /** With twice the timeout, for the next attempt. */
  function Doubled(late: seq<Command>): (d: seq<Command>)
    ensures |d| == |late|
  {
    seq(|late|, i requires 0 <= i < |late| => late[i].(roundTripTimeout := late[i].roundTripTimeout * 2 % TWO_32))
  }

  /** The earliest time, from `earliest` (0 when there is none) and what late commands were sent at. */
  function EarliestOf(earliest: uint32, late: seq<Command>): uint32
    decreases |late|
  {
    if late == [] then earliest else (
      var e := EarliestOf(earliest, late[..|late| - 1]);
      var t := late[|late| - 1].sentTime;
      if e == 0 || TimeLess(t, e) then t else e)
  }

  /** At a late command: the other side has been silent for the maximum since the earliest time, or
      for the minimum when the command's timeout has grown to its limit. */
  predicate TooLong(earliest: uint32, c: Command, limits: Limits, now: uint32) {
    && earliest != 0
    && (|| limits.timeoutMaximum <= TimeDifference(now, earliest)
        || (limits.timeoutMinimum <= TimeDifference(now, earliest) && c.roundTripTimeoutLimit <= c.roundTripTimeout))
  }

  ghost predicate TooLongAt(earliest: uint32, late: seq<Command>, limits: Limits, now: uint32, k: nat) {
    k < |late| && TooLong(EarliestOf(earliest, late[..k + 1]), late[k], limits, now)
  }

  /** At the late command `n` or a later one. */
  ghost predicate TooLongFrom(earliest: uint32, late: seq<Command>, limits: Limits, now: uint32, n: nat) {
    exists k {:trigger TooLongAt(earliest, late, limits, now, k)} ::
      n <= k && TooLongAt(earliest, late, limits, now, k)
  }

  /** The check takes the late commands in turn.  It gives the peer up at the first at which the
      silence was too long.  If there is none, they go back to the front of the queue, in their order
      and with twice the timeout, and the others stay as they are. */
  lemma CheckedExactly(s: Sender, now: uint32)
    ensures var (r, gone) := TimedOut(s, 0, 0, now);
      var late := LateOf(s.sent, now);
      && (gone <==> exists k {:trigger TooLongAt(s.earliestTimeout, late, s.limits, now, k)} ::
                      TooLongAt(s.earliestTimeout, late, s.limits, now, k))
      && (!gone ==>
            && r.sent == OnTimeOf(s.sent, now) && r.outgoing == Doubled(late) + s.outgoing
            && r.earliestTimeout == EarliestOf(s.earliestTimeout, late) && r.channels == s.channels)
  {
    CheckedFrom(s, 0, 0, now, s.earliestTimeout, []);
    assert s.sent[..0] + OnTimeOf(s.sent[0..], now) == OnTimeOf(s.sent, now) && s.sent[0..] == s.sent;
    assert [] + LateOf(s.sent, now) == LateOf(s.sent, now);
    assert s.outgoing[..0] == [] && s.outgoing[0..] == s.outgoing;
    assert [] + Doubled(LateOf(s.sent, now)) + s.outgoing == Doubled(LateOf(s.sent, now)) + s.outgoing;
  }

  /** From position `at` on, after the commands `done` went back. */
  lemma {:induction false} CheckedFrom(s: Sender, at: nat, back: nat, now: uint32, earliest: uint32,
                                       done: seq<Command>)
    requires at <= |s.sent| && back <= |s.outgoing| && s.earliestTimeout == EarliestOf(earliest, done)
    ensures var (r, gone) := TimedOut(s, at, back, now);
      var late := LateOf(s.sent[at..], now);
      && (gone <==> TooLongFrom(earliest, done + late, s.limits, now, |done|))
      && (!gone ==>
            && r.sent == s.sent[..at] + OnTimeOf(s.sent[at..], now)
            && r.outgoing == s.outgoing[..back] + Doubled(late) + s.outgoing[back..]
            && r.earliestTimeout == EarliestOf(earliest, done + late) && r.channels == s.channels)
    decreases |s.sent| - at
  {
    hide TimeDifference, TimeLess, Returned, TooLong;
    if at == |s.sent| {
      assert s.sent[at..] == [] && done + [] == done;
      assert s.sent[..at] + [] == s.sent && s.outgoing[..back] + [] + s.outgoing[back..] == s.outgoing;
    } else if InTime(s.sent[at], now) {
      CheckedOnTime(s, at, back, now, earliest, done);
    } else {
      CheckedLate(s, at, back, now, earliest, done);
    }
  }

  lemma {:induction false} CheckedOnTime(s: Sender, at: nat, back: nat, now: uint32, earliest: uint32,
                                         done: seq<Command>)
    requires at < |s.sent| && back <= |s.outgoing| && s.earliestTimeout == EarliestOf(earliest, done)
    requires InTime(s.sent[at], now)
    ensures var (r, gone) := TimedOut(s, at, back, now);
      var late := LateOf(s.sent[at..], now);
      && (gone <==> TooLongFrom(earliest, done + late, s.limits, now, |done|))
      && (!gone ==>
            && r.sent == s.sent[..at] + OnTimeOf(s.sent[at..], now)
            && r.outgoing == s.outgoing[..back] + Doubled(late) + s.outgoing[back..]
            && r.earliestTimeout == EarliestOf(earliest, done + late) && r.channels == s.channels)
    decreases |s.sent| - at, 0
  {
    hide TimeDifference, TimeLess, TooLongFrom, Doubled, EarliestOf;
    CheckedFrom(s, at + 1, back, now, earliest, done);
    assert s.sent[at..][1..] == s.sent[at + 1..];
    assert LateOf(s.sent[at..], now) == LateOf(s.sent[at + 1..], now);
    assert s.sent[..at + 1] + OnTimeOf(s.sent[at + 1..], now) == s.sent[..at] + OnTimeOf(s.sent[at..], now);
  }

  lemma {:induction false} CheckedLate(s: Sender, at: nat, back: nat, now: uint32, earliest: uint32,
                                       done: seq<Command>)
    requires at < |s.sent| && back <= |s.outgoing| && s.earliestTimeout == EarliestOf(earliest, done)
    requires !InTime(s.sent[at], now)
    ensures var (r, gone) := TimedOut(s, at, back, now);
      var late := LateOf(s.sent[at..], now);
      && (gone <==> TooLongFrom(earliest, done + late, s.limits, now, |done|))
      && (!gone ==>
            && r.sent == s.sent[..at] + OnTimeOf(s.sent[at..], now)
            && r.outgoing == s.outgoing[..back] + Doubled(late) + s.outgoing[back..]
            && r.earliestTimeout == EarliestOf(earliest, done + late) && r.channels == s.channels)
    decreases |s.sent| - at, 0
  {
    hide TimeDifference, TimeLess, TooLong;
    var c, done1 := s.sent[at], done + [s.sent[at]];
    var late, rest := LateOf(s.sent[at..], now), LateOf(s.sent[at + 1..], now);
    assert s.sent[at..][1..] == s.sent[at + 1..];
    assert late == [c] + rest && done + late == done1 + rest;
    assert done1[..|done|] == done;
    var s1 := s.(earliestTimeout := Earliest(s.earliestTimeout, c));
    assert s1.earliestTimeout == EarliestOf(earliest, done1);
    assert (done + late)[..|done| + 1] == done1 && (done + late)[|done|] == c;
    OneTooLong(s1.earliestTimeout, c, s.limits, now);
    if GivenUp(s1.earliestTimeout, c, s1.limits, now) {
      assert TooLongAt(earliest, done + late, s.limits, now, |done|);
      assert TooLongFrom(earliest, done + late, s.limits, now, |done|);
    } else {
      assert !TooLongAt(earliest, done + late, s.limits, now, |done|);
      var s2 := Returned(s1, at, back);
      CheckedFrom(s2, at, back + 1, now, earliest, done1);
      assert s2.sent[at..] == s.sent[at + 1..] && s2.sent[..at] == s.sent[..at];
      BackInQueue(s.outgoing, back, c, rest);
      assert OnTimeOf(s.sent[at..], now) == OnTimeOf(s.sent[at + 1..], now);
      assert done + late == done1 + rest && s2.limits == s.limits && s2.sent[at..] == s.sent[at + 1..];
      LaterOnly(earliest, done + late, s.limits, now, |done|);
    }
  }

  lemma LaterOnly(earliest: uint32, late: seq<Command>, limits: Limits, now: uint32, n: nat)
    requires !TooLongAt(earliest, late, limits, now, n)
    ensures TooLongFrom(earliest, late, limits, now, n) <==> TooLongFrom(earliest, late, limits, now, n + 1)
  {
    hide TooLongAt;
  }

  lemma OneTooLong(earliest: uint32, c: Command, limits: Limits, now: uint32)
    ensures GivenUp(earliest, c, limits, now) <==> TooLong(earliest, c, limits, now)
  {
    hide TimeDifference;
  }

  lemma BackInQueue(outgoing: seq<Command>, back: nat, c: Command, rest: seq<Command>)
    requires back <= |outgoing|
    ensures var d := c.(roundTripTimeout := Times(c.roundTripTimeout, 2));
      var outgoing1 := outgoing[..back] + [d] + outgoing[back..];
      outgoing1[..back + 1] + Doubled(rest) + outgoing1[back + 1..]
      == outgoing[..back] + Doubled([c] + rest) + outgoing[back..]
  {
    var d := c.(roundTripTimeout := Times(c.roundTripTimeout, 2));
    var outgoing1 := outgoing[..back] + [d] + outgoing[back..];
    assert outgoing1[..back + 1] == outgoing[..back] + [d] && outgoing1[back + 1..] == outgoing[back..];
    assert Doubled([c] + rest) == [d] + Doubled(rest);
  }
}
