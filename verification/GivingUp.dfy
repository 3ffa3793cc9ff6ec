/** When a peer is given up, over whole runs, in terms of attempts and times. */
module GivingUp {
  import FragmentFit
  import Fragmentation
  import opened LateCommands
  import opened Parcels
  import opened ReliableDelivery
  import RoundTrips
  import opened SenderInvariant
  import opened Sending
  import opened Words

  // ----- attempts and timeouts -----

  function Doublings(k: nat): (n: nat)
    ensures n >= 1
  {
    if k == 0 then 1 else 2 * Doublings(k - 1)
  }

  /** The timeout that a command gets with its first attempt. */
  function FirstTimeout(limits: Limits): nat { limits.roundTripTime + 4 * limits.roundTripTimeVariance }

  /** The command's timeout was doubled `k` times since its first attempt, which was made under
      `limits`; and its limit is `timeoutLimit` times the first. */
  predicate DoubledSince(c: Command, limits: Limits, k: nat) {
    FirstTimeout(limits) * Doublings(k) < TWO_32 ==>
      && c.roundTripTimeout == FirstTimeout(limits) * Doublings(k)
      && c.roundTripTimeoutLimit == limits.timeoutLimit * FirstTimeout(limits) % TWO_32
  }

  /** Some of the settings there have been is the one that the command began under. */
  ghost predicate TimedSince(c: Command, used: set<Limits>, k: nat) {
    exists l {:trigger DoubledSince(c, l, k)} :: l in used && DoubledSince(c, l, k)
  }

  /** On the wire a command's timeout was doubled for every attempt but the first; in the queue, for
      every attempt. */
  ghost predicate SentTimed(sent: seq<Command>, used: set<Limits>) {
    forall c {:trigger c in sent} :: c in sent ==> c.sendAttempts >= 1 && TimedSince(c, used, c.sendAttempts - 1)
  }

  ghost predicate QueueTimed(queue: seq<Command>, used: set<Limits>) {
    forall c {:trigger c in queue} :: c in queue ==>
      if c.sendAttempts == 0 then c.roundTripTimeout == 0 else TimedSince(c, used, c.sendAttempts)
  }

  ghost predicate AllSteady(used: set<Limits>) {
    forall l {:trigger l in used} :: l in used ==> RoundTrips.Steady(l.roundTripTime, l.roundTripTimeVariance)
  }

  /** The next check is due when the first of the sent commands is. */
  predicate NextIsDue(s: Sender) {
    s.sent != [] ==> s.nextTimeout == Plus(s.sent[0].sentTime, s.sent[0].roundTripTimeout)
  }

  ghost predicate Timed(s: Sender, used: set<Limits>) {
    && s.limits in used && AllSteady(used) && SentTimed(s.sent, used) && QueueTimed(s.outgoing, used) && NextIsDue(s)
  }

  lemma TimedMore(s: Sender, s1: Sender, used: set<Limits>, used1: set<Limits>)
    requires Timed(s, used) && used <= used1 && AllSteady(used1) && s1.limits in used1
    requires s1.sent == s.sent && s1.outgoing == s.outgoing && s1.nextTimeout == s.nextTimeout
    ensures Timed(s1, used1)
  {
    hide DoubledSince;
    forall c {:trigger c in s1.sent} | c in s1.sent
      ensures c.sendAttempts >= 1 && TimedSince(c, used1, c.sendAttempts - 1)
    {
      var l :| l in used && DoubledSince(c, l, c.sendAttempts - 1);
    }
    forall c {:trigger c in s1.outgoing} | c in s1.outgoing && c.sendAttempts > 0
      ensures TimedSince(c, used1, c.sendAttempts)
    {
      var l :| l in used && DoubledSince(c, l, c.sendAttempts);
    }
  }

  /** A new command has no timeout yet. */
  lemma AppendedTimed(s: Sender, s1: Sender, used: set<Limits>, c: Command)
    requires Timed(s, used) && c.sendAttempts == 0 && c.roundTripTimeout == 0
    requires s1.sent == s.sent && s1.outgoing == s.outgoing + [c] && s1.nextTimeout == s.nextTimeout
    requires s1.limits == s.limits
    ensures Timed(s1, used)
  {
    hide TimedSince;
  }

  lemma {:induction false} QueuedAllTimed(s: Sender, k: nat, first: nat, contents: seq<Fragmentation.Content>,
                                          size: nat, used: set<Limits>)
    requires Timed(s, used) && k < |s.channels|
    ensures Timed(SenderInvariant.QueuedAll(s, k, first, contents, size), used)
    decreases |contents|
  {
    if contents != [] {
      var n := |contents| - 1;
      QueuedAllTimed(s, k, first, contents[..n], size, used);
      var s0 := SenderInvariant.QueuedAll(s, k, first, contents[..n], size);
      var s1 := Queued(s0, k, first + n, Data(contents[n]), size);
      AppendedTimed(s0, s1, used, s1.outgoing[|s0.outgoing|]);
    }
    hide Timed;
  }

  /** An attempt. */
  lemma AttemptTimed(c: Command, limits: Limits, used: set<Limits>, now: uint32)
    requires limits in used && AllSteady(used)
    requires if c.sendAttempts == 0 then c.roundTripTimeout == 0 else TimedSince(c, used, c.sendAttempts)
    ensures TimedSince(Attempted(c, limits, now), used, c.sendAttempts)
  {
    var c1 := Attempted(c, limits, now);
    if c.sendAttempts == 0 {
      RoundTrips.TimeoutPositive(limits.roundTripTime, limits.roundTripTimeVariance);
      assert DoubledSince(c1, limits, 0);
    } else {
      var l :| l in used && DoubledSince(c, l, c.sendAttempts);
      AttemptKeeps(c, l, limits, now);
    }
  }

  lemma AttemptKeeps(c: Command, l: Limits, limits: Limits, now: uint32)
    requires DoubledSince(c, l, c.sendAttempts) && RoundTrips.Steady(l.roundTripTime, l.roundTripTimeVariance)
    ensures DoubledSince(Attempted(c, limits, now), l, c.sendAttempts)
  {
    var t, d := FirstTimeout(l), Doublings(c.sendAttempts);
    assert t >= 7;
    assert t * d >= 7 by { SendingProduct(t, d); }
    hide Plus, Times;
  }

  lemma SendingProduct(t: nat, d: nat)
    requires t >= 7 && d >= 1
    ensures t * d >= 7
  {
    assert t * d == t + t * (d - 1);
  }

  lemma LaunchedTimed(s: Sender, i: nat, now: uint32, used: set<Limits>)
    requires Timed(s, used) && i < |s.outgoing| && ChannelsOk(s.channels)
    ensures Timed(Launched(s, i, now), used)
  {
    var c := s.outgoing[i];
    assert c in s.outgoing;
    AttemptTimed(c, s.limits, used, now);
    var c1 := Attempted(c, s.limits, now);
    AttemptIs(c, s.limits, now);
    hide TimedSince, Attempted, Plus;
    var s1 := Launched(s, i, now);
    assert s1.sent == s.sent + [c1];
    FewerQueued(s.outgoing, s1.outgoing, used);
    forall d {:trigger d in s1.sent} | d in s1.sent
      ensures d.sendAttempts >= 1 && TimedSince(d, used, d.sendAttempts - 1)
    {
      assert d in s.sent || d == c1;
    }
    assert s.sent != [] ==> s1.sent[0] == s.sent[0];
  }

  lemma FewerQueued(queue: seq<Command>, queue1: seq<Command>, used: set<Limits>)
    requires QueueTimed(queue, used) && forall c {:trigger c in queue1} :: c in queue1 ==> c in queue
    ensures QueueTimed(queue1, used)
  {
    hide TimedSince;
  }

  lemma FewerSent(sent: seq<Command>, sent1: seq<Command>, used: set<Limits>)
    requires SentTimed(sent, used) && forall c {:trigger c in sent1} :: c in sent1 ==> c in sent
    ensures SentTimed(sent1, used)
  {
    hide TimedSince;
  }

  lemma AttemptIs(c: Command, limits: Limits, now: uint32)
    ensures Attempted(c, limits, now).sendAttempts == c.sendAttempts + 1
    ensures Attempted(c, limits, now).sentTime == now
  {
  }

  /** A pass over the queue. */
  lemma {:induction false} PassedTimed(p: Pass, now: uint32, used: set<Limits>)
    requires PassOk(p) && Timed(p.s, used)
    requires forall i {:trigger p.s.outgoing[i]} :: 0 <= i < |p.s.outgoing| ==> Fits(p.s.outgoing[i], p.s.limits.mtu)
    ensures Timed(Passed(p, now).s, used)
    decreases |p.s.outgoing| - p.at
  {
    hide Timed, Blocked, Exceeds, Fits, Launched;
    if p.at < |p.s.outgoing| {
      var q := Looked(p);
      var c := q.s.outgoing[q.at];
      if Skips(q) {
        PassedTimed(q.(at := q.at + 1), now, used);
      } else if !NoSpace(q.s.limits.mtu, q.d.commandCount, q.d.bufferCount, q.d.packetSize, c) {
        LoadedFits(q.s.limits.mtu, q.d, c);
        LaunchedTimed(q.s, q.at, now, used);
        PassedTimed(q.(canPing := false, s := Launched(q.s, q.at, now), d := Loaded(q.d, c)), now, used);
      }
    }
  }

  /** A late command's timeout is doubled. */
  lemma DoubledTimed(c: Command, used: set<Limits>, k: nat)
    requires TimedSince(c, used, k)
    ensures TimedSince(c.(roundTripTimeout := Times(c.roundTripTimeout, 2)), used, k + 1)
  {
    var l :| l in used && DoubledSince(c, l, k);
    var t, d := FirstTimeout(l), Doublings(k);
    assert t * Doublings(k + 1) == 2 * (t * d);
    assert t * d >= 0;
    assert DoubledSince(c.(roundTripTimeout := Times(c.roundTripTimeout, 2)), l, k + 1);
  }

  lemma ReturnedTimed(s: Sender, at: nat, back: nat, used: set<Limits>)
    requires Timed(s, used) && at < |s.sent| && back <= |s.outgoing|
    ensures Timed(Returned(s, at, back), used)
  {
    var c := s.sent[at];
    assert c in s.sent;
    DoubledTimed(c, used, c.sendAttempts - 1);
    hide TimedSince, Plus, Minus, Times;
    var s1 := Returned(s, at, back);
    assert s.sent[..at] + s.sent[at + 1..] == s1.sent;
    FewerSent(s.sent, s1.sent, used);
    var d := c.(roundTripTimeout := Times(c.roundTripTimeout, 2));
    forall e {:trigger e in s1.outgoing} | e in s1.outgoing
      ensures if e.sendAttempts == 0 then e.roundTripTimeout == 0 else TimedSince(e, used, e.sendAttempts)
    {
      assert e in s.outgoing || e == d;
    }
    assert at > 0 ==> s1.sent[0] == s.sent[0];
  }

  lemma {:induction false} TimedOutTimed(s: Sender, at: nat, back: nat, now: uint32, used: set<Limits>)
    requires Timed(s, used) && at <= |s.sent| && back <= |s.outgoing|
    ensures Timed(TimedOut(s, at, back, now).0, used)
    decreases |s.sent| - at
  {
    hide Timed, GivenUp, InTime, Returned;
    if at < |s.sent| {
      if InTime(s.sent[at], now) {
        TimedOutTimed(s, at + 1, back, now, used);
      } else {
        var s1 := s.(earliestTimeout := Earliest(s.earliestTimeout, s.sent[at]));
        TimedOnly(s, s1, used);
        ReturnedTimed(s1, at, back, used);
        TimedOutTimed(Returned(s1, at, back), at, back + 1, now, used);
      }
    }
  }

  lemma TimedOnly(s: Sender, s1: Sender, used: set<Limits>)
    requires Timed(s, used) && s1 == s.(earliestTimeout := s1.earliestTimeout)
    ensures Timed(s1, used)
  {
    hide SentTimed, QueueTimed;
  }

  lemma AcknowledgedTimed(s: Sender, sequence: uint16, channelID: nat, used: set<Limits>)
    requires Timed(s, used) && ChannelsOk(s.channels)
    ensures Timed(Acknowledged(s, sequence, channelID), used)
  {
    hide *;
    hide Timed;
    AcknowledgedParts(s, sequence, channelID);
    var s1 := Acknowledged(s, sequence, channelID);
    PartsTimed(s, s1, used);
  }

  /** What an acknowledgement leaves of the lists, and when the next check is due. */
  ghost predicate LeavesOf(s: Sender, s1: Sender) {
    && s1.limits == s.limits
    && (forall c {:trigger c in s1.sent} :: c in s1.sent ==> c in s.sent)
    && (forall c {:trigger c in s1.outgoing} :: c in s1.outgoing ==> c in s.outgoing)
    && ((s1.sent == s.sent && s1.nextTimeout == s.nextTimeout) || NextIsDue(s1))
  }

  lemma RemovedSentLeaves(s: Sender, i: nat)
    requires i < |s.sent| && ChannelsOk(s.channels)
    ensures LeavesOf(s, RemovedSent(s, i))
  {
    hide ReleasedIn, Plus, Minus;
  }

  lemma RemovedQueuedLeaves(s: Sender, i: nat)
    requires i < |s.outgoing| && ChannelsOk(s.channels)
    ensures LeavesOf(s, RemovedQueued(s, i))
  {
    hide ReleasedIn, Plus, Minus;
  }

  lemma AcknowledgedParts(s: Sender, sequence: uint16, channelID: nat)
    requires ChannelsOk(s.channels)
    ensures LeavesOf(s, Acknowledged(s, sequence, channelID))
  {
    assert LeavesOf(s, s);
    hide LeavesOf, RemovedSent, RemovedQueued, Search;
    var i := Search(s.sent, sequence, channelID, false, 0);
    var j := Search(s.outgoing, sequence, channelID, true, 0);
    if i >= 0 {
      RemovedSentLeaves(s, i);
    } else if j >= 0 {
      RemovedQueuedLeaves(s, j);
    }
  }

  lemma PartsTimed(s: Sender, s1: Sender, used: set<Limits>)
    requires Timed(s, used) && LeavesOf(s, s1)
    ensures Timed(s1, used)
  {
    hide SentTimed, QueueTimed;
    FewerSent(s.sent, s1.sent, used);
    FewerQueued(s.outgoing, s1.outgoing, used);
  }

  // ----- over runs -----

  /** The settings that the sender has had so far. */
  function SettingsSoFar(run: seq<System>, i: nat): set<Limits>
    requires i < |run|
  {
    set j | 0 <= j <= i :: run[j].sender.limits
  }

  /** The averages behind them were steady. */
  ghost predicate SteadyRun(run: seq<System>) {
    forall j {:trigger run[j]} :: 0 <= j < |run| ==>
      RoundTrips.Steady(run[j].sender.limits.roundTripTime, run[j].sender.limits.roundTripTimeVariance)
  }

  lemma StepTimed(sys: System, step: Step, used: set<Limits>, used1: set<Limits>)
    requires Shapes(sys) && Enabled(sys, step) && Timed(sys.sender, used) && used <= used1 && AllSteady(used1)
    requires Next(sys, step).sender.limits in used1
    ensures Timed(Next(sys, step).sender, used1)
  {
    hide Timed, Passed, TimedOut, Acknowledged, AllSteady, LimitsOk, FragmentFit.Packed, ParcelOk, Fits;
    var s := sys.sender;
    match step
    case Submit(k, data, checksum) =>
      var p := FragmentFit.Packed(data, s.limits.mtu, checksum);
      var contents := ContentsOf(p, |sys.flows[k].log| + 1);
      QueuedAllTimed(s, k, |sys.flows[k].log| + 1, contents, FragmentFit.PartSize(p), used);
      TimedMore(Next(sys, step).sender, Next(sys, step).sender, used, used1);
    case SubmitOwn(number, size) =>
      var s1 := QueuedOwn(s, number, size);
      AppendedTimed(s, s1, used, s1.outgoing[|s.outgoing|]);
      TimedMore(s1, s1, used, used1);
    case Transmit(d, now) =>
      PassedTimed(Pass(s, d, 0, false, false, true), now, used);
      TimedMore(Next(sys, step).sender, Next(sys, step).sender, used, used1);
    case Timeouts(now) =>
      TimedOutTimed(s, 0, 0, now, used);
      TimedMore(Next(sys, step).sender, Next(sys, step).sender, used, used1);
    case Tune(limits) => TimedMore(s, s.(limits := limits), used, used1);
    case Deliver(_, _, _) => TimedMore(s, s, used, used1);
    case DeliverAck(a) =>
      TimedOnly(s, Heard(s), used);
      AcknowledgedTimed(Heard(s), a.sequence, a.channelID, used);
      TimedMore(Next(sys, step).sender, Next(sys, step).sender, used, used1);
    case DeliverOwnAck(sequence) =>
      TimedOnly(s, Heard(s), used);
      AcknowledgedTimed(Heard(s), sequence, 0xFF, used);
      TimedMore(Next(sys, step).sender, Next(sys, step).sender, used, used1);
  }

  /** In every state of every run the timeouts of all commands follow from their attempts, and the
      next check is due when the first of the sent commands is. */
  lemma {:induction false} RunTimed(run: seq<System>, steps: seq<Step>, i: nat)
    requires IsRun(run, steps) && i < |run| && SteadyRun(run)
    ensures Timed(run[i].sender, SettingsSoFar(run, i))
    decreases i
  {
    forall l {:trigger l in SettingsSoFar(run, i)} | l in SettingsSoFar(run, i)
      ensures RoundTrips.Steady(l.roundTripTime, l.roundTripTimeVariance)
    {
      var j :| 0 <= j <= i && l == run[j].sender.limits;
    }
    assert run[i].sender.limits in SettingsSoFar(run, i);
    if i > 0 {
      RunTimed(run, steps, i - 1);
      StepIs(run, steps, i - 1);
      hide Timed, Next, Enabled, Shapes, IsRun, RoundTrips.Steady;
      assert SettingsSoFar(run, i - 1) <= SettingsSoFar(run, i);
      StepTimed(run[i - 1], steps[i - 1], SettingsSoFar(run, i - 1), SettingsSoFar(run, i));
    }
  }

  // ----- when a peer is given up, over runs -----

  function TimesOf(late: seq<Command>): set<uint32> { set c | c in late :: c.sentTime }

  /** When the commands were sent whose acknowledgements were found late since the other side was
      last heard of. */
  function LateTimes(run: seq<System>, steps: seq<Step>, i: nat): set<uint32>
    requires i <= |steps| < |run|
  {
    if i == 0 then {} else
      match steps[i - 1]
      case Timeouts(now) => LateTimes(run, steps, i - 1) + TimesOf(LateOf(run[i - 1].sender.sent, now))
      case DeliverAck(_) => {}
      case DeliverOwnAck(_) => {}
      case _ => LateTimes(run, steps, i - 1)
  }

  /** With those of a check of the timeouts that is made now. */
  function LateTimesNow(run: seq<System>, steps: seq<Step>, i: nat, now: uint32): set<uint32>
    requires i <= |steps| < |run|
  {
    LateTimes(run, steps, i) + TimesOf(LateOf(run[i].sender.sent, now))
  }

  function Age(now: uint32, t: uint32): nat { (now - t) % 0x1_0000_0000 }

  /** Within the last day. */
  ghost predicate AllRecent(now: uint32, times: set<uint32>) {
    forall t {:trigger t in times} :: t in times ==> t != 0 && Age(now, t) < 86_400_000
  }

  ghost predicate Oldest(now: uint32, e: uint32, times: set<uint32>) {
    e in times && forall t {:trigger t in times} :: t in times ==> Age(now, t) <= Age(now, e)
  }

  /** The oldest, or 0 when there is none. */
  ghost predicate IsOldest(now: uint32, e: uint32, times: set<uint32>) {
    if times == {} then e == 0 else Oldest(now, e, times)
  }

  lemma AgeIs(now: uint32, t: uint32)
    requires Age(now, t) < 86_400_000
    ensures TimeDifference(now, t) == Age(now, t)
  {
  }

  lemma LessIsOlder(now: uint32, t: uint32, e: uint32)
    requires Age(now, t) < 86_400_000 && Age(now, e) < 86_400_000
    ensures TimeLess(t, e) <==> Age(now, t) > Age(now, e)
  {
    assert (t - e) % 0x1_0000_0000 == (Age(now, e) - Age(now, t)) % 0x1_0000_0000;
  }

  /** The earliest time is one of the times known. */
  lemma {:induction false} EarliestAmong(earliest: uint32, late: seq<Command>, times: set<uint32>)
    requires earliest == 0 || earliest in times
    ensures EarliestOf(earliest, late) == 0 || EarliestOf(earliest, late) in times + TimesOf(late)
    decreases |late|
  {
    hide TimeLess;
    if late != [] {
      var n := |late| - 1;
      EarliestAmong(earliest, late[..n], times);
      assert late[n] in late && TimesOf(late[..n]) <= TimesOf(late);
    }
  }

  /** And the oldest of them when all are recent. */
  lemma {:induction false} EarliestIsOldest(earliest: uint32, late: seq<Command>, times: set<uint32>, now: uint32)
    requires AllRecent(now, times + TimesOf(late))
    requires IsOldest(now, earliest, times)
    ensures IsOldest(now, EarliestOf(earliest, late), times + TimesOf(late))
    decreases |late|
  {
    hide TimeLess, Age;
    if late == [] {
      assert times + TimesOf(late) == times;
    } else {
      var n := |late| - 1;
      var t := late[n].sentTime;
      assert late == late[..n] + [late[n]];
      assert TimesOf(late) == TimesOf(late[..n]) + {t};
      var before := times + TimesOf(late[..n]);
      EarliestIsOldest(earliest, late[..n], times, now);
      var e := EarliestOf(earliest, late[..n]);
      assert t in times + TimesOf(late);
      if before != {} {
        assert e in before && e in times + TimesOf(late);
        LessIsOlder(now, t, e);
      }
      assert times + TimesOf(late) == before + {t};
    }
  }

  /** What a step does to the earliest time. */
  lemma EarliestStep(sys: System, step: Step)
    requires Shapes(sys) && Enabled(sys, step)
    ensures var e := Next(sys, step).sender.earliestTimeout;
      match step
      case Timeouts(now) => e == EarliestOf(sys.sender.earliestTimeout, LateOf(sys.sender.sent, now))
      case DeliverAck(_) => e == 0
      case DeliverOwnAck(_) => e == 0
      case _ => e == sys.sender.earliestTimeout
  {
    hide Passed, TimedOut, Acknowledged, LateOf, EarliestOf, FragmentFit.Packed, ParcelOk, Fits, LimitsOk;
    var s := sys.sender;
    match step
    case Submit(k, data, checksum) =>
      var p := FragmentFit.Packed(data, s.limits.mtu, checksum);
      QueuedAllKeeps(s, k, |sys.flows[k].log| + 1, ContentsOf(p, |sys.flows[k].log| + 1), FragmentFit.PartSize(p));
    case Transmit(d, now) => PassedKeeps(Pass(s, d, 0, false, false, true), now);
    case Timeouts(now) => CheckedExactly(s, now);
    case DeliverAck(a) => AcknowledgedKeeps(Heard(s), a.sequence, a.channelID);
    case DeliverOwnAck(sequence) => AcknowledgedKeeps(Heard(s), sequence, 0xFF);
    case _ =>
  }

  lemma {:induction false} QueuedAllKeeps(s: Sender, k: nat, first: nat, contents: seq<Fragmentation.Content>,
                                          size: nat)
    requires k < |s.channels|
    ensures SenderInvariant.QueuedAll(s, k, first, contents, size).earliestTimeout == s.earliestTimeout
    decreases |contents|
  {
    if contents != [] {
      QueuedAllKeeps(s, k, first, contents[..|contents| - 1], size);
    }
  }

  lemma {:induction false} PassedKeeps(p: Pass, now: uint32)
    requires PassOk(p)
    requires forall i {:trigger p.s.outgoing[i]} :: 0 <= i < |p.s.outgoing| ==> Fits(p.s.outgoing[i], p.s.limits.mtu)
    ensures Passed(p, now).s.earliestTimeout == p.s.earliestTimeout
    decreases |p.s.outgoing| - p.at
  {
    hide Blocked, Exceeds, Fits;
    if p.at < |p.s.outgoing| {
      var q := Looked(p);
      var c := q.s.outgoing[q.at];
      if Skips(q) {
        PassedKeeps(q.(at := q.at + 1), now);
      } else if !NoSpace(q.s.limits.mtu, q.d.commandCount, q.d.bufferCount, q.d.packetSize, c) {
        LoadedFits(q.s.limits.mtu, q.d, c);
        PassedKeeps(q.(canPing := false, s := Launched(q.s, q.at, now), d := Loaded(q.d, c)), now);
      }
    }
  }

  lemma AcknowledgedKeeps(s: Sender, sequence: uint16, channelID: nat)
    requires ChannelsOk(s.channels)
    ensures Acknowledged(s, sequence, channelID).earliestTimeout == s.earliestTimeout
  {
    hide Search, ReleasedIn, Plus, Minus;
  }

  lemma RunLength(run: seq<System>, steps: seq<Step>)
    requires IsRun(run, steps)
    ensures |run| == |steps| + 1
  {
  }

  lemma EarliestNext(run: seq<System>, steps: seq<Step>, i: nat)
    requires IsRun(run, steps) && i < |steps|
    ensures var e := run[i + 1].sender.earliestTimeout;
      match steps[i]
      case Timeouts(now) => e == EarliestOf(run[i].sender.earliestTimeout, LateOf(run[i].sender.sent, now))
      case DeliverAck(_) => e == 0
      case DeliverOwnAck(_) => e == 0
      case _ => e == run[i].sender.earliestTimeout
  {
    StepIs(run, steps, i);
    hide *;
    EarliestStep(run[i], steps[i]);
  }

  lemma LateNext(run: seq<System>, steps: seq<Step>, i: nat)
    requires i < |steps| < |run|
    ensures var times := LateTimes(run, steps, i + 1);
      match steps[i]
      case Timeouts(now) => times == LateTimes(run, steps, i) + TimesOf(LateOf(run[i].sender.sent, now))
      case DeliverAck(_) => times == {}
      case DeliverOwnAck(_) => times == {}
      case _ => times == LateTimes(run, steps, i)
  {
    hide LateOf, TimesOf;
  }

  lemma LateAtFirst(run: seq<System>, steps: seq<Step>)
    requires |steps| < |run|
    ensures LateTimes(run, steps, 0) == {}
  {
  }

  lemma EarliestAtFirst(run: seq<System>, steps: seq<Step>)
    requires IsRun(run, steps)
    ensures run[0].sender.earliestTimeout == 0
  {
  }

  /** In every run the earliest time is 0 or one of the late times since the other side was heard. */
  lemma {:induction false} RunEarliest(run: seq<System>, steps: seq<Step>, i: nat)
    requires IsRun(run, steps) && i < |run|
    ensures var e := run[i].sender.earliestTimeout; e == 0 || e in LateTimes(run, steps, i)
    decreases i
  {
    RunLength(run, steps);
    hide *;
    if i == 0 {
      EarliestAtFirst(run, steps);
    } else {
      RunEarliest(run, steps, i - 1);
      EarliestNext(run, steps, i - 1);
      LateNext(run, steps, i - 1);
      match steps[i - 1]
      case Timeouts(now) =>
        EarliestAmong(run[i - 1].sender.earliestTimeout, LateOf(run[i - 1].sender.sent, now),
                      LateTimes(run, steps, i - 1));
      case _ =>
    }
  }

  lemma RecentFewer(now: uint32, times: set<uint32>, all: set<uint32>)
    requires AllRecent(now, all) && times <= all
    ensures AllRecent(now, times)
  {
    hide Age;
  }

  /** And the oldest of them while all are recent. */
  lemma {:induction false} RunOldest(run: seq<System>, steps: seq<Step>, i: nat, now: uint32)
    requires IsRun(run, steps) && i < |run| && AllRecent(now, LateTimes(run, steps, i))
    ensures IsOldest(now, run[i].sender.earliestTimeout, LateTimes(run, steps, i))
    decreases i
  {
    RunLength(run, steps);
    hide *;
    if i == 0 {
      EarliestAtFirst(run, steps);
      LateAtFirst(run, steps);
      NoneOldest(now);
    } else {
      var e, sent, times := run[i - 1].sender.earliestTimeout, run[i - 1].sender.sent, LateTimes(run, steps, i - 1);
      EarliestNext(run, steps, i - 1);
      LateNext(run, steps, i - 1);
      if steps[i - 1].Timeouts? {
        RecentFewer(now, times, LateTimes(run, steps, i));
        RunOldest(run, steps, i - 1, now);
        EarliestIsOldest(e, LateOf(sent, steps[i - 1].now), times, now);
      } else if steps[i - 1].DeliverAck? || steps[i - 1].DeliverOwnAck? {
        NoneOldest(now);
      } else {
        RunOldest(run, steps, i - 1, now);
      }
    }
  }

  lemma NoneOldest(now: uint32)
    ensures IsOldest(now, 0, {})
  {
  }

  /** A check gives the peer up. */
  predicate GivesUp(s: Sender, now: uint32) { TimedOut(s, 0, 0, now).1 }

  lemma {:induction false} LateFirst(sent: seq<Command>, now: uint32, k: nat)
    requires k < |LateOf(sent, now)|
    ensures LateOf(sent, now)[k] in sent && IsLate(LateOf(sent, now)[k], now)
  {
    hide IsLate;
    if IsLate(sent[0], now) {
      if k > 0 { LateFirst(sent[1..], now, k - 1); }
    } else {
      LateFirst(sent[1..], now, k);
    }
  }

  lemma {:induction false} LateHas(sent: seq<Command>, now: uint32, c: Command)
    requires c in sent && IsLate(c, now)
    ensures c in LateOf(sent, now)
  {
    hide IsLate;
    if c != sent[0] { LateHas(sent[1..], now, c); }
  }

  /** In every run no peer is given up before the minimum has passed since some command was sent
      whose acknowledgement is late, with nothing heard of the other side since it was found late. */
  lemma NotTooSoon(run: seq<System>, steps: seq<Step>, i: nat, now: uint32)
    requires IsRun(run, steps) && i < |run| && GivesUp(run[i].sender, now)
    ensures var l := run[i].sender.limits;
      exists t {:trigger t in LateTimesNow(run, steps, i, now)} :: t in LateTimesNow(run, steps, i, now)
        && (TimeDifference(now, t) >= l.timeoutMinimum || TimeDifference(now, t) >= l.timeoutMaximum)
  {
    hide IsRun, TimedOut, TimeDifference, LateOf;
    RunLength(run, steps);
    var s := run[i].sender;
    var late := LateOf(s.sent, now);
    CheckedExactly(s, now);
    var k: nat :| TooLongAt(s.earliestTimeout, late, s.limits, now, k);
    RunEarliest(run, steps, i);
    EarliestAmong(s.earliestTimeout, late[..k + 1], LateTimes(run, steps, i));
    assert TimesOf(late[..k + 1]) <= TimesOf(late);
    assert EarliestOf(s.earliestTimeout, late[..k + 1]) in LateTimesNow(run, steps, i, now);
  }

  /** Some command on the wire, late now, was attempted `k` times with 2 to the power k - 1 at its
      `timeoutLimit` or more, unless its timeout or the limit of that passed 32 bits. */
  ghost predicate DoubledToLimit(c: Command, l: Limits) {
    c.sendAttempts >= 1 &&
    (FirstTimeout(l) * Doublings(c.sendAttempts - 1) < TWO_32 && l.timeoutLimit * FirstTimeout(l) < TWO_32 ==>
      Doublings(c.sendAttempts - 1) >= l.timeoutLimit)
  }

  /** Before the maximum has passed since any of them was sent, a peer is given up only if the timeout
      of a late command has been doubled up to its limit. */
  lemma BeforeMaximum(run: seq<System>, steps: seq<Step>, i: nat, now: uint32)
    requires IsRun(run, steps) && i < |run| && SteadyRun(run) && GivesUp(run[i].sender, now)
    requires forall t {:trigger t in LateTimesNow(run, steps, i, now)} :: t in LateTimesNow(run, steps, i, now) ==>
        TimeDifference(now, t) < run[i].sender.limits.timeoutMaximum
    ensures exists c, l {:trigger DoubledToLimit(c, l)} ::
        && c in run[i].sender.sent && IsLate(c, now) && l in SettingsSoFar(run, i) && DoubledToLimit(c, l)
  {
    hide IsRun, TimedOut, TimeDifference, LateOf, IsLate, SteadyRun, Timed;
    RunLength(run, steps);
    var s := run[i].sender;
    var late := LateOf(s.sent, now);
    CheckedExactly(s, now);
    var k: nat :| TooLongAt(s.earliestTimeout, late, s.limits, now, k);
    RunEarliest(run, steps, i);
    EarliestAmong(s.earliestTimeout, late[..k + 1], LateTimes(run, steps, i));
    assert TimesOf(late[..k + 1]) <= TimesOf(late);
    assert EarliestOf(s.earliestTimeout, late[..k + 1]) in LateTimesNow(run, steps, i, now);
    LateFirst(s.sent, now, k);
    RunTimed(run, steps, i);
    LimitReached(s, SettingsSoFar(run, i), late[k]);
  }

  lemma LimitReached(s: Sender, used: set<Limits>, c: Command)
    requires Timed(s, used) && c in s.sent && c.roundTripTimeoutLimit <= c.roundTripTimeout
    ensures exists l {:trigger DoubledToLimit(c, l)} :: l in used && DoubledToLimit(c, l)
  {
    var l :| l in used && DoubledSince(c, l, c.sendAttempts - 1);
    var t, d := FirstTimeout(l), Doublings(c.sendAttempts - 1);
    if t * d < TWO_32 && l.timeoutLimit * t < TWO_32 {
      assert l.timeoutLimit * t <= d * t;
      assert t >= 7;
      NoMore(l.timeoutLimit, d, t);
    }
    assert DoubledToLimit(c, l);
  }

  lemma Larger(a: nat, t: nat)
    requires a >= 1
    ensures a * t >= t
  {
    assert a * t == t + (a - 1) * t;
  }

  lemma NoMore(a: nat, b: nat, t: nat)
    requires a * t <= b * t && t > 0
    ensures a <= b
  {
    assert (a - b) * t == a * t - b * t <= 0;
    assert a - b >= 1 ==> (a - b) * t >= t by { if a - b >= 1 { Larger(a - b, t); } }
  }

  /** A check that meets a late command at the maximum or later since the oldest late time gives the
      peer up. */
  lemma AtMaximum(run: seq<System>, steps: seq<Step>, i: nat, now: uint32, t: uint32)
    requires IsRun(run, steps) && i < |run| && LateOf(run[i].sender.sent, now) != []
    requires AllRecent(now, LateTimesNow(run, steps, i, now))
    requires t in LateTimesNow(run, steps, i, now) && Age(now, t) >= run[i].sender.limits.timeoutMaximum
    ensures GivesUp(run[i].sender, now)
  {
    hide IsRun, TimedOut, TimeDifference, LateOf, Age;
    RunLength(run, steps);
    var s := run[i].sender;
    var late := LateOf(s.sent, now);
    CheckedExactly(s, now);
    assert AllRecent(now, LateTimes(run, steps, i));
    RunOldest(run, steps, i, now);
    EarliestIsOldest(s.earliestTimeout, late, LateTimes(run, steps, i), now);
    var e := EarliestOf(s.earliestTimeout, late);
    assert Oldest(now, e, LateTimesNow(run, steps, i, now));
    AgeIs(now, e);
    assert late[..|late| - 1 + 1] == late;
    assert TooLongAt(s.earliestTimeout, late, s.limits, now, |late| - 1);
  }

  /** So does one that meets, at the minimum or later since it was sent, a command that was attempted
      often enough. */
  lemma AtLimit(run: seq<System>, steps: seq<Step>, i: nat, now: uint32, c: Command)
    requires IsRun(run, steps) && i < |run| && SteadyRun(run)
    requires c in run[i].sender.sent && IsLate(c, now) && c.sendAttempts >= 1
    requires AllRecent(now, LateTimesNow(run, steps, i, now))
    requires Age(now, c.sentTime) >= run[i].sender.limits.timeoutMinimum
    requires forall l {:trigger l in SettingsSoFar(run, i)} :: l in SettingsSoFar(run, i) ==>
        && FirstTimeout(l) * Doublings(c.sendAttempts - 1) < TWO_32
        && l.timeoutLimit <= Doublings(c.sendAttempts - 1)
    ensures GivesUp(run[i].sender, now)
  {
    hide IsRun, TimedOut, TimeDifference, LateOf, IsLate, SteadyRun, Timed, Age;
    RunLength(run, steps);
    var s := run[i].sender;
    var late, times := LateOf(s.sent, now), LateTimes(run, steps, i);
    LateHas(s.sent, now, c);
    var k: nat :| k < |late| && late[k] == c;
    CheckedExactly(s, now);
    RunOldest(run, steps, i, now);
    var known := times + TimesOf(late[..k + 1]);
    assert late[..k + 1][k] == c && c.sentTime in known;
    assert TimesOf(late[..k + 1]) <= TimesOf(late);
    EarliestIsOldest(s.earliestTimeout, late[..k + 1], times, now);
    var e := EarliestOf(s.earliestTimeout, late[..k + 1]);
    assert e in known && e in LateTimesNow(run, steps, i, now);
    AgeIs(now, e);
    RunTimed(run, steps, i);
    AtItsLimit(s, SettingsSoFar(run, i), c);
    assert TooLongAt(s.earliestTimeout, late, s.limits, now, k);
  }

  lemma AtItsLimit(s: Sender, used: set<Limits>, c: Command)
    requires Timed(s, used) && c in s.sent
    requires forall l {:trigger l in used} :: l in used ==>
        && FirstTimeout(l) * Doublings(c.sendAttempts - 1) < TWO_32
        && l.timeoutLimit <= Doublings(c.sendAttempts - 1)
    ensures c.roundTripTimeoutLimit <= c.roundTripTimeout
  {
    var l :| l in used && DoubledSince(c, l, c.sendAttempts - 1);
    var t, d := FirstTimeout(l), Doublings(c.sendAttempts - 1);
    Under(l.timeoutLimit, d, t);
  }

  lemma Under(a: nat, b: nat, t: nat)
    requires a <= b
    ensures a * t % TWO_32 <= t * b
  {
    assert t * b == a * t + (b - a) * t;
    assert (b - a) * t >= 0;
    assert a * t % TWO_32 <= a * t;
  }
}
