/** When a host throttles and announces: once a second, and after a change. */
module ThrottleClock {
  import opened Words

  const THROTTLE_INTERVAL := 1000

  /** The time of the last call that was not too early, and whether something has changed since
      the last announcement. */
  datatype Clock = Clock(epoch: uint32, recalculate: bool)

  /** What a call does. */
  datatype Call = TooEarly | NobodyThere | Throttles(announces: bool)

  function Elapsed(now: uint32, epoch: uint32): uint32 { (now - epoch) % TWO_32 }

  function Called(c: Clock, now: uint32, connected: bool): (Clock, Call) {
    if Elapsed(now, c.epoch) < THROTTLE_INTERVAL then (c, TooEarly)
    else if !connected then (c.(epoch := now), NobodyThere)
    else (Clock(now, false), Throttles(c.recalculate))
  }

  // ----- runs -----

  /** Calls at whole times that never go back, of which the code has the low 32 bits; and changes. */
  datatype Step = Change | CallAt(time: nat, connected: bool)

  function Next(c: Clock, step: Step): Clock {
    match step
    case Change => c.(recalculate := true)
    case CallAt(time, connected) => Called(c, time % TWO_32, connected).0
  }

  predicate Forward(s: Step, t: Step) { s.CallAt? && t.CallAt? ==> s.time <= t.time }

  ghost predicate IsRun(run: seq<Clock>, steps: seq<Step>) {
    && |run| == |steps| + 1
    && (forall k {:trigger steps[k]} :: 0 <= k < |steps| ==> run[k + 1] == Next(run[k], steps[k]))
    && (forall j, k {:trigger steps[j], steps[k]} :: 0 <= j < k < |steps| ==> Forward(steps[j], steps[k]))
  }

  /** What step `k` does; a change is no call. */
  function Does(run: seq<Clock>, steps: seq<Step>, k: nat): Call
    requires k < |steps| && k < |run|
  {
    if steps[k].CallAt? then Called(run[k], steps[k].time % TWO_32, steps[k].connected).1 else TooEarly
  }

  /** The epoch is the time of the last call that was not too early, with or without peers. */
  lemma {:induction false} EpochIs(run: seq<Clock>, steps: seq<Step>, i: nat, j: nat)
    requires IsRun(run, steps) && i < j <= |steps| && !Does(run, steps, i).TooEarly?
    requires forall k {:trigger Does(run, steps, k)} :: i < k < j ==> Does(run, steps, k).TooEarly?
    ensures steps[i].CallAt? && run[j].epoch == steps[i].time % TWO_32
    decreases j
  {
    var step := steps[j - 1];
    if i < j - 1 {
      EpochIs(run, steps, i, j - 1);
      assert Does(run, steps, j - 1).TooEarly?;
    }
  }

  /** Any two calls that are not too early are at least a second apart. */
  lemma {:induction false} SecondApart(run: seq<Clock>, steps: seq<Step>, i: nat, j: nat)
    requires IsRun(run, steps) && i < j < |steps|
    requires !Does(run, steps, i).TooEarly? && !Does(run, steps, j).TooEarly?
    ensures steps[i].CallAt? && steps[j].CallAt? && steps[j].time >= steps[i].time + 1000
    decreases j - i
  {
    if k :| i < k < j && !Does(run, steps, k).TooEarly? {
      SecondApart(run, steps, i, k);
      SecondApart(run, steps, k, j);
    } else {
      EpochIs(run, steps, i, j);
      assert Forward(steps[i], steps[j]);
      ElapsedAtMost(steps[i].time, steps[j].time);
    }
  }

  lemma ElapsedAtMost(a: nat, b: nat)
    requires a <= b
    ensures Elapsed(b % TWO_32, a % TWO_32) <= b - a
  {
    var qa, qb := a / TWO_32, b / TWO_32;
    assert a == qa * TWO_32 + a % TWO_32 && b == qb * TWO_32 + b % TWO_32 && qa <= qb;
  }

  /** And a call that comes a second or more after the last such, but less than a wraparound of the
      clock, is not too early. */
  lemma AfterASecond(run: seq<Clock>, steps: seq<Step>, i: nat, j: nat)
    requires IsRun(run, steps) && i < j < |steps| && !Does(run, steps, i).TooEarly? && steps[j].CallAt?
    requires forall k {:trigger Does(run, steps, k)} :: i < k < j ==> Does(run, steps, k).TooEarly?
    requires steps[i].CallAt? && steps[i].time + 1000 <= steps[j].time < steps[i].time + TWO_32
    ensures !Does(run, steps, j).TooEarly?
  {
    EpochIs(run, steps, i, j);
    var a, b := steps[i].time, steps[j].time;
    var qa, qb := a / TWO_32, b / TWO_32;
    assert a == qa * TWO_32 + a % TWO_32 && b == qb * TWO_32 + b % TWO_32 && qa <= qb <= qa + 1;
  }

  /** Between two announcements something has changed. */
  lemma ChangedBetween(run: seq<Clock>, steps: seq<Step>, i: nat, j: nat)
    requires IsRun(run, steps) && i < j < |steps|
    requires Does(run, steps, i).Throttles? && Does(run, steps, j) == Throttles(true)
    ensures exists k {:trigger steps[k]} :: i < k < j && steps[k].Change?
  {
    if forall k {:trigger steps[k]} :: i < k < j ==> !steps[k].Change? {
      StaysClear(run, steps, i, j);
    }
  }

  lemma {:induction false} StaysClear(run: seq<Clock>, steps: seq<Step>, i: nat, j: nat)
    requires IsRun(run, steps) && i < j <= |steps| && Does(run, steps, i).Throttles?
    requires forall k {:trigger steps[k]} :: i < k < j ==> !steps[k].Change?
    ensures !run[j].recalculate
    decreases j
  {
    var step := steps[j - 1];
    if i < j - 1 {
      StaysClear(run, steps, i, j - 1);
    }
  }

  /** A change is announced by the first call after it that throttles. */
  lemma {:induction false} ChangeWaits(run: seq<Clock>, steps: seq<Step>, i: nat, j: nat)
    requires IsRun(run, steps) && i < j <= |steps| && steps[i].Change?
    requires forall k {:trigger Does(run, steps, k)} :: i < k < j ==> !Does(run, steps, k).Throttles?
    ensures run[j].recalculate
    ensures j < |steps| && Does(run, steps, j).Throttles? ==> Does(run, steps, j).announces
    decreases j
  {
    var step := steps[j - 1];
    if i < j - 1 {
      ChangeWaits(run, steps, i, j - 1);
      assert !Does(run, steps, j - 1).Throttles?;
    }
  }
}
