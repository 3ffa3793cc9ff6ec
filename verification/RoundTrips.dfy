/** The round trip time of a peer, averaged over the acknowledgements that come in, and the
    throttle that follows it. */
module RoundTrips {
  import opened Sending
  import opened Words

  /** The averages, their extremes in this throttle epoch, and those of the one before. */
  datatype Averages = Averages(
    time: uint32, variance: uint32, lowest: uint32, highestVariance: uint32, last: uint32, lastVariance: uint32,
    epoch: uint32)

  /** The packet throttle and what it goes by. */
  datatype Throttle = Throttle(current: uint32, limit: uint32, acceleration: uint32, deceleration: uint32)

  function Apart(a: uint32, b: uint32): uint32 { if a >= b then a - b else b - a }

  /** An eighth of the way to the sample. */
  function Smoothed(average: uint32, sample: uint32): uint32 {
    if sample >= average then average + (sample - average) / 8 else average - (average - sample) / 8
  }

  function Spread(variance: uint32, distance: uint32): uint32 { (variance - variance / 4 + distance / 4) % TWO_32 }

  /** The time a command was sent at, completed from its low 16 bits. */
  function SentTime(now: uint32, low: uint16): uint32 {
    var guess := now - now % TWO_16 + low;
    if low / 0x8000 > now % TWO_16 / 0x8000 then Minus(guess, TWO_16) else guess
  }

  /** What a sample does to the averages. */
  function Measured(a: Averages, now: uint32, sample: uint32, interval: uint32): Averages {
    var time := Smoothed(a.time, sample);
    var variance := Spread(a.variance, Apart(sample, time));
    var lowest := if time < a.lowest then time else a.lowest;
    var highest := if variance > a.highestVariance then variance else a.highestVariance;
    if a.epoch == 0 || TimeDifference(now, a.epoch) >= interval then
      Averages(time, variance, time, variance, lowest, highest, now)
    else Averages(time, variance, lowest, highest, a.last, a.lastVariance, a.epoch)
  }

  /** The throttle opens when a round trip is shorter than the shortest of the last epoch, closes
      when it is longer by more than twice the variance, and is wide open while the variance says
      nothing. */
  function Throttled(t: Throttle, sample: uint32, last: uint32, lastVariance: uint32): Throttle {
    if last <= lastVariance then t.(current := t.limit)
    else if sample < last then
      t.(current := if Plus(t.current, t.acceleration) > t.limit then t.limit else Plus(t.current, t.acceleration))
    else if sample > Plus(last, Times(2, lastVariance)) then
      t.(current := if t.current > t.deceleration then t.current - t.deceleration else 0)
    else t
  }

  class Clock {
    var lastReceiveTime: uint32
    var earliestTimeout: uint32
    var packetThrottle: uint32
    var packetThrottleLimit: uint32
    var packetThrottleAcceleration: uint32
    var packetThrottleDeceleration: uint32
    var roundTripTime: uint32
    var roundTripTimeVariance: uint32
    var lowestRoundTripTime: uint32
    var highestRoundTripTimeVariance: uint32
    var lastRoundTripTime: uint32
    var lastRoundTripTimeVariance: uint32
    var packetThrottleEpoch: uint32
    var packetThrottleInterval: uint32

    ghost function Value(): Averages
      reads this
    {
      Averages(roundTripTime, roundTripTimeVariance, lowestRoundTripTime, highestRoundTripTimeVariance,
               lastRoundTripTime, lastRoundTripTimeVariance, packetThrottleEpoch)
    }

    ghost function ThrottleValue(): Throttle
      reads this
    {
      Throttle(packetThrottle, packetThrottleLimit, packetThrottleAcceleration, packetThrottleDeceleration)
    }

    /** Opens or closes the throttle after a round trip: 1, -1 or 0. */
    method AdjustThrottle(sample: uint32) returns (direction: int)
      modifies this`packetThrottle
      ensures ThrottleValue() == Throttled(old(ThrottleValue()), sample, lastRoundTripTime, lastRoundTripTimeVariance)
      ensures direction == (if lastRoundTripTime <= lastRoundTripTimeVariance then 0
                            else if sample < lastRoundTripTime then 1
                            else if sample > Plus(lastRoundTripTime, Times(2, lastRoundTripTimeVariance)) then -1
                            else 0)
    {
      hide Times;
      if lastRoundTripTime <= lastRoundTripTimeVariance {
        packetThrottle := packetThrottleLimit;
      } else if sample < lastRoundTripTime {
        packetThrottle := Plus(packetThrottle, packetThrottleAcceleration);
        if packetThrottle > packetThrottleLimit {
          packetThrottle := packetThrottleLimit;
        }
        return 1;
      } else if sample > Plus(lastRoundTripTime, Times(2, lastRoundTripTimeVariance)) {
        if packetThrottle > packetThrottleDeceleration {
          packetThrottle := packetThrottle - packetThrottleDeceleration;
        } else {
          packetThrottle := 0;
        }
        return -1;
      }
      return 0;
    }

    /** Takes a sample into the two averages. */
    method Average(sample: uint32)
      modifies this`roundTripTime, this`roundTripTimeVariance
      ensures roundTripTime == Smoothed(old(roundTripTime), sample)
      ensures roundTripTimeVariance == Spread(old(roundTripTimeVariance), Apart(sample, roundTripTime))
    {
      var variance: int := roundTripTimeVariance - roundTripTimeVariance / 4;
      if sample >= roundTripTime {
        roundTripTime := roundTripTime + (sample - roundTripTime) / 8;
        roundTripTimeVariance := (variance + (sample - roundTripTime) / 4) % TWO_32;
      } else {
        roundTripTime := roundTripTime - (roundTripTime - sample) / 8;
        roundTripTimeVariance := (variance + (roundTripTime - sample) / 4) % TWO_32;
      }
    }

    /** Takes a sample into the averages, their extremes, and when it is time those of the epoch. */
    method TakeSample(serviceTime: uint32, sample: uint32)
      modifies this`roundTripTime, this`roundTripTimeVariance, this`lowestRoundTripTime,
        this`highestRoundTripTimeVariance, this`lastRoundTripTime, this`lastRoundTripTimeVariance,
        this`packetThrottleEpoch
      ensures Value() == Measured(old(Value()), serviceTime, sample, packetThrottleInterval)
    {
      hide TimeDifference, Smoothed, Spread, Apart;
      Average(sample);
      if roundTripTime < lowestRoundTripTime {
        lowestRoundTripTime := roundTripTime;
      }
      if roundTripTimeVariance > highestRoundTripTimeVariance {
        highestRoundTripTimeVariance := roundTripTimeVariance;
      }
      if packetThrottleEpoch == 0 || TimeDifference(serviceTime, packetThrottleEpoch) >= packetThrottleInterval {
        lastRoundTripTime, lastRoundTripTimeVariance := lowestRoundTripTime, highestRoundTripTimeVariance;
        lowestRoundTripTime, highestRoundTripTimeVariance := roundTripTime, roundTripTimeVariance;
        packetThrottleEpoch := serviceTime;
      }
    }

    /** The timing half of an acknowledgement; false when it names a time still to come. */
    method Measure(serviceTime: uint32, receivedSentTime: uint16) returns (ok: bool)
      modifies this
      ensures packetThrottleInterval == old(packetThrottleInterval)
      ensures var sent := SentTime(serviceTime, receivedSentTime);
        var sample := TimeDifference(serviceTime, sent);
        && ok == !TimeLess(serviceTime, sent)
        && (!ok ==> Value() == old(Value()) && ThrottleValue() == old(ThrottleValue())
                    && lastReceiveTime == old(lastReceiveTime) && earliestTimeout == old(earliestTimeout))
        && (ok ==>
              && Value() == Measured(old(Value()), serviceTime, sample, packetThrottleInterval)
              && ThrottleValue() == Throttled(old(ThrottleValue()), sample, old(lastRoundTripTime),
                                              old(lastRoundTripTimeVariance))
              && lastReceiveTime == serviceTime && earliestTimeout == 0)
    {
      hide TimeLess, TimeDifference, Minus, Measured, Throttled;
      var sent: uint32 := serviceTime - serviceTime % TWO_16 + receivedSentTime;
      if receivedSentTime / 0x8000 > serviceTime % TWO_16 / 0x8000 {
        sent := Minus(sent, TWO_16);
      }
      assert sent == SentTime(serviceTime, receivedSentTime);
      hide SentTime;
      if TimeLess(serviceTime, sent) {
        return false;
      }
      lastReceiveTime, earliestTimeout := serviceTime, 0;
      var _ := AdjustThrottle(TimeDifference(serviceTime, sent));
      TakeSample(serviceTime, TimeDifference(serviceTime, sent));
      return true;
    }
  }

  /** Times less than a day apart are told apart, either way around; from a day on, the later one is
      taken for the earlier. */
  lemma WithinADay(time: uint32, ahead: nat)
    requires ahead <= 86_400_000
    ensures var later := (time + ahead) % 0x1_0000_0000;
      && (ahead < 86_400_000 ==> TimeDifference(later, time) == TimeDifference(time, later) == ahead)
      && (ahead < 86_400_000 ==> !TimeLess(later, time) && (TimeLess(time, later) <==> ahead > 0))
      && (ahead == 86_400_000 ==> TimeLess(later, time))
  {
    var later := (time + ahead) % 0x1_0000_0000;
    assert (later - time) % 0x1_0000_0000 == ahead;
    assert (time - later) % 0x1_0000_0000 == if ahead == 0 then 0 else 0x1_0000_0000 - ahead;
  }

  /** The low 16 bits are enough for a command sent less than 2^15 milliseconds ago. */
  lemma SentTimeExact(now: uint32, sent: uint32)
    requires Minus(now, sent) < 0x8000
    ensures SentTime(now, sent % TWO_16) == sent
  {
    var qn, qs := now / TWO_16, sent / TWO_16;
    assert now == qn * TWO_16 + now % TWO_16 && sent == qs * TWO_16 + sent % TWO_16;
    assert qs == qn || qs == qn - 1 || (qn == 0 && qs == 0xFFFF);
  }

  /** The averages are never so small that a command could time out at once, nor so large that
      its timeout would wrap around. */
  predicate Steady(time: uint32, variance: uint32) { 7 <= time <= TIME_OVERFLOW && variance <= TIME_OVERFLOW }

  lemma StaysSteady(a: Averages, now: uint32, sent: uint32, interval: uint32)
    requires Steady(a.time, a.variance) && !TimeLess(now, sent)
    ensures var b := Measured(a, now, TimeDifference(now, sent), interval); Steady(b.time, b.variance)
  {
    var sample := TimeDifference(now, sent);
    assert sample < TIME_OVERFLOW;
    SmoothedBetween(a.time, sample);
    var distance := Apart(sample, Smoothed(a.time, sample));
    assert distance <= TIME_OVERFLOW;
    SpreadBounded(a.variance, distance);
  }

  lemma SmoothedBetween(average: uint32, sample: uint32)
    requires 7 <= average <= TIME_OVERFLOW && sample <= TIME_OVERFLOW
    ensures 7 <= Smoothed(average, sample) <= TIME_OVERFLOW
  {
    if sample < average {
      var d := average - sample;
      assert d / 8 <= average / 8;
      assert average - average / 8 >= 7;
    }
  }

  lemma SpreadBounded(variance: uint32, distance: uint32)
    requires variance <= TIME_OVERFLOW && distance <= TIME_OVERFLOW
    ensures Spread(variance, distance) <= TIME_OVERFLOW
  {
  }

  /** The throttle never passes its limit, whatever the settings and the round trips. */
  lemma ThrottleBounded(t: Throttle, sample: uint32, last: uint32, lastVariance: uint32)
    requires t.current <= t.limit
    ensures var t1 := Throttled(t, sample, last, lastVariance); t1.current <= t1.limit == t.limit
  {
  }

  /** A round trip shorter than the shortest of the last epoch never closes the throttle, and opens
      it as long as it is below its limit. */
  lemma ShortOpens(t: Throttle, sample: uint32, last: uint32, lastVariance: uint32)
    requires t.current <= t.limit && t.limit + t.acceleration < TWO_32 && lastVariance < last && sample < last
    ensures var t1 := Throttled(t, sample, last, lastVariance);
      t.current <= t1.current && (t.current < t.limit && t.acceleration > 0 ==> t.current < t1.current)
  {
  }

  /** One longer than that by more than twice the variance never opens it, and closes it as long as it
      is above 0. */
  lemma LongCloses(t: Throttle, sample: uint32, last: uint32, lastVariance: uint32)
    requires lastVariance < last && last + 2 * lastVariance < sample
    ensures var t1 := Throttled(t, sample, last, lastVariance);
      t1.current <= t.current && (t.current > 0 && t.deceleration > 0 ==> t1.current < t.current)
  {
  }

  /** Any in between leave it alone, and while the variance says nothing it is wide open. */
  lemma OthersLeave(t: Throttle, sample: uint32, last: uint32, lastVariance: uint32)
    requires last + 2 * lastVariance < TWO_32
    ensures lastVariance < last && last <= sample <= last + 2 * lastVariance ==>
      Throttled(t, sample, last, lastVariance) == t
    ensures last <= lastVariance ==> Throttled(t, sample, last, lastVariance).current == t.limit
  {
  }

  /** Samples of an epoch, one after the other. */
  function ThrottledBy(t: Throttle, samples: seq<uint32>, last: uint32, lastVariance: uint32): Throttle
    decreases |samples|
  {
    if samples == [] then t
    else Throttled(ThrottledBy(t, samples[..|samples| - 1], last, lastVariance), samples[|samples| - 1], last,
                   lastVariance)
  }

  /** After enough short round trips the throttle is at its limit. */
  lemma {:induction false} OpensFully(t: Throttle, samples: seq<uint32>, last: uint32, lastVariance: uint32)
    requires t.current <= t.limit && t.limit + t.acceleration < TWO_32 && lastVariance < last
    requires forall k {:trigger samples[k]} :: 0 <= k < |samples| ==> samples[k] < last
    ensures var t1 := ThrottledBy(t, samples, last, lastVariance);
      t1 == t.(current := if t.current + |samples| * t.acceleration >= t.limit then t.limit
                 else t.current + |samples| * t.acceleration)
    decreases |samples|
  {
    if samples != [] {
      var k := |samples| - 1;
      OpensFully(t, samples[..k], last, lastVariance);
      assert samples[k] < last;
      OneMoreTime(k, t.acceleration);
      OpensTo(t, k * t.acceleration, samples[k], last, lastVariance);
    }
  }

  lemma OneMoreTime(k: nat, a: nat)
    ensures (k + 1) * a == k * a + a && k * a >= 0
  {
  }

  lemma OpensTo(t: Throttle, more: nat, sample: uint32, last: uint32, lastVariance: uint32)
    requires t.current <= t.limit && t.limit + t.acceleration < TWO_32 && lastVariance < last && sample < last
    ensures var from := if t.current + more >= t.limit then t.limit else t.current + more;
      Throttled(t.(current := from), sample, last, lastVariance)
      == t.(current := if t.current + more + t.acceleration >= t.limit then t.limit
            else t.current + more + t.acceleration)
  {
  }

  /** After enough long ones it is closed. */
  lemma {:induction false} ClosesFully(t: Throttle, samples: seq<uint32>, last: uint32, lastVariance: uint32)
    requires lastVariance < last
    requires forall k {:trigger samples[k]} :: 0 <= k < |samples| ==> last + 2 * lastVariance < samples[k]
    ensures var t1 := ThrottledBy(t, samples, last, lastVariance);
      t1 == t.(current := if |samples| * t.deceleration >= t.current then 0
                 else t.current - |samples| * t.deceleration)
    decreases |samples|
  {
    if samples != [] {
      var k := |samples| - 1;
      ClosesFully(t, samples[..k], last, lastVariance);
      assert last + 2 * lastVariance < samples[k];
      OneMoreTime(k, t.deceleration);
    }
  }

  /** Each sample takes the average about an eighth of the way towards it, and never past it. */
  lemma Approaches(average: uint32, sample: uint32)
    ensures var a := Smoothed(average, sample);
      && (average <= a <= sample || sample <= a <= average)
      && 7 * Apart(average, sample) <= 8 * Apart(a, sample) <= 7 * Apart(average, sample) + 7
  {
  }

  /** Steady samples bring the variance down by about a quarter each. */
  lemma VarianceFalls(variance: uint32, distance: uint32)
    requires variance <= TIME_OVERFLOW && distance <= TIME_OVERFLOW
    ensures 3 * variance + distance - 3 <= 4 * Spread(variance, distance) <= 3 * variance + distance + 3
  {
  }

  /** A measurement moves the average towards the sample, and the variance towards the sample's distance
      from the average that results. */
  lemma SampleMoves(a: Averages, now: uint32, sample: uint32, interval: uint32)
    requires a.variance <= TIME_OVERFLOW && a.time <= TIME_OVERFLOW && sample <= TIME_OVERFLOW
    ensures var b := Measured(a, now, sample, interval);
      && 7 * Apart(a.time, sample) <= 8 * Apart(b.time, sample) <= 7 * Apart(a.time, sample) + 7
      && 3 * a.variance + Apart(sample, b.time) - 3 <= 4 * b.variance <= 3 * a.variance + Apart(sample, b.time) + 3
  {
    Approaches(a.time, sample);
    VarianceFalls(a.variance, Apart(sample, Smoothed(a.time, sample)));
    hide Smoothed, Spread;
  }

  // ----- throttle epochs -----

  datatype Sample = Sample(now: uint32, trip: uint32)

  /** A measurement at this time ends the epoch. */
  predicate Rolls(a: Averages, now: uint32, interval: uint32) {
    a.epoch == 0 || TimeDifference(now, a.epoch) >= interval
  }

  function After(a: Averages, samples: seq<Sample>, interval: uint32): Averages
    decreases |samples|
  {
    if samples == [] then a else
      var s := samples[|samples| - 1];
      Measured(After(a, samples[..|samples| - 1], interval), s.now, s.trip, interval)
  }

  /** The averages after the first `k` measurements. */
  function At(a: Averages, samples: seq<Sample>, interval: uint32, k: nat): Averages
    requires k <= |samples|
  {
    After(a, samples[..k], interval)
  }

  /** None of the measurements ends the epoch. */
  ghost predicate OneEpoch(a: Averages, samples: seq<Sample>, interval: uint32) {
    forall k {:trigger samples[k]} :: 0 <= k < |samples| ==>
      !Rolls(At(a, samples, interval, k), samples[k].now, interval)
  }

  /** `low` is the lowest average and `high` the highest variance that there were, `a` the first. */
  ghost predicate Extremes(a: Averages, samples: seq<Sample>, interval: uint32, low: uint32, high: uint32) {
    && (forall k {:trigger At(a, samples, interval, k)} :: 0 <= k <= |samples| ==>
          low <= At(a, samples, interval, k).time && At(a, samples, interval, k).variance <= high)
    && (exists k {:trigger At(a, samples, interval, k)} ::
          0 <= k <= |samples| && low == At(a, samples, interval, k).time)
    && (exists k {:trigger At(a, samples, interval, k)} ::
          0 <= k <= |samples| && high == At(a, samples, interval, k).variance)
  }

  /** While the epoch lasts, its extremes are those of all its averages, and it keeps those of the one
      before. */
  lemma {:induction false} EpochKeeps(a: Averages, samples: seq<Sample>, interval: uint32)
    requires OneEpoch(a, samples, interval) && a.lowest == a.time && a.highestVariance == a.variance
    ensures var b := After(a, samples, interval);
      && Extremes(a, samples, interval, b.lowest, b.highestVariance)
      && b.epoch == a.epoch && b.last == a.last && b.lastVariance == a.lastVariance
    decreases |samples|
  {
    hide Smoothed, Spread, Apart, TimeDifference;
    assert samples[..|samples|] == samples;
    if samples == [] {
      assert At(a, samples, interval, 0) == a;
    } else {
      var n := |samples| - 1;
      var less := samples[..n];
      forall k | 0 <= k <= n ensures At(a, samples, interval, k) == At(a, less, interval, k) {
        assert samples[..k] == less[..k];
      }
      forall k {:trigger less[k]} | 0 <= k < n ensures !Rolls(At(a, less, interval, k), less[k].now, interval) {
        assert samples[k] == less[k];
      }
      EpochKeeps(a, less, interval);
      var c := After(a, less, interval);
      assert samples[n] == samples[n] && !Rolls(At(a, samples, interval, n), samples[n].now, interval);
      assert At(a, samples, interval, n) == c;
      MoreExtremes(a, less, samples, interval, c.lowest, c.highestVariance);
    }
  }

  lemma MoreExtremes(a: Averages, less: seq<Sample>, samples: seq<Sample>, interval: uint32, low: uint32, high: uint32)
    requires samples != [] && less == samples[..|samples| - 1] && Extremes(a, less, interval, low, high)
    ensures var b := At(a, samples, interval, |samples|);
      Extremes(a, samples, interval, if b.time < low then b.time else low,
               if b.variance > high then b.variance else high)
  {
    hide After;
    forall k | 0 <= k <= |less| ensures At(a, samples, interval, k) == At(a, less, interval, k) {
      assert samples[..k] == less[..k];
    }
    var i :| 0 <= i <= |less| && low == At(a, less, interval, i).time;
    var j :| 0 <= j <= |less| && high == At(a, less, interval, j).variance;
    assert At(a, samples, interval, i) == At(a, less, interval, i);
    assert At(a, samples, interval, j) == At(a, less, interval, j);
    var b := At(a, samples, interval, |samples|);
  }

  /** When an epoch ends, the shortest average and the largest variance in it, those of the measurement
      that ends it among them, are what the throttle goes by in the next; which starts from that
      measurement. */
  lemma EpochEnds(a: Averages, samples: seq<Sample>, interval: uint32)
    requires samples != [] && a.lowest == a.time && a.highestVariance == a.variance
    requires OneEpoch(a, samples[..|samples| - 1], interval)
    requires Rolls(After(a, samples[..|samples| - 1], interval), samples[|samples| - 1].now, interval)
    ensures var b := After(a, samples, interval);
      && Extremes(a, samples, interval, b.last, b.lastVariance)
      && b.epoch == samples[|samples| - 1].now && b.lowest == b.time && b.highestVariance == b.variance
  {
    hide Smoothed, Spread, Apart, TimeDifference, Extremes;
    var less := samples[..|samples| - 1];
    var c := After(a, less, interval);
    EpochKeeps(a, less, interval);
    assert samples[..|samples|] == samples;
    MoreExtremes(a, less, samples, interval, c.lowest, c.highestVariance);
  }

  /** A command that is sent with steady averages has a timeout from 7 up. */
  lemma TimeoutPositive(time: uint32, variance: uint32)
    requires Steady(time, variance)
    ensures 7 <= Plus(time, Times(4, variance)) == time + 4 * variance
  {
  }
}
