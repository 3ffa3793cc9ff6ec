/** Packets in fragments that reach beyond two windows: for each there is a run in which a second
    assembly is begun, and what that does to the channel. */
module WideFragments {
  import opened FragmentDelivery
  import opened Fragmentation
  import opened InFlight
  import opened Reassembly
  import Receiving
  import Reception
  import opened Sending
  import opened Windows
  import opened Words

  // ----- one step more -----

  lemma OneStepOn(t: Transfer, run: seq<System>, steps: seq<Step>, step: Step)
    returns (run1: seq<System>, steps1: seq<Step>)
    requires IsRun(t, run, steps) && |run| == |steps| + 1 && Proper(t) && Enabled(t, run[|steps|], step)
    ensures IsRun(t, run1, steps1) && |run1| == |steps1| + 1 && run1[|steps1|] == Next(t, run[|steps|], step)
    ensures Inv(t, run[|steps|]) && Inv(t, run1[|steps1|])
  {
    RunOk(t, run, steps, |steps|);
    StepKeeps(t, run[|steps|], step);
    run1, steps1 := run + [Next(t, run[|steps|], step)], steps + [step];
    hide Enabled, Next, Proper, Inv;
    assert run1[0] == run[0];
    forall k {:trigger steps1[k]} | 0 <= k < |steps1|
      ensures Enabled(t, run1[k], steps1[k]) && run1[k + 1] == Next(t, run1[k], steps1[k])
    {
      if k < |steps| {
        assert steps1[k] == steps[k] && run1[k] == run[k] && run1[k + 1] == run[k + 1];
      }
    }
  }

  // ----- one command's way -----

  /** The windows that the receiver does not refuse, seen from in front of the packet. */
  predicate Low(t: Transfer, n: nat)
    requires t.start >= 1
  {
    Window(n) <= Window(t.start - 1) + 6
  }

  /** `n` commands were sent, of which at least the low ones are acknowledged. */
  ghost predicate SentTo(t: Transfer, s: System, n: nat)
    requires t.start >= 1
  {
    && s.flow.first == n == |s.flow.log|
    && forall i {:trigger i in s.flow.acked} :: 1 <= i <= n && Low(t, i) ==> i in s.flow.acked
  }

  /** The next command is queued and goes out. */
  lemma GoesOut(t: Transfer, run: seq<System>, steps: seq<Step>, n: nat)
    returns (run1: seq<System>, steps1: seq<Step>)
    requires IsRun(t, run, steps) && |run| == |steps| + 1 && Proper(t) && SentTo(t, run[|steps|], n)
    requires Window(n + 1) <= Window(t.start - 1) + 15
    requires (n + 1) % WINDOW_SIZE == 0 ==> n in run[|steps|].flow.acked
    ensures IsRun(t, run1, steps1) && |run1| == |steps1| + 1
    ensures Inv(t, run[|steps|]) && Inv(t, run1[|steps1|])
    ensures var s, s1 := run[|steps|], run1[|steps1|];
      && s1 == s.(channel := s1.channel, flow := s1.flow)
      && s1.flow.first == n + 1 == |s1.flow.log| && s1.flow.acked == s.flow.acked
  {
    var s := run[|steps|];
    var queue := Step.Queue(Entire([]));
    hide IsRun, Inv;
    run1, steps1 := OneStepOn(t, run, steps, queue);
    var q := run1[|steps1|];
    assert q.flow == s.flow.(log := s.flow.log + [Entire([])]);
    MayGoOut(t, q, n);
    run1, steps1 := OneStepOn(t, run1, steps1, SendFirst);
  }

  lemma MayGoOut(t: Transfer, s: System, n: nat)
    requires Proper(t) && Inv(t, s) && s.flow.first == n == |s.flow.log| - 1
    requires forall i {:trigger i in s.flow.acked} :: 1 <= i <= n && Low(t, i) ==> i in s.flow.acked
    requires Window(n + 1) <= Window(t.start - 1) + 15
    requires (n + 1) % WINDOW_SIZE == 0 ==> n in s.flow.acked
    ensures Enabled(t, s, SendFirst)
  {
    forall i {:trigger Open(s.flow, i)} | Open(s.flow, i) ensures Window(n + 1) <= Window(i) + 8 {
      assert i !in s.flow.acked;
    }
    hide FlowOk, CountersOk, BoxOk, Blocked;
    GateFree(s.channel, s.flow, Unsent(s.flow));
  }

  /** Its acknowledgement comes back. */
  lemma AckComes(t: Transfer, run: seq<System>, steps: seq<Step>, n: nat)
    returns (run1: seq<System>, steps1: seq<Step>)
    requires IsRun(t, run, steps) && |run| == |steps| + 1 && Proper(t)
    requires n in run[|steps|].acks && Alive(run[|steps|].flow, n)
    ensures IsRun(t, run1, steps1) && |run1| == |steps1| + 1 && Inv(t, run1[|steps1|])
    ensures var s, s1 := run[|steps|], run1[|steps1|];
      && s1 == s.(channel := s1.channel, flow := s1.flow)
      && s1.flow == s.flow.(acked := s.flow.acked + {n})
  {
    var s := run[|steps|];
    RunOk(t, run, steps, |steps|);
    MayBeAcked(t, s, n);
    hide IsRun, Inv;
    run1, steps1 := OneStepOn(t, run, steps, AckArrives(n));
    if !Open(s.flow, n) {
      assert s.flow.acked + {n} == s.flow.acked;
    }
  }

  lemma MayBeAcked(t: Transfer, s: System, n: nat)
    requires Proper(t) && Inv(t, s) && n in s.acks && Alive(s.flow, n)
    ensures Enabled(t, s, AckArrives(n)) && 1 <= n <= s.flow.first
  {
    hide FlowOk, BoxOk;
  }

  // ----- before and after the packet -----

  /** Everything up to `n` has been sent, delivered, and acknowledged or not low; nothing is being
      assembled. */
  ghost predicate Even(t: Transfer, s: System, n: nat)
    requires t.start >= 1
  {
    && SentTo(t, s, n) && s.r == n && s.box.assembly.None?
    && (n > 0 ==> n in s.flow.acked)
  }

  /** A command besides the packet's goes all its way. */
  lemma OtherGoes(t: Transfer, run: seq<System>, steps: seq<Step>, n: nat)
    returns (run1: seq<System>, steps1: seq<Step>)
    requires IsRun(t, run, steps) && |run| == |steps| + 1 && Proper(t) && Even(t, run[|steps|], n)
    requires Window(n + 1) <= Window(t.start - 1) + 15 && !(t.start <= n + 1 <= Last(t))
    requires run[|steps|].box.released == [] ==> n + 1 < t.start
    ensures IsRun(t, run1, steps1) && |run1| == |steps1| + 1 && Even(t, run1[|steps1|], n + 1)
    ensures var s, s1 := run[|steps|], run1[|steps1|]; s1.box.released == s.box.released && s1.got == s.got
  {
    hide IsRun, Inv;
    var s := run[|steps|];
    run1, steps1 := GoesOut(t, run, steps, n);
    var s1 := run1[|steps1|];
    BoxFacts(t, s.r, s.box, s.got) by { BoxHere(t, s); }
    NextTo(n);
    run1, steps1 := OneStepOn(t, run1, steps1, OtherArrives(n + 1));
    var s2 := run1[|steps1|];
    assert n + 1 in s2.acks && s2.flow == s1.flow && s2.box == s.box && s2.r == n && s2.got == s.got;
    run1, steps1 := OneStepOn(t, run1, steps1, CursorMoves(n + 1));
    var s3 := run1[|steps1|];
    assert s3.flow == s1.flow && s3.acks == s2.acks && s3.r == n + 1 && s3.got == s.got;
    assert s3.box == s.box.(incoming := Seq(n + 1));
    run1, steps1 := AckComes(t, run1, steps1, n + 1);
  }

  lemma NextTo(n: nat)
    ensures !RefusesAck(Seq(n + 1), Seq(n)) && Window(n) <= Window(n + 1) <= Window(n) + 1
  {
    SplitWindow(n);
    SplitWindow(n + 1);
    TestsExact(n + 1, n);
  }

  /** Everything in front of the packet. */
  lemma {:induction false} GoesTo(t: Transfer, n: nat) returns (run: seq<System>, steps: seq<Step>)
    requires Proper(t) && n < t.start
    ensures IsRun(t, run, steps) && |run| == |steps| + 1 && Even(t, run[|steps|], n)
    ensures run[|steps|].box.released == [] && run[|steps|].got == {}
    decreases n
  {
    if n == 0 {
      var s := System(Channel(0, {}, seq(WINDOWS, i => 0)), Flow([], 0, {}), 0, Receipt(0, None, []), {}, {});
      run, steps := [s], [];
    } else {
      run, steps := GoesTo(t, n - 1);
      InsideWindow(n, t.start);
      SplitWindow(t.start);
      SplitWindow(t.start - 1);
      run, steps := OtherGoes(t, run, steps, n - 1);
    }
  }

  // ----- the packet -----

  /** The first `i` fragments were sent and taken. */
  ghost predicate Taken(t: Transfer, s: System, i: nat)
    requires Proper(t)
  {
    && i < Count(t) && SentTo(t, s, t.start - 1 + i) && s.r == t.start - 1 && s.box.released == []
    && (t.start > 1 ==> t.start - 1 in s.flow.acked)
    && (forall j {:trigger j in s.got} :: j in s.got <==> 0 <= j < i)
  }

  /** A fragment goes out and is taken; the last one completes the packet. */
  lemma FragmentGoes(t: Transfer, run: seq<System>, steps: seq<Step>, i: nat)
    returns (run1: seq<System>, steps1: seq<Step>)
    requires IsRun(t, run, steps) && |run| == |steps| + 1 && Proper(t) && !TooWide(t) && Taken(t, run[|steps|], i)
    ensures IsRun(t, run1, steps1) && |run1| == |steps1| + 1
    ensures i + 1 < Count(t) ==> Taken(t, run1[|steps1|], i + 1)
    ensures i + 1 == Count(t) ==>
      Even(t, run1[|steps1|], Last(t)) && run1[|steps1|].box.released == [t.packet]
  {
    hide *;
    var s, n := run[|steps|], t.start + i;
    TakenFacts(t, s, i);
    run1, steps1 := GoesOut(t, run, steps, n - 1);
    var s1 := run1[|steps1|];
    MayArrive(t, s1, i);
    run1, steps1 := OneStepOn(t, run1, steps1, FragmentArrives(i));
    var s2 := run1[|steps1|];
    TakenNow(t, s1, s2, i);
    if n in s2.acks {
      run1, steps1 := AckComes(t, run1, steps1, n);
    }
    TakenThen(t, s, s2, run1[|steps1|], i);
  }

  lemma TakenFacts(t: Transfer, s: System, i: nat)
    requires Proper(t) && !TooWide(t) && Taken(t, s, i)
    ensures i < Count(t) && t.start >= 1 && SentTo(t, s, t.start + i - 1) && s.r == t.start - 1
    ensures s.box.released == [] && Window(t.start + i) <= Window(t.start - 1) + 15
    ensures (t.start + i) % WINDOW_SIZE == 0 ==> t.start + i - 1 in s.flow.acked
    ensures forall j {:trigger j in s.got} :: j in s.got <==> 0 <= j < i
  {
    PieceWindows(t, i);
    hide FragmentCount;
    if (t.start + i) % WINDOW_SIZE == 0 {
      var _ := t.start + i - 1 in s.flow.acked;
    }
  }

  lemma MayArrive(t: Transfer, s: System, i: nat)
    requires Proper(t) && i < Count(t) && s.flow.first == t.start + i
    ensures Enabled(t, s, FragmentArrives(i)) && Alive(s.flow, t.start + i)
  {
    hide FragmentCount;
  }

  /** Acknowledged when it is low or the last, the fragment is one more that was taken. */
  lemma TakenThen(t: Transfer, s: System, s2: System, s3: System, i: nat)
    requires Proper(t) && Taken(t, s, i)
    requires s2.flow.first == t.start + i == |s2.flow.log| && s2.flow.acked == s.flow.acked
    requires s3 == s2.(channel := s3.channel, flow := s3.flow)
    requires s3.flow == if t.start + i in s2.acks then s2.flow.(acked := s2.flow.acked + {t.start + i}) else s2.flow
    requires forall j {:trigger j in s2.got} :: j in s2.got <==> 0 <= j < i + 1
    requires i + 1 < Count(t) ==> s2.r == t.start - 1 && s2.box.released == []
    requires i + 1 == Count(t) ==> s2.r == Last(t) && s2.box.released == [t.packet] && s2.box.assembly.None?
    requires Low(t, t.start + i) || i + 1 == Count(t) ==> t.start + i in s2.acks
    ensures i + 1 < Count(t) ==> Taken(t, s3, i + 1)
    ensures i + 1 == Count(t) ==> Even(t, s3, Last(t)) && s3.box.released == [t.packet]
  {
    hide FragmentCount, Low;
    forall k {:trigger k in s3.flow.acked} | 1 <= k <= t.start + i && Low(t, k) ensures k in s3.flow.acked {
      if k < t.start + i {
        assert k in s.flow.acked;
      }
    }
  }

  lemma PieceWindows(t: Transfer, i: nat)
    requires Proper(t) && !TooWide(t) && i < Count(t)
    ensures Window(t.start - 1) <= Window(t.start + i) <= Window(t.start - 1) + 7
    ensures (t.start + i) % WINDOW_SIZE == 0 && i > 0 ==> Low(t, t.start + i - 1)
  {
    CountPositive(t);
    hide FragmentCount;
    InsideWindow(t.start - 1, t.start + i);
    InsideWindow(t.start + i, Last(t));
    SplitWindow(t.start + i);
    SplitWindow(t.start + i - 1);
  }

  /** What the arrival of the next fragment leaves behind. */
  lemma TakenNow(t: Transfer, s1: System, s2: System, i: nat)
    requires Proper(t) && !TooWide(t) && i < Count(t) && Inv(t, s1) && Inv(t, s2)
    requires Enabled(t, s1, FragmentArrives(i)) && s2 == Next(t, s1, FragmentArrives(i))
    requires s1.flow.first == t.start + i && s1.r == t.start - 1 && s1.box.released == []
    requires forall j {:trigger j in s1.got} :: j in s1.got <==> 0 <= j < i
    ensures s2.flow == s1.flow && s2.channel == s1.channel
    ensures forall j {:trigger j in s2.got} :: j in s2.got <==> 0 <= j < i + 1
    ensures i + 1 < Count(t) ==> s2.r == t.start - 1 && s2.box.released == []
    ensures i + 1 == Count(t) ==> s2.r == Last(t) && s2.box.released == [t.packet] && s2.box.assembly.None?
    ensures Low(t, t.start + i) || i + 1 == Count(t) ==> t.start + i in s2.acks
  {
    FirstAccepted(t, s1);
    ArrivedIs(t, s1, i);
    hide FragmentCount, FlowOk, CountersOk, Accepts, RefusesAck, Handled, Seq;
    var c := HandledPiece(t, s1, i);
    BoxHere(t, s2);
    assert s2.got == s1.got + {i};
    ReleasedWhen(t, s1, s2, i);
    AckedWhen(t, s2, i);
  }

  lemma FirstAccepted(t: Transfer, s: System)
    requires Proper(t) && Inv(t, s) && s.r == t.start - 1
    ensures Accepts(Seq(t.start), s.box.incoming) && s.box.incoming == Seq(t.start - 1)
  {
    SplitWindow(t.start);
    SplitWindow(t.start - 1);
    TestsExact(t.start, t.start - 1);
    hide FlowOk, CountersOk, Accepts, Seq, FragmentCount;
  }

  /** The packet is released with its last fragment and not before. */
  lemma ReleasedWhen(t: Transfer, s1: System, s2: System, i: nat)
    requires Proper(t) && !TooWide(t) && i < Count(t) && s1.box.released == [] && s1.r == t.start - 1
    requires s2.r == Cursor(t, s1.r, s1.box, s2.box) && BoxOk(t, s2.r, s2.box, s2.got)
    requires forall j {:trigger j in s2.got} :: j in s2.got <==> 0 <= j < i + 1
    ensures i + 1 < Count(t) ==> s2.r == t.start - 1 && s2.box.released == []
    ensures i + 1 == Count(t) ==> s2.r == Last(t) && s2.box.released == [t.packet] && s2.box.assembly.None?
    ensures s2.box.incoming == Seq(s2.r)
  {
    CountPositive(t);
    hide FragmentCount, Seq, AssemblyOk;
    if i + 1 < Count(t) {
      assert i + 1 !in s2.got;
      assert !AllGot(t, s2.got);
    } else {
      assert AllGot(t, s2.got);
      InsideWindow(t.start - 1, t.start);
    }
  }

  lemma AckedWhen(t: Transfer, s: System, i: nat)
    requires Proper(t) && !TooWide(t) && i < Count(t)
    requires s.r == if i + 1 == Count(t) then Last(t) else t.start - 1
    ensures Low(t, t.start + i) || i + 1 == Count(t) ==> !RefusesAck(Seq(t.start + i), Seq(s.r))
  {
    CountPositive(t);
    PieceWindows(t, i);
    hide FragmentCount;
    TestsExact(t.start + i, s.r);
  }

  /** All of the packet. */
  lemma {:induction false} FragmentsGo(t: Transfer, i: nat) returns (run: seq<System>, steps: seq<Step>)
    requires Proper(t) && !TooWide(t) && i < Count(t)
    ensures IsRun(t, run, steps) && |run| == |steps| + 1 && Taken(t, run[|steps|], i)
    decreases i
  {
    hide IsRun, FragmentCount;
    if i == 0 {
      run, steps := GoesTo(t, t.start - 1);
    } else {
      run, steps := FragmentsGo(t, i - 1);
      run, steps := FragmentGoes(t, run, steps, i - 1);
    }
  }

  /** And commands behind it, up to `n`. */
  lemma {:induction false} GoesBehind(t: Transfer, n: nat) returns (run: seq<System>, steps: seq<Step>)
    requires Proper(t) && !TooWide(t) && Last(t) <= n && Window(n) <= Window(t.start - 1) + 15
    ensures IsRun(t, run, steps) && |run| == |steps| + 1 && Even(t, run[|steps|], n)
    ensures run[|steps|].box.released == [t.packet]
    decreases n
  {
    CountPositive(t);
    hide IsRun, FragmentCount;
    if n == Last(t) {
      run, steps := FragmentsGo(t, Count(t) - 1);
      run, steps := FragmentGoes(t, run, steps, Count(t) - 1);
    } else {
      InsideWindow(n - 1, n);
      run, steps := GoesBehind(t, n - 1);
      run, steps := OtherGoes(t, run, steps, n - 1);
    }
  }

  // ----- the second assembly -----

  /** The run: the packet is released, the commands behind it are delivered up to the tenth window
      after its start, and its last fragment arrives once more. */
  lemma SecondBegins(t: Transfer) returns (run: seq<System>, steps: seq<Step>)
    requires Proper(t) && !Narrow(t) && !TooWide(t)
    ensures IsRun(t, run, steps) && |run| == |steps| + 1
    ensures var s := run[|steps|];
      && s.box.released == [t.packet] && s.r == (Window(t.start) + 10) * WINDOW_SIZE
      && s.box.assembly.Some? && s.box.assembly.value.fragmentsRemaining == Count(t) - 1 > 0
  {
    var r := (Window(t.start) + 10) * WINDOW_SIZE;
    CountPositive(t);
    WideWindows(t, r);
    hide FragmentCount;
    run, steps := GoesBehind(t, r);
    var s := run[|steps|];
    RunOk(t, run, steps, |steps|);
    BoxFacts(t, s.r, s.box, s.got) by { BoxHere(t, s); }
    hide IsRun, Inv, Narrow, TooWide, Accepts;
    SecondAssembly(t, r, Count(t) - 1);
    run, steps := OneStepOn(t, run, steps, FragmentArrives(Count(t) - 1));
  }

  lemma WideWindows(t: Transfer, r: nat)
    requires Proper(t) && !Narrow(t) && !TooWide(t) && r == (Window(t.start) + 10) * WINDOW_SIZE
    ensures Count(t) >= 2 && Last(t) < r && t.start < r && Window(r) == Window(t.start) + 10
    ensures Window(r) <= Window(t.start - 1) + 15 && Window(r) <= Window(Last(t)) + 8 && Reopens(t, r)
  {
    CountPositive(t);
    hide FragmentCount;
    SplitWindow(t.start);
    SplitWindow(t.start - 1);
    SplitWindow(Last(t));
    assert Window(r) == Window(t.start) + 10;
    LateExact(t.start, r);
  }

  /** A packet that can be released at all is narrow if and only if in no run a second assembly of
      it is ever begun. */
  lemma SecondExactly(t: Transfer)
    requires Proper(t) && !TooWide(t)
    ensures Narrow(t) <==>
      forall run: seq<System>, steps: seq<Step>, k {:trigger IsRun(t, run, steps), run[k]} ::
        IsRun(t, run, steps) && 0 <= k < |run| && run[k].box.released != [] ==> run[k].box.assembly.None?
  {
    hide IsRun, Narrow, TooWide, FragmentCount;
    if Narrow(t) {
      forall run: seq<System>, steps: seq<Step>, k {:trigger IsRun(t, run, steps), run[k]}
        | IsRun(t, run, steps) && 0 <= k < |run| && run[k].box.released != []
        ensures run[k].box.assembly.None?
      {
        RebuiltOnce(t, run, steps, k);
      }
    } else {
      var run, steps := SecondBegins(t);
      var _ := run[|steps|];
    }
  }

  // ----- what it does to the channel -----

  /** An incomplete packet in the queue: the real command of its number is dropped as a duplicate,
      although it is acknowledged, and the receiver never gets past it. */
  lemma StandsInTheWay(c: Receiving.Inlet, r: nat, held: Reception.Held, n: nat, data: seq<uint8>, full: bool)
    requires Reception.Represents(c, r, held) && n in held && !Receiving.Complete(held[n])
    requires forall m {:trigger held[m]} :: m in held && m < n ==> m + Receiving.Width(held[m]) <= n
    ensures Receiving.Arrives(c, Receiving.Plain(Seq(n), data), full) == Receiving.Dropped
    ensures !RefusesAck(Seq(n), c.incomingReliableSequenceNumber)
    ensures Reception.Cursor(r, held) < n && n in Reception.Left(r, held)
  {
    Reception.SequenceIs(c, r, held, n);
    Near(c, r, held, n);
    Reception.IncomingIs(c, r, held);
    Reception.ArrivalRefines(c, r, held, n, Receiving.Plain(Seq(n), data), full);
    TestsExact(n, r);
    CursorStops(r, held, n);
    hide Reception.Represents, Receiving.Arrives, RefusesAck;
  }

  lemma Near(c: Receiving.Inlet, r: nat, held: Reception.Held, n: nat)
    requires Reception.Represents(c, r, held) && n in held && r < n
    ensures Window(n) <= Window(r) + 6 && Window(r) <= Window(n)
  {
    InsideWindow(r, n);
    hide Reception.NumberOf, Receiving.Sorted;
  }

  lemma {:induction false} CursorStops(r: nat, held: Reception.Held, n: nat)
    requires r < n && n in held && !Receiving.Complete(held[n])
    requires forall m {:trigger held[m]} :: m in held && m < n ==> m + Receiving.Width(held[m]) <= n
    ensures Reception.Cursor(r, held) < n && n in Reception.Left(r, held)
    decreases |held|
  {
    hide Receiving.Complete, Receiving.Width;
    if Reception.IsDue(r, held) {
      Reception.Fewer(held, r + 1);
      CursorStops(r + Receiving.Width(held[r + 1]), held - {r + 1}, n);
    }
  }
}
