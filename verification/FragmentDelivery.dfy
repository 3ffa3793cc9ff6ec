/** One packet in fragments, from its sender's windows to its receiver's cursor: whatever the
    network loses, repeats and delays, it is released at most once and as it was sent.  Of a
    packet that reaches further than the window after the one it begins in, late fragments may
    begin a second assembly, which is never completed. */
module FragmentDelivery {
  import opened Fragmentation
  import opened InFlight
  import opened Reassembly
  import Receiving
  import Reception
  import opened Sending
  import opened Windows
  import opened Words

  // ----- the receiver -----

  /** The receiver of a channel, with the packet being assembled and those released. */
  datatype Receipt = Receipt(incoming: uint16, assembly: Option<Assembly>, released: seq<seq<uint8>>)

  /** A whole packet is released when it is its turn; the cursor passes all its fragments. */
  function Turn(c: Receipt, start: uint16): Receipt {
    if c.assembly.Some? && c.assembly.value.fragmentsRemaining <= 0 && start == (c.incoming + 1) % TWO_16 then
      Receipt((start + |c.assembly.value.bits| + TWO_16 - 1) % TWO_16, None, c.released + [c.assembly.value.data])
    else c
  }

  function Joins(c: Receipt, a: Assembly, f: Fragment): Receipt
    requires f.fragmentNumber < |a.bits| && f.fragmentOffset + |f.data| <= |a.data|
  {
    if a.bits[f.fragmentNumber] then c.(assembly := Some(a))
    else Turn(c.(assembly := Some(Added(a, f))), f.startSequenceNumber)
  }

  /** A fragment arrives; `space` is what a new packet holds before anything is copied into it. */
  function Handled(c: Receipt, f: Fragment, maximumPacketSize: nat, space: seq<uint8>): (r: (Receipt, bool))
    requires |space| == f.totalLength
  {
    if !Accepts(f.startSequenceNumber, c.incoming) then (c, true)
    else if Malformed(f, maximumPacketSize) then (c, false)
    else match c.assembly
      case Some(a) => if Foreign(a, f) then (c, false) else (Joins(c, a, f), true)
      case None =>
        if f.startSequenceNumber == c.incoming then (c, false)
        else (Joins(c, Blank(f.fragmentCount, space), f), true)
  }

  // ----- the receiver's queue, as far as the packet is concerned -----

  /** The queue with this packet alone. */
  function Alone(c: Receipt, start: uint16): Receiving.Inlet {
    Receiving.Inlet(c.incoming, if c.assembly.Some? then [Receiving.Fragmented(start, c.assembly.value)] else [])
  }

  /** What is said of the packet here is what the receiver's own functions say of such a queue. */
  lemma HandledIs(c: Receipt, f: Fragment, maximumPacketSize: nat, space: seq<uint8>)
    requires |space| == f.totalLength && Receiving.Quiet(Alone(c, f.startSequenceNumber))
    ensures var (c1, ok) := Handled(c, f, maximumPacketSize, space);
      match Receiving.FragmentArrives(Alone(c, f.startSequenceNumber), f, maximumPacketSize, false, space)
      case Dropped => ok && c1 == c
      case Refused => !ok && c1 == c
      case Stored(x) =>
        ok && Alone(c1, f.startSequenceNumber) == Receiving.Dispatched(x)
        && c1.released == c.released + Receiving.DispatchedData(x)
  {
    var start := f.startSequenceNumber;
    hide Accepts, Added;
    if Accepts(start, c.incoming) && !Malformed(f, maximumPacketSize) {
      if c.assembly.Some? {
        var queue := Alone(c, start).incomingReliableCommands;
        assert queue[..0] == [];
        if !Foreign(c.assembly.value, f) {
          JoinedAlone(c, c.assembly.value, f);
          assert queue[0 := queue[0].(assembly := Added(c.assembly.value, f))]
              == [Receiving.Fragmented(start, Added(c.assembly.value, f))];
        }
      } else if start != c.incoming {
        var e := Receiving.Begun(f, space);
        assert [][..0] + [e] + [][0..] == [e];
        JoinedAlone(c, e.assembly, f);
        assert [e][0 := e.(assembly := Added(e.assembly, f))] == [e.(assembly := Added(e.assembly, f))];
      }
    }
    hide Receiving.Dispatched, Receiving.DispatchedData, Joins, Malformed, Foreign;
  }

  /** The queue after the fragment, dispatched. */
  lemma JoinedAlone(c: Receipt, a: Assembly, f: Fragment)
    requires f.fragmentNumber < |a.bits| && f.fragmentOffset + |f.data| <= |a.data|
    requires a.bits[f.fragmentNumber] ==> Receiving.Quiet(Alone(c.(assembly := Some(a)), f.startSequenceNumber))
    ensures var start := f.startSequenceNumber;
      var x := Receiving.Inlet(c.incoming, [Receiving.Fragmented(start, Added(a, f))]);
      && Alone(Joins(c, a, f), start) == Receiving.Dispatched(x)
      && Joins(c, a, f).released == c.released + Receiving.DispatchedData(x)
  {
    var a1, start := Added(a, f), f.startSequenceNumber;
    var x := Receiving.Inlet(c.incoming, [Receiving.Fragmented(start, a1)]);
    assert |a1.bits| == |a.bits|;
    Receiving.DispatchedQuiet(x);
    hide Overwritten;
    if !Receiving.Quiet(x) {
      var c1 := Receiving.Inlet(Receiving.Behind(x.incomingReliableCommands[0]), []);
      assert x.incomingReliableCommands[1..] == [];
      Receiving.RunFirst(x, c1);
      Receiving.DispatchedQuiet(c1);
    }
  }

  // ----- the transfer of one packet -----

  /** A packet, how it is cut, and the number of its first fragment, without bound. */
  datatype Transfer = Transfer(packet: seq<uint8>, length: nat, start: nat, space: seq<uint8>, maximumPacketSize: nat)

  ghost predicate Proper(t: Transfer) {
    && t.length > 0 && t.start >= 1 && 0 < |t.packet| <= t.maximumPacketSize && |t.space| == |t.packet|
    && FragmentCount(|t.packet|, t.length) <= MAXIMUM_FRAGMENT_COUNT
  }

  function Count(t: Transfer): nat
    requires t.length > 0
  {
    FragmentCount(|t.packet|, t.length)
  }

  /** The number of the last fragment. */
  function Last(t: Transfer): int
    requires t.length > 0
  {
    t.start + Count(t) - 1
  }

  /** The fragments lie in the window of the first and the one after. */
  ghost predicate Narrow(t: Transfer)
    requires Proper(t)
  {
    CountPositive(t);
    Window(Last(t)) <= Window(t.start) + 1
  }

  /** The fragments reach more than seven windows past the command before them. */
  ghost predicate TooWide(t: Transfer)
    requires Proper(t)
  {
    CountPositive(t);
    Window(Last(t)) > Window(t.start - 1) + 7
  }

  lemma CountPositive(t: Transfer)
    requires Proper(t)
    ensures Count(t) >= 1 && Last(t) >= t.start
  {
    Bounds(|t.packet|, t.length);
  }

  function Piece(t: Transfer, i: nat): Fragment
    requires t.length > 0 && i < Count(t)
  {
    FragmentOf(t.packet, t.length, Seq(t.start), i)
  }

  // ----- late fragments -----

  /** A fragment may still come while the receiver is no more than 8 windows past it. */
  predicate MayCome(t: Transfer, i: nat, r: nat) { Window(r) <= Window(t.start + i) + 8 }

  /** The receiver, past the whole packet, takes a fragment of it for one of a new packet. */
  predicate Reopens(t: Transfer, r: nat) { Accepts(Seq(t.start), Seq(r)) && Seq(t.start) != Seq(r) }

  /** Every late fragment that may still come is ignored, if and only if the packet is narrow.
      (A packet that is too wide is never released: `NeverReleased`.) */
  lemma LateIgnored(t: Transfer)
    requires Proper(t) && !TooWide(t)
    ensures Narrow(t) <==>
      forall i, r {:trigger MayCome(t, i, r), Reopens(t, r)} ::
        0 <= i < Count(t) && Last(t) <= r && MayCome(t, i, r) ==> !Reopens(t, r)
  {
    CountPositive(t);
    hide Accepts, Seq;
    if Narrow(t) {
      forall i, r {:trigger MayCome(t, i, r), Reopens(t, r)} | 0 <= i < Count(t) && Last(t) <= r && MayCome(t, i, r)
        ensures !Reopens(t, r)
      {
        NarrowIgnores(t, i, r);
      }
    } else {
      var r := WideReopens(t);
      assert MayCome(t, Count(t) - 1, r) && Reopens(t, r);
    }
  }

  lemma NarrowIgnores(t: Transfer, i: nat, r: nat)
    requires Proper(t) && Narrow(t) && i < Count(t) && Last(t) <= r && MayCome(t, i, r)
    ensures !Reopens(t, r)
  {
    CountPositive(t);
    SplitWindow(t.start + i);
    SplitWindow(Last(t));
    if t.start < r {
      LateExact(t.start, r);
    }
  }

  /** The input: the receiver is ten windows past the start, and the last fragment, of which no
      acknowledgement has come, is sent again. */
  lemma WideReopens(t: Transfer) returns (r: nat)
    requires Proper(t) && !Narrow(t) && !TooWide(t)
    ensures Last(t) <= r && MayCome(t, Count(t) - 1, r) && Reopens(t, r)
  {
    CountPositive(t);
    var w := Window(t.start) + 10;
    r := w * WINDOW_SIZE;
    SplitWindow(t.start);
    SplitWindow(Last(t));
    SplitWindow(t.start - 1);
    assert Window(r) == w;
    LateExact(t.start, r);
  }

  /** With the receiver right behind the packet, its fragments are ignored just when the last
      one's window is at most nine beyond the first one's. */
  lemma RightBehind(t: Transfer)
    requires Proper(t) && Count(t) >= 2
    ensures Last(t) >= t.start
    ensures (Window(Last(t)) <= Window(t.start) + 15 ==>
      (Reopens(t, Last(t)) <==> Window(Last(t)) >= Window(t.start) + 10))
  {
    if Window(Last(t)) <= Window(t.start) + 15 {
      LateExact(t.start, Last(t));
    }
  }

  /** What a wide packet's late fragment does: it begins a second assembly, of which all other
      fragments are missing, in the place of a command 65536 numbers on. */
  lemma SecondAssembly(t: Transfer, r: nat, i: nat)
    requires Proper(t) && Count(t) >= 2 && i < Count(t) && t.start < r && Reopens(t, r)
    requires Window(r) <= Window(t.start) + 15
    ensures var c := Handled(Receipt(Seq(r), None, [t.packet]), Piece(t, i), t.maximumPacketSize, t.space).0;
      && c.assembly.Some? && c.assembly.value.fragmentsRemaining == Count(t) - 1 > 0
      && c.released == [t.packet] && c.incoming == Seq(r)
    ensures Reception.NumberOf(Seq(t.start), r) == t.start + TWO_16
  {
    FragmentsWellFormed(t.packet, t.length, Seq(t.start), i, t.maximumPacketSize);
    Inside(i, t.length, |t.packet|);
    OffsetGrows(i, i, t.length);
    SplitWindow(r);
    SplitWindow(t.start);
    Wrapped(t.start, r);
    hide FragmentCount, Accepts, Offset, Seq;
  }

  lemma Wrapped(n: nat, r: nat)
    requires n < r < n + TWO_16
    ensures Reception.NumberOf(Seq(n), r) == n + TWO_16
  {
    assert Seq(n + TWO_16) == Seq(n);
    Reception.NumberOfSeq(n + TWO_16, r);
  }

  // ----- sender, network and receiver -----

  /** The sender's windows and history of the channel, the receiver's cursor as a whole number,
      its assembly, which fragments it took, and the acknowledgements on their way. */
  datatype System = System(channel: Channel, flow: Flow, r: nat, box: Receipt, got: set<nat>, acks: set<nat>)

  datatype Step =
    | Queue(content: Content)
    | SendFirst
    | FragmentArrives(i: nat)
    | OtherArrives(n: nat)
    | CursorMoves(r: nat)
    | AckArrives(n: nat)

  /** The next command of the channel that was never sent. */
  function Unsent(f: Flow): Command { Command(0, Seq(f.first + 1), f.first + 1, Nothing, 0, 0, 0, 0, 0) }

  /** A message may arrive until the sender has first sent one more than 8 windows beyond it. */
  predicate Alive(f: Flow, n: nat) { n <= f.first && Window(f.first) <= Window(n) + 8 }

  ghost predicate Enabled(t: Transfer, s: System, step: Step)
    requires Proper(t)
  {
    match step
    case Queue(_) => true
    case SendFirst =>
      |s.channel.reliableWindows| == WINDOWS && s.flow.first < |s.flow.log| && !Blocked(s.channel, Unsent(s.flow))
    case FragmentArrives(i) => i < Count(t) && Alive(s.flow, t.start + i)
    case OtherArrives(n) => 1 <= n && Alive(s.flow, n) && !(t.start <= n <= Last(t))
    case CursorMoves(r) => s.r < r <= s.flow.first && (s.box.released == [] ==> r < t.start)
    case AckArrives(n) => n in s.acks && Alive(s.flow, n) && |s.channel.reliableWindows| == WINDOWS
  }

  /** The cursor as a whole number, when `c1` comes of `c`. */
  function Cursor(t: Transfer, r: nat, c: Receipt, c1: Receipt): nat
    requires t.length > 0
  {
    if |c1.released| > |c.released| then r + Count(t) else r
  }

  ghost function Acked(s: System, n: nat): System {
    if RefusesAck(Seq(n), s.box.incoming) then s else s.(acks := s.acks + {n})
  }

  ghost function Next(t: Transfer, s: System, step: Step): System
    requires Proper(t) && Enabled(t, s, step)
  {
    match step
    case Queue(content) =>
      var sequence := (s.channel.outgoingReliableSequenceNumber + 1) % TWO_16;
      s.(flow := s.flow.(log := s.flow.log + [content]),
         channel := s.channel.(outgoingReliableSequenceNumber := sequence))
    case SendFirst =>
      s.(channel := Marked(s.channel, Unsent(s.flow).sequence / WINDOW_SIZE),
         flow := s.flow.(first := s.flow.first + 1))
    case FragmentArrives(i) =>
      var c := Handled(s.box, Piece(t, i), t.maximumPacketSize, t.space).0;
      var taken := s.box.released == [] && Accepts(Seq(t.start), s.box.incoming);
      Acked(s.(box := c, r := Cursor(t, s.r, s.box, c), got := if taken then s.got + {i} else s.got), t.start + i)
    case OtherArrives(n) => Acked(s, n)
    case CursorMoves(r) =>
      var c := Turn(s.box.(incoming := Seq(r)), Seq(t.start));
      s.(box := c, r := Cursor(t, r, s.box, c))
    case AckArrives(n) =>
      if Open(s.flow, n) then
        s.(channel := Released(s.channel, Seq(n) / WINDOW_SIZE), flow := s.flow.(acked := s.flow.acked + {n}))
      else s
  }

  // ----- what always holds -----

  ghost predicate AllGot(t: Transfer, got: set<nat>)
    requires t.length > 0
  {
    forall i {:trigger i in got} :: 0 <= i < Count(t) ==> i in got
  }

  /** What late fragments began: never of a narrow packet, and never completed, for by then the
      first fragment is too old to come. */
  ghost predicate LeftoverOk(t: Transfer, r: nat, assembly: Option<Assembly>)
    requires Proper(t)
  {
    assembly.Some? ==>
      var a := assembly.value;
      && !Narrow(t) && AssemblyOk(a, t.packet, t.length) && a.bits != [] && !a.bits[0]
      && Window(r) >= Window(t.start) + 10
  }

  /** Until it is released the packet is being assembled from what was taken; when all of it
      is there and its turn has come, it has been released. */
  ghost predicate BoxOk(t: Transfer, r: nat, box: Receipt, got: set<nat>)
    requires Proper(t)
  {
    && box.incoming == Seq(r)
    && if box.released == [] then
         && r < t.start
         && (match box.assembly
             case None => got == {}
             case Some(a) =>
               AssemblyOk(a, t.packet, t.length) && forall i {:trigger a.bits[i]} :: 0 <= i < Count(t) ==>
                 (a.bits[i] <==> i in got))
         && !(AllGot(t, got) && r + 1 == t.start)
       else box.released == [t.packet] && Last(t) <= r && AllGot(t, got) && LeftoverOk(t, r, box.assembly)
  }

  ghost predicate Inv(t: Transfer, s: System)
    requires Proper(t)
  {
    && FlowOk(s.flow) && CountersOk(s.channel, s.flow)
    && s.r <= s.flow.first
    && (forall n {:trigger n in s.acks} :: n in s.acks ==> 1 <= n <= s.flow.first && Window(n) <= Window(s.r) + 6)
    && (forall n {:trigger n in s.flow.acked} :: n in s.flow.acked ==> Window(n) <= Window(s.r) + 6)
    && (forall i {:trigger i in s.got} :: i in s.got ==> i < Count(t) && t.start + i <= s.flow.first)
    && BoxOk(t, s.r, s.box, s.got)
    && (TooWide(t) ==> s.box.released == [])
  }

  /** Sender gating, whatever moves the receiver's cursor: only commands up to six windows past
      it have been acknowledged, so none was sent more than seven past it. */
  lemma Gated(f: Flow, r: nat)
    requires FlowOk(f) && forall n {:trigger n in f.acked} :: n in f.acked ==> Window(n) <= Window(r) + 6
    ensures Window(f.first) <= Window(r) + 7
  {
    if Window(f.first) > 1 {
      var n :| n in f.acked && Window(n) + 1 >= Window(f.first);
    }
  }

  /** The fragment's arrival, in whole numbers. */
  lemma ArrivalFacts(t: Transfer, s: System, n: nat)
    requires Proper(t) && Inv(t, s) && Alive(s.flow, n)
    ensures Window(n) <= Window(s.r) + 7 && Window(s.r) <= Window(n) + 8
    ensures RefusesAck(Seq(n), Seq(s.r)) <==> Window(n) == Window(s.r) + 7 || Window(s.r) == Window(n) + 8
  {
    Gated(s.flow, s.r);
    InsideWindow(n, s.flow.first);
    InsideWindow(s.r, s.flow.first);
    TestsExact(n, s.r);
  }

  /** All fragments are there just when none remains. */
  lemma WholeIs(t: Transfer, a: Assembly, got: set<nat>)
    requires Proper(t) && AssemblyOk(a, t.packet, t.length)
    requires forall i {:trigger a.bits[i]} :: 0 <= i < Count(t) ==> (a.bits[i] <==> i in got)
    ensures a.fragmentsRemaining <= 0 <==> AllGot(t, got)
    ensures a.fragmentsRemaining <= 0 ==> a.data == t.packet
  {
    ClearNone(a.bits);
    if a.fragmentsRemaining <= 0 {
      CompleteIs(a, t.packet, t.length);
    }
    hide FragmentCount, Owner, Clear;
    if AllGot(t, got) {
      forall i {:trigger a.bits[i]} | 0 <= i < |a.bits| ensures a.bits[i] {
        assert i in got;
      }
    }
    if a.fragmentsRemaining <= 0 {
      forall i {:trigger i in got} | 0 <= i < Count(t) ensures i in got {
        assert a.bits[i];
      }
    }
  }

  /** The next number, in 16 bits. */
  lemma NextIs(start: nat, r: nat)
    requires r < start && Window(start) <= Window(r) + 7
    ensures Seq(start) == (Seq(r) + 1) % TWO_16 <==> start == r + 1
  {
    SplitWindow(start);
    SplitWindow(r);
    assert Seq(r + 1) == (Seq(r) + 1) % TWO_16;
    InsideWindow(r + 1, start);
    InsideWindow(r, r + 1);
    if Seq(start) == Seq(r + 1) {
      SeqUnique(start, r + 1);
    }
  }

  /** The cursor behind the packet, in 16 bits. */
  lemma BehindIs(start: nat, count: nat)
    requires start >= 1 && count >= 1
    ensures (Seq(start) + count + TWO_16 - 1) % TWO_16 == Seq(start + count - 1)
  {
  }

  /** Whether or not its turn has come, an assembly is in order. */
  lemma TurnKeeps(t: Transfer, r: nat, box: Receipt, got: set<nat>)
    requires Proper(t) && box.incoming == Seq(r) && r < t.start && box.released == [] && box.assembly.Some?
    requires AllGot(t, got) ==> Window(t.start) <= Window(r) + 7
    requires var a := box.assembly.value;
      AssemblyOk(a, t.packet, t.length) && forall i {:trigger a.bits[i]} :: 0 <= i < Count(t) ==>
        (a.bits[i] <==> i in got)
    ensures var c := Turn(box, Seq(t.start));
      && BoxOk(t, Cursor(t, r, box, c), c, got)
      && (c.released != [] ==> AllGot(t, got) && r + 1 == t.start)
  {
    hide FragmentCount, Seq, Owner, Clear, AllGot, AssemblyOk, LeftoverOk, Window;
    var a := box.assembly.value;
    WholeIs(t, a, got);
    CountPositive(t);
    NoneLeft(t, r + Count(t));
    SizesOk(t, a);
    if AllGot(t, got) {
      NextIs(t.start, r);
      BehindIs(t.start, Count(t));
    }
  }

  lemma NoneLeft(t: Transfer, r: nat)
    requires Proper(t)
    ensures LeftoverOk(t, r, None)
  {
  }

  lemma SizesOk(t: Transfer, a: Assembly)
    requires Proper(t) && AssemblyOk(a, t.packet, t.length)
    ensures |a.bits| == Count(t) && |a.data| == |t.packet|
  {
  }

  /** A fragment that is taken joins the assembly. */
  lemma JoinsKeeps(t: Transfer, r: nat, box: Receipt, a: Assembly, got: set<nat>, i: nat)
    requires Proper(t) && i < Count(t) && box.incoming == Seq(r) && r < t.start && box.released == []
    requires Window(t.start) <= Window(r) + 7 && !(AllGot(t, got) && r + 1 == t.start)
    requires AssemblyOk(a, t.packet, t.length) && forall j {:trigger a.bits[j]} :: 0 <= j < Count(t) ==>
      (a.bits[j] <==> j in got)
    ensures var f := Piece(t, i);
      && f.fragmentNumber < |a.bits| && f.fragmentOffset + |f.data| <= |a.data| && !Foreign(a, f)
      && var c := Joins(box, a, f);
      && BoxOk(t, Cursor(t, r, box, c), c, got + {i})
      && (c.released != [] ==> AllGot(t, got + {i}) && r + 1 == t.start)
  {
    hide FragmentCount, Owner, Clear, Seq, Window, FragmentOf, Turn;
    AddedOk(a, t.packet, t.length, Seq(t.start), i);
    PieceIs(t, i);
    var f := Piece(t, i);
    if a.bits[i] {
      assert got + {i} == got;
    } else {
      TurnKeeps(t, r, box.(assembly := Some(Added(a, f))), got + {i});
    }
  }

  lemma PieceIs(t: Transfer, i: nat)
    requires Proper(t) && i < Count(t)
    ensures var f := Piece(t, i);
      && f.fragmentNumber == i && f.startSequenceNumber == Seq(t.start) && f.totalLength == |t.packet|
      && f.fragmentCount == Count(t) && !Malformed(f, t.maximumPacketSize)
  {
    FragmentsWellFormed(t.packet, t.length, Seq(t.start), i, t.maximumPacketSize);
  }

  /** Before the packet is released. */
  lemma EarlyArrival(t: Transfer, s: System, i: nat)
    requires Proper(t) && Inv(t, s) && Enabled(t, s, FragmentArrives(i)) && s.box.released == []
    ensures var c, taken :=
      Handled(s.box, Piece(t, i), t.maximumPacketSize, t.space).0, Accepts(Seq(t.start), s.box.incoming);
      var got1 := if taken then s.got + {i} else s.got;
      && BoxOk(t, Cursor(t, s.r, s.box, c), c, got1)
      && (c.released != [] ==> AllGot(t, got1) && s.r + 1 == t.start)
  {
    hide FlowOk, CountersOk, FragmentCount, Seq, Accepts, Added, AssemblyOk, Joins, AllGot;
    ArrivalFacts(t, s, t.start + i);
    InsideWindow(t.start, t.start + i);
    InsideWindow(s.r, t.start);
    TestsExact(t.start, s.r);
    PieceIs(t, i);
    if Accepts(Seq(t.start), s.box.incoming) {
      match s.box.assembly
      case Some(a) => JoinsKeeps(t, s.r, s.box, a, s.got, i);
      case None =>
        StartsOk(t.packet, t.length, t.space);
        JoinsKeeps(t, s.r, s.box, Blank(Count(t), t.space), s.got, i);
    }
  }

  /** After it. */
  lemma LateArrival(t: Transfer, s: System, i: nat)
    requires Proper(t) && Inv(t, s) && Enabled(t, s, FragmentArrives(i)) && s.box.released != []
    ensures i < Count(t) && BoxOk(t, s.r, HandledPiece(t, s, i), s.got)
    ensures HandledPiece(t, s, i).released == s.box.released
  {
    hide FlowOk, CountersOk, FragmentCount, Seq, Accepts, Added, AssemblyOk, Joins, AllGot, LeftoverOk;
    PieceIs(t, i);
    if Accepts(Seq(t.start), s.box.incoming) && (s.box.assembly.Some? || Seq(t.start) != s.box.incoming) {
      LateWindows(t, s, i);
      if s.box.assembly.None? {
        BlankIsLeftover(t, s.r);
      }
      var a := if s.box.assembly.Some? then s.box.assembly.value else Blank(Count(t), t.space);
      LeftoverKeeps(t, s.r, s.box, a, i);
    }
  }

  /** A late fragment is taken only of a packet that begins ten windows back, and is not its first. */
  lemma LateWindows(t: Transfer, s: System, i: nat)
    requires Proper(t) && Inv(t, s) && Enabled(t, s, FragmentArrives(i)) && s.box.released != []
    requires s.box.assembly.Some? || Reopens(t, s.r)
    ensures !Narrow(t) && Window(s.r) >= Window(t.start) + 10 && i > 0
  {
    hide FlowOk, CountersOk, FragmentCount, Seq, Accepts, AllGot, AssemblyOk;
    CountPositive(t);
    InsideWindow(t.start - 1, t.start);
    InsideWindow(t.start + i, Last(t));
    InsideWindow(s.r, s.flow.first);
    if s.box.assembly.None? {
      assert t.start < s.r;
      LateExact(t.start, s.r);
      if Narrow(t) {
        NarrowIgnores(t, i, s.r);
      }
    }
  }

  lemma BlankIsLeftover(t: Transfer, r: nat)
    requires Proper(t) && !Narrow(t) && Window(r) >= Window(t.start) + 10
    ensures LeftoverOk(t, r, Some(Blank(Count(t), t.space)))
  {
    StartsOk(t.packet, t.length, t.space);
    CountPositive(t);
    hide FragmentCount, Window, AssemblyOk;
  }

  lemma LeftoverKeeps(t: Transfer, r: nat, box: Receipt, a: Assembly, i: nat)
    requires Proper(t) && 0 < i < Count(t) && LeftoverOk(t, r, Some(a))
    ensures var f := Piece(t, i);
      && f.fragmentNumber < |a.bits| && f.fragmentOffset + |f.data| <= |a.data| && !Foreign(a, f)
      && var c := Joins(box, a, f);
      && c.released == box.released && c.incoming == box.incoming && LeftoverOk(t, r, c.assembly)
  {
    hide FragmentCount, Owner, Clear, Seq, Window, FragmentOf, Foreign;
    AddedOk(a, t.packet, t.length, Seq(t.start), i);
    PieceIs(t, i);
    var a1 := Added(a, Piece(t, i));
    assert LeftoverOk(t, r, Some(a1));
    LeftoverWaits(t, r, r, box.(assembly := Some(a1)));
  }

  /** What is left over waits, wherever the cursor goes. */
  lemma LeftoverWaits(t: Transfer, r: nat, r1: nat, box: Receipt)
    requires Proper(t) && LeftoverOk(t, r, box.assembly) && Window(r) <= Window(r1)
    ensures Turn(box, Seq(t.start)) == box && LeftoverOk(t, r1, box.assembly)
    ensures box.assembly.Some? ==> box.assembly.value.fragmentsRemaining > 0
  {
    if box.assembly.Some? {
      ClearNone(box.assembly.value.bits);
    }
    hide FragmentCount, Owner, Clear, Seq, Window;
  }

  ghost function GotBy(t: Transfer, s: System, i: nat): set<nat> {
    if s.box.released == [] && Accepts(Seq(t.start), s.box.incoming) then s.got + {i} else s.got
  }

  /** The assembly and the cursor after any arrival of a fragment. */
  lemma ArrivalBox(t: Transfer, s: System, i: nat)
    requires Proper(t) && Inv(t, s) && Enabled(t, s, FragmentArrives(i))
    ensures i < Count(t) && 1 <= t.start + i <= s.flow.first
    ensures var c := HandledPiece(t, s, i);
      && BoxOk(t, Cursor(t, s.r, s.box, c), c, GotBy(t, s, i))
      && c.incoming == Seq(Cursor(t, s.r, s.box, c)) && s.box.incoming == Seq(s.r)
      && (c.released != s.box.released ==> s.box.released == [] && AllGot(t, GotBy(t, s, i)) && s.r + 1 == t.start)
  {
    BoxHere(t, s);
    hide Inv, Handled, Enabled, Proper;
    if s.box.released == [] {
      EarlyArrival(t, s, i);
    } else {
      LateArrival(t, s, i);
    }
  }

  lemma BoxHere(t: Transfer, s: System)
    requires Proper(t) && Inv(t, s)
    ensures BoxOk(t, s.r, s.box, s.got) && (TooWide(t) ==> s.box.released == [])
  {
  }

  lemma FragmentKeeps(t: Transfer, s: System, i: nat)
    requires Proper(t) && Inv(t, s) && Enabled(t, s, FragmentArrives(i))
    ensures Inv(t, Next(t, s, FragmentArrives(i)))
  {
    assert t.length > 0 && i < Count(t);
    hide *;
    var c := HandledPiece(t, s, i);
    var r1 := Cursor(t, s.r, s.box, c);
    ArrivalBox(t, s, i);
    CursorAfter(t, s, i);
    GotAfter(t, s, i);
    ArrivedIs(t, s, i);
    ArrivedInv(t, s, t.start + i, s.(box := c, r := r1, got := GotBy(t, s, i)));
  }

  ghost function HandledPiece(t: Transfer, s: System, i: nat): Receipt
    requires Proper(t) && i < Count(t)
  {
    PieceIs(t, i);
    Handled(s.box, Piece(t, i), t.maximumPacketSize, t.space).0
  }

  lemma ArrivedIs(t: Transfer, s: System, i: nat)
    requires Proper(t) && Enabled(t, s, FragmentArrives(i))
    ensures i < Count(t)
    ensures Next(t, s, FragmentArrives(i))
         == Acked(s.(box := HandledPiece(t, s, i), r := Cursor(t, s.r, s.box, HandledPiece(t, s, i)),
                     got := GotBy(t, s, i)), t.start + i)
  {
  }

  lemma GotAfter(t: Transfer, s: System, i: nat)
    requires Proper(t) && Inv(t, s) && Enabled(t, s, FragmentArrives(i))
    ensures forall j {:trigger j in GotBy(t, s, i)} :: j in GotBy(t, s, i) ==>
      j < Count(t) && t.start + j <= s.flow.first
  {
  }

  /** The cursor stays, or goes to the packet's end, which was sent. */
  lemma CursorAfter(t: Transfer, s: System, i: nat)
    requires Proper(t) && Inv(t, s) && Enabled(t, s, FragmentArrives(i))
    ensures var c := HandledPiece(t, s, i);
      var r1 := Cursor(t, s.r, s.box, c);
      && s.r <= r1 <= s.flow.first && (r1 == s.r || Window(t.start + i) <= Window(r1)) && Window(s.r) <= Window(r1)
      && (TooWide(t) ==> c.released == [])
      && (r1 == s.r ==> !RefusesAck(Seq(t.start + i), Seq(r1)) ==> Window(t.start + i) <= Window(r1) + 6)
  {
    ArrivalFacts(t, s, t.start + i);
    ArrivalBox(t, s, i);
    var c := HandledPiece(t, s, i);
    if c.released != s.box.released {
      ReleasedFacts(t, s, i);
    }
    hide HandledPiece, BoxOk, FlowOk, CountersOk, Seq, RefusesAck, FragmentCount, AllGot;
  }

  /** The invariant after an arrival, from what is known of its parts. */
  lemma ArrivedInv(t: Transfer, s: System, n: nat, s1: System)
    requires Proper(t) && Inv(t, s) && s1 == s.(box := s1.box, r := s1.r, got := s1.got) && 1 <= n <= s.flow.first
    requires s.r <= s1.r <= s.flow.first && Window(s.r) <= Window(s1.r)
    requires BoxOk(t, s1.r, s1.box, s1.got) && s1.box.incoming == Seq(s1.r) && (TooWide(t) ==> s1.box.released == [])
    requires forall j {:trigger j in s1.got} :: j in s1.got ==> j < Count(t) && t.start + j <= s.flow.first
    requires !RefusesAck(Seq(n), Seq(s1.r)) ==> Window(n) <= Window(s1.r) + 6
    ensures Inv(t, Acked(s1, n))
  {
    hide BoxOk, FlowOk, CountersOk, Seq, RefusesAck, FragmentCount, TooWide;
  }

  lemma BoxFacts(t: Transfer, r: nat, box: Receipt, got: set<nat>)
    requires Proper(t) && BoxOk(t, r, box, got)
    ensures box.incoming == Seq(r)
  {
  }

  /** When the packet is released every fragment of it was sent, so the gate bounds its width. */
  lemma ReleasedFacts(t: Transfer, s: System, i: nat)
    requires Proper(t) && FlowOk(s.flow) && s.r + 1 == t.start && i < Count(t) && t.start + i <= s.flow.first
    requires forall n {:trigger n in s.flow.acked} :: n in s.flow.acked ==> Window(n) <= Window(s.r) + 6
    requires AllGot(t, s.got + {i}) || AllGot(t, s.got)
    requires forall j {:trigger j in s.got} :: j in s.got ==> j < Count(t) && t.start + j <= s.flow.first
    ensures t.start <= Last(t) <= s.flow.first && !TooWide(t) && Last(t) == s.r + Count(t)
  {
    CountPositive(t);
    var k := Count(t) - 1;
    assert k in s.got + {i};
    Gated(s.flow, s.r);
    InsideWindow(Last(t), s.flow.first);
  }

  lemma MovesKeeps(t: Transfer, s: System, r: nat)
    requires Proper(t) && Inv(t, s) && Enabled(t, s, CursorMoves(r))
    ensures Inv(t, Next(t, s, CursorMoves(r)))
  {
    var box1 := s.box.(incoming := Seq(r));
    InsideWindow(s.r, r);
    CountPositive(t);
    var s0 := s.(r := r);
    if s.box.released == [] && s.box.assembly.Some? {
      if AllGot(t, s.got) {
        assert 0 in s.got;
        Gated(s.flow, r);
        InsideWindow(t.start, s.flow.first);
      }
      hide FlowOk, CountersOk, FragmentCount, Seq, Turn;
      TurnKeeps(t, r, box1, s.got);
      var c := Turn(box1, Seq(t.start));
      if c.released != [] {
        ReleasedFacts(t, s0, 0);
        InsideWindow(r, Last(t));
      }
    } else {
      hide FlowOk, CountersOk, FragmentCount, Seq, Turn, LeftoverOk;
      if s.box.released == [] {
        assert 0 !in s.got;
        assert Turn(box1, Seq(t.start)) == box1;
      } else {
        LeftoverWaits(t, s.r, r, box1);
      }
    }
  }

  lemma OtherKeeps(t: Transfer, s: System, n: nat)
    requires Proper(t) && Inv(t, s) && Enabled(t, s, OtherArrives(n))
    ensures Inv(t, Next(t, s, OtherArrives(n)))
  {
    ArrivalFacts(t, s, n);
    hide FlowOk, CountersOk, FragmentCount, Seq, RefusesAck, BoxOk;
    BoxFacts(t, s.r, s.box, s.got);
  }

  lemma SenderKeeps(t: Transfer, s: System, step: Step)
    requires Proper(t) && Inv(t, s) && Enabled(t, s, step) && (step.Queue? || step.SendFirst? || step.AckArrives?)
    ensures Inv(t, Next(t, s, step))
  {
    match step
    case Queue(content) => OneQueued(s.channel, s.flow, content);
    case SendFirst => FirstSent(s.channel, s.flow, Unsent(s.flow));
    case AckArrives(n) =>
      if Open(s.flow, n) {
        OneAcked(s.channel, s.flow, n, Seq(n));
      }
    hide FlowOk, CountersOk, FragmentCount, Seq, BoxOk, Marked, Released, TooWide;
  }

  // ----- runs -----

  lemma StepKeeps(t: Transfer, s: System, step: Step)
    requires Proper(t) && Inv(t, s) && Enabled(t, s, step)
    ensures Inv(t, Next(t, s, step))
  {
    hide *;
    match step
    case FragmentArrives(i) => FragmentKeeps(t, s, i);
    case OtherArrives(n) => OtherKeeps(t, s, n);
    case CursorMoves(r) => MovesKeeps(t, s, r);
    case Queue(_) => SenderKeeps(t, s, step);
    case SendFirst => SenderKeeps(t, s, step);
    case AckArrives(_) => SenderKeeps(t, s, step);
  }

  ghost predicate IsRun(t: Transfer, run: seq<System>, steps: seq<Step>) {
    && Proper(t) && |run| == |steps| + 1
    && run[0] == System(Channel(0, {}, seq(WINDOWS, i => 0)), Flow([], 0, {}), 0, Receipt(0, None, []), {}, {})
    && forall k {:trigger steps[k]} :: 0 <= k < |steps| ==>
         Enabled(t, run[k], steps[k]) && run[k + 1] == Next(t, run[k], steps[k])
  }

  lemma {:induction false} RunOk(t: Transfer, run: seq<System>, steps: seq<Step>, k: nat)
    requires IsRun(t, run, steps) && k < |run|
    ensures Inv(t, run[k])
    decreases k
  {
    if k == 0 {
      CountPositive(t);
      hide FragmentCount;
      assert 0 !in run[0].got;
      forall w {:trigger run[0].channel.reliableWindows[w]} | 0 <= w < WINDOWS ensures OpenIn(run[0].flow, w) == {} {
      }
    } else {
      RunOk(t, run, steps, k - 1);
      hide Inv, Next, Enabled, Proper;
      assert run[k - 1 + 1] == Next(t, run[k - 1], steps[k - 1]);
      StepKeeps(t, run[k - 1], steps[k - 1]);
    }
  }

  /** In every run, a packet is released as it was sent, at most once, and as soon as all its
      fragments were taken and everything before it was released.  What is being assembled counts
      its missing fragments; and after the release it is never completed, and nothing is when the
      packet is narrow. */
  lemma RebuiltOnce(t: Transfer, run: seq<System>, steps: seq<Step>, k: nat)
    requires IsRun(t, run, steps) && k < |run|
    ensures var s := run[k];
      && s.box.released == (if AllGot(t, s.got) && t.start <= s.r + 1 then [t.packet] else [])
      && (s.box.assembly.Some? ==>
            var a := s.box.assembly.value;
            && a.fragmentsRemaining == Clear(a.bits)
            && (s.box.released != [] ==> a.fragmentsRemaining > 0 && !Narrow(t)))
  {
    RunOk(t, run, steps, k);
    CountPositive(t);
    hide IsRun, FlowOk, CountersOk, FragmentCount, Clear, Owner, LeftoverOk;
    if run[k].box.released != [] && run[k].box.assembly.Some? {
      LeftoverWaits(t, run[k].r, run[k].r, run[k].box);
      LeftoverCounts(t, run[k].r, run[k].box);
    }
  }

  lemma LeftoverCounts(t: Transfer, r: nat, box: Receipt)
    requires Proper(t) && LeftoverOk(t, r, box.assembly) && box.assembly.Some?
    ensures box.assembly.value.fragmentsRemaining == Clear(box.assembly.value.bits) && !Narrow(t)
  {
  }

  /** In no run is a packet that is too wide ever released: the sender's gate and the refused
      acknowledgements wait for each other. */
  lemma NeverReleased(t: Transfer, run: seq<System>, steps: seq<Step>, k: nat)
    requires IsRun(t, run, steps) && k < |run| && TooWide(t)
    ensures run[k].box.released == [] && run[k].flow.first < Last(t)
  {
    RunOk(t, run, steps, k);
    hide IsRun, CountersOk, FragmentCount;
    var s := run[k];
    Gated(s.flow, s.r);
    InsideWindow(s.r, t.start - 1);
    CountPositive(t);
    NotReached(Last(t), s.flow.first);
  }

  lemma NotReached(n: nat, first: nat)
    requires Window(first) < Window(n)
    ensures first < n
  {
  }
}
