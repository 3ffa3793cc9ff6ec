/** Unreliable packets from end to end: whatever the network loses, repeats and reorders, the
    application gets sequenced packets in the order they were sent in, each at most once. */
module UnreliableDelivery {
  import Reception
  import opened Receiving
  import opened Unreliable
  import opened Windows
  import opened Words

  // ----- the sender -----

  const MAXIMUM_FRAGMENTS := 1024 * 1024

  datatype Packet = Packet(data: seq<uint8>, reliable: bool, unsequenced: bool, unreliableFragment: bool)

  /** The numbers a channel has given out: of reliable commands, without bound, and of the
      unreliable ones since the last reliable. */
  datatype Outlet = Outlet(reliable: nat, unreliable: nat)

  /** How a packet is sent; reliable ones take a number for each fragment. */
  datatype Sent = Fails | AsUnsequenced | AsReliable(count: nat) | AsUnreliable(command: Item)

  datatype How = Failed | Unsequenced | Reliably | Unreliably

  function FragmentCount(size: nat, fragmentLength: nat): nat
    requires fragmentLength > 0
  {
    (size + fragmentLength - 1) / fragmentLength
  }

  /** The number of fragments of an unreliable packet, or 0 when it is not split. */
  function Missing(size: nat, fragmentLength: nat): nat
    requires fragmentLength > 0
  {
    if size > fragmentLength then FragmentCount(size, fragmentLength) else 0
  }

  predicate GoesUnreliably(o: Outlet, p: Packet, fragmentLength: nat) {
    if |p.data| > fragmentLength then !p.reliable && p.unreliableFragment && o.unreliable < 0xFFFF
    else !p.reliable && o.unreliable < 0xFFFF
  }

  function Sends(o: Outlet, p: Packet, fragmentLength: nat): (Outlet, Sent)
    requires fragmentLength > 0 && o.unreliable <= 0xFFFF
  {
    var split := |p.data| > fragmentLength;
    if split && FragmentCount(|p.data|, fragmentLength) > MAXIMUM_FRAGMENTS then (o, Fails)
    else if !split && !p.reliable && p.unsequenced then (o, AsUnsequenced)
    else if GoesUnreliably(o, p, fragmentLength) then
      (o.(unreliable := o.unreliable + 1),
       AsUnreliable(Item(true, Seq(o.reliable), o.unreliable + 1, Missing(|p.data|, fragmentLength), p.data,
                         o.reliable)))
    else (
      var count := if split then FragmentCount(|p.data|, fragmentLength) else 1;
      (Outlet(o.reliable + count, 0), AsReliable(count)))
  }

  /** The counters of a channel, as the peer keeps them. */
  class Outgoing {
    var outgoingReliableSequenceNumber: uint16
    var outgoingUnreliableSequenceNumber: uint16
    ghost var reliable: nat

    ghost predicate Valid()
      reads this
    {
      outgoingReliableSequenceNumber == Seq(reliable)
    }

    ghost function Value(): Outlet
      reads this
    {
      Outlet(reliable, outgoingUnreliableSequenceNumber)
    }

    constructor ()
      ensures Valid() && Value() == Outlet(0, 0)
    {
      outgoingReliableSequenceNumber, outgoingUnreliableSequenceNumber, reliable := 0, 0, 0;
    }

    /** Gives a reliable command its number. */
    method SetupReliable()
      requires Valid()
      modifies this
      ensures Valid() && Value() == Outlet(old(reliable) + 1, 0)
    {
      outgoingReliableSequenceNumber := (outgoingReliableSequenceNumber + 1) % 0x1_0000;
      outgoingUnreliableSequenceNumber := 0;
      reliable := reliable + 1;
    }

    /** Sends a packet; the command of an unreliable one is returned. */
    method Send(p: Packet, fragmentLength: nat) returns (how: How, number: uint16, unreliable: uint16, count: nat)
      requires Valid() && fragmentLength > 0
      modifies this
      ensures Valid()
      ensures var (o, sent) := Sends(old(Value()), p, fragmentLength);
        && Value() == o
        && match sent
           case Fails => how == Failed
           case AsUnsequenced => how == Unsequenced
           case AsReliable(n) => how == Reliably && count == n
           case AsUnreliable(c) =>
             how == Unreliably && number == c.reliable && unreliable == c.unreliable && count == c.remaining
    {
      hide FragmentCount, Seq;
      how, number, unreliable, count := Failed, outgoingReliableSequenceNumber, 0, 0;
      if |p.data| > fragmentLength {
        count := FragmentCount(|p.data|, fragmentLength);
        if count > MAXIMUM_FRAGMENTS {
          return;
        }
        if !p.reliable && p.unreliableFragment && outgoingUnreliableSequenceNumber < 0xFFFF {
          outgoingUnreliableSequenceNumber := outgoingUnreliableSequenceNumber + 1;
          unreliable, how := outgoingUnreliableSequenceNumber, Unreliably;
          return;
        }
        var k := 0;
        while k < count
          invariant k <= count && Valid() && reliable == old(reliable) + k
          invariant outgoingUnreliableSequenceNumber == if k == 0 then old(outgoingUnreliableSequenceNumber) else 0
        {
          SetupReliable();
          k := k + 1;
        }
        FragmentsAtLeastTwo(|p.data|, fragmentLength);
        how := Reliably;
        return;
      }
      if !p.reliable && p.unsequenced {
        how := Unsequenced;
        return;
      }
      if p.reliable || outgoingUnreliableSequenceNumber >= 0xFFFF {
        SetupReliable();
        count, how := 1, Reliably;
        return;
      }
      outgoingUnreliableSequenceNumber := outgoingUnreliableSequenceNumber + 1;
      unreliable, how := outgoingUnreliableSequenceNumber, Unreliably;
    }
  }

  /** A packet is refused just when it needs more than 1048576 fragments.  One that asks to be reliable
      is; of the others, those whose fragments may not be lost one by one are too, and so are all once
      the channel has given out its 65535 unreliable numbers, but for unsequenced ones in one piece. */
  lemma SentAs(o: Outlet, p: Packet, fragmentLength: nat)
    requires fragmentLength > 0 && o.unreliable <= 0xFFFF
    ensures var sent, whole := Sends(o, p, fragmentLength).1, |p.data| <= fragmentLength;
      && (sent.Fails? <==> |p.data| > 1_048_576 * fragmentLength)
      && (!sent.Fails? && p.reliable ==> sent.AsReliable?)
      && (!sent.Fails? && !whole && !p.unreliableFragment ==> sent.AsReliable?)
      && (sent.AsUnsequenced? <==> whole && !p.reliable && p.unsequenced)
      && (sent.AsReliable? && !p.reliable && (whole || p.unreliableFragment) ==> o.unreliable == 0xFFFF)
      && (sent.AsReliable? ==> (sent.count - 1) * fragmentLength < |p.data| + (if whole then 1 else 0)
                               && (!whole ==> |p.data| <= sent.count * fragmentLength))
  {
    var n, k := |p.data| + fragmentLength - 1, FragmentCount(|p.data|, fragmentLength);
    assert n == k * fragmentLength + n % fragmentLength;
    hide FragmentCount, Missing;
    assert (k - 1) * fragmentLength == k * fragmentLength - fragmentLength;
    if k <= 1_048_576 {
      Multiplies(k, 1_048_576, fragmentLength);
    } else {
      Multiplies(1_048_576, k - 1, fragmentLength);
    }
  }

  lemma Multiplies(a: nat, b: nat, n: nat)
    requires a <= b
    ensures a * n <= b * n
  {
  }

  lemma FragmentsAtLeastTwo(size: nat, fragmentLength: nat)
    requires 0 < fragmentLength < size
    ensures FragmentCount(size, fragmentLength) >= 2
  {
    var q := FragmentCount(size, fragmentLength);
    assert size + fragmentLength - 1 < (q + 1) * fragmentLength;
    assert q <= 1 ==> (q + 1) * fragmentLength <= 2 * fragmentLength;
  }

  // ----- order -----

  /** The order in which packets were sent. */
  predicate Less(a: Item, b: Item) { a.index < b.index || (a.index == b.index && a.unreliable < b.unreliable) }

  /** Sequenced packets are in order. */
  ghost predicate Ascending(s: seq<Item>) {
    forall i, j {:trigger s[i], s[j]} :: 0 <= i < j < |s| && s[i].sequenced && s[j].sequenced ==> Less(s[i], s[j])
  }

  ghost predicate Below(s: seq<Item>, t: seq<Item>) {
    forall i, j {:trigger s[i], t[j]} :: 0 <= i < |s| && 0 <= j < |t| && s[i].sequenced && t[j].sequenced ==>
      Less(s[i], t[j])
  }

  /** A listed packet belongs to the receiver's own reliable command or a later one, near. */
  predicate Near(c: Item, r: nat) {
    c.sequenced && c.reliable == Seq(c.index) && r <= c.index && Window(c.index) <= Window(r) + 6
  }

  /** The receiver's cursor is less than 65536 numbers behind, and not long past. */
  predicate InReach(n: nat, r: nat) { n < r + TWO_16 && Window(r) <= Window(n) + 8 }

  /** One that may also have been passed by. */
  predicate Around(c: Item, r: nat) { c.sequenced && c.reliable == Seq(c.index) && InReach(c.index, r) }

  /** The 16-bit tests say of a number what whole numbers would. */
  predicate JudgedWell(n: nat, r: nat) {
    && (Accepts(Seq(n), Seq(r)) <==> r <= n && Window(n) <= Window(r) + 6)
    && (Seq(n) == Seq(r) <==> n == r)
  }

  lemma AroundExact(n: nat, r: nat)
    requires InReach(n, r)
    ensures JudgedWell(n, r)
  {
    SplitWindow(n);
    SplitWindow(r);
    if Window(n) <= Window(r) + 7 {
      TestsExact(n, r);
    } else {
      WindowOfSeq(n);
      WindowOfSeq(r);
      SplitWindow(Seq(n));
      SplitWindow(Seq(r));
      SameBlock(n, r);
      FarResidues(Window(n), Window(r));
    }
  }

  lemma FarResidues(a: nat, b: nat)
    requires 8 <= a - b <= 16
    ensures a % 16 == b % 16 <==> a - b == 16
    ensures if a % 16 < b % 16 then a % 16 + 16 >= b % 16 + 7 else a == b + 16 || a % 16 >= b % 16 + 7
  {
    var qa, ra, qb, rb := a / 16, a % 16, b / 16, b % 16;
    assert a - b == 16 * (qa - qb) + ra - rb;
    assert 0 <= qa - qb <= 1;
  }

  /** However far the receiver may have come when it arrives, a number is judged well if and only
      if it was less than 65536 ahead of the receiver when it was given out. */
  lemma LeadExact(n: nat, r: nat)
    ensures n < r + TWO_16 <==> forall r1 {:trigger JudgedWell(n, r1)} :: r <= r1 && Window(r1) <= Window(n) + 8 ==>
      JudgedWell(n, r1)
  {
    hide JudgedWell;
    if n < r + TWO_16 {
      forall r1 {:trigger JudgedWell(n, r1)} | r <= r1 && Window(r1) <= Window(n) + 8 ensures JudgedWell(n, r1) {
        AroundExact(n, r1);
      }
    } else {
      IllJudged(n);
    }
  }

  /** The input: the receiver is exactly 65536 behind, and takes the number for its own. */
  lemma IllJudged(n: nat)
    requires n >= TWO_16
    ensures !JudgedWell(n, n - TWO_16) && Seq(n) == Seq(n - TWO_16) && Window(n - TWO_16) <= Window(n) + 8
  {
  }

  /** What the receiver's tests say of a packet, in whole numbers. */
  lemma KindOf(c: Item, r: nat)
    requires Around(c, r)
    ensures Ready(c, Seq(r)) <==> c.index == r && c.remaining == 0
    ensures Late(c, Seq(r)) ==> c.index != r
    ensures Window(c.index) <= Window(r) + 6 ==>
      (Late(c, Seq(r)) <==> c.index < r) && (Later(c, Seq(r)) <==> c.index > r)
  {
    AroundExact(c.index, r);
  }

  // ----- a dispatch keeps the order -----

  /** A list as a dispatch finds it: an unsequenced packet only in front. */
  ghost predicate Listed(list: seq<Item>, r: nat) {
    && (forall k {:trigger list[k]} :: 0 <= k < |list| ==> 
         if list[k].sequenced then Around(list[k], r) && Window(list[k].index) <= Window(r) + 6 else k == 0)
    && Ascending(list)
  }

  ghost predicate AllNear(list: seq<Item>, r: nat) {
    forall k {:trigger list[k]} :: 0 <= k < |list| ==> Near(list[k], r)
  }

  /** Each dispatched packet was in the list, before where the rest begins. */
  lemma {:induction false} ReadyWhere(list: seq<Item>, incoming: uint16, m: nat, x: nat) returns (k: nat)
    requires m <= |list| && x < |ReadyIn(list[..m], incoming)|
    ensures k < Passed(list[..m], incoming) <= m && ReadyIn(list[..m], incoming)[x] == list[k]
    ensures Ready(list[k], incoming)
    decreases m
  {
    assert list[..m][..m - 1] == list[..m - 1];
    if x < |ReadyIn(list[..m - 1], incoming)| {
      k := ReadyWhere(list, incoming, m - 1, x);
    } else {
      k := m - 1;
    }
  }

  lemma {:induction false} ReadyAscends(list: seq<Item>, incoming: uint16, m: nat)
    requires m <= |list| && Ascending(list)
    ensures Ascending(ReadyIn(list[..m], incoming))
    decreases m
  {
    if m > 0 {
      assert list[..m][..m - 1] == list[..m - 1];
      var s := ReadyIn(list[..m - 1], incoming);
      ReadyAscends(list, incoming, m - 1);
      forall x | 0 <= x < |s| && s[x].sequenced && list[m - 1].sequenced ensures Less(s[x], list[m - 1]) {
        var k := ReadyWhere(list, incoming, m - 1, x);
      }
      hide Less;
    }
  }

  lemma {:induction false} NotPassed(list: seq<Item>, incoming: uint16, m: nat, k: nat)
    requires m <= |list| && Passed(list[..m], incoming) <= k < m
    ensures !Ready(list[k], incoming) && !Late(list[k], incoming)
    decreases m
  {
    assert list[..m][..m - 1] == list[..m - 1];
    if k < m - 1 {
      NotPassed(list, incoming, m - 1, k);
    }
  }

  /** The number remembered is that of the last sequenced packet dispatched. */
  lemma {:induction false} LastIs(list: seq<Item>, incoming: uint16, m: nat, number: uint16) returns (y: int)
    requires m <= |list|
    ensures var s, last := ReadyIn(list[..m], incoming), LastNumber(list[..m], incoming, number);
      && -1 <= y < |s|
      && (if y < 0 then last == number else s[y].sequenced && s[y].unreliable == last)
      && forall x {:trigger s[x]} :: y < x < |s| ==> !s[x].sequenced
    decreases m
  {
    y := -1;
    if m > 0 {
      assert list[..m][..m - 1] == list[..m - 1];
      y := LastIs(list, incoming, m - 1, number);
      if list[m - 1].sequenced && Ready(list[m - 1], incoming) {
        y := |ReadyIn(list[..m], incoming)| - 1;
      }
    }
  }

  // ----- the receiver -----

  /** The list is in order and near; what was dispatched is in order, comes before everything
      listed, and does not pass the numbers remembered. */
  ghost predicate BoxOk(b: Inbox, r: nat) {
    && b.reliable == Seq(r)
    && AllNear(b.commands, r) && Ascending(b.commands)
    && LogOk(b, r) && Below(b.dispatched, b.commands)
  }

  ghost predicate LogOk(b: Inbox, r: nat) {
    && Ascending(b.dispatched)
    && forall x {:trigger b.dispatched[x]} :: 0 <= x < |b.dispatched| && b.dispatched[x].sequenced ==>
         b.dispatched[x].index < r || (b.dispatched[x].index == r && b.dispatched[x].unreliable <= b.unreliable)
  }

  /** What a dispatch starts from. */
  ghost predicate Settled(b: Inbox, r: nat) {
    b.reliable == Seq(r) && Listed(b.commands, r) && LogOk(b, r) && Below(b.dispatched, b.commands)
  }

  lemma DispatchOk(b: Inbox, r: nat)
    requires Settled(b, r)
    ensures BoxOk(Dispatch(b), r)
  {
    hide Listed, AllNear, Ascending, LogOk, Below, Seq, Waiting, LastNumber, Kept, ReadyIn;
    KeptOk(b.commands, r);
    LogGrows(b, r);
    StillBelow(b, r);
  }

  /** What is kept lies beyond what was dispatched, and is not late. */
  lemma KeptOk(list: seq<Item>, r: nat)
    requires Listed(list, r)
    ensures AllNear(Kept(list, Seq(r)), r) && Ascending(Kept(list, Seq(r)))
  {
    var incoming := Seq(r);
    var e: int := Waiting(list, incoming);
    var d: int := Larger(Passed(list[..e], incoming), e - 2);
    var kept := list[d..];
    hide Passed, Ready, Late, Later, Accepts, Around, Seq, Waiting;
    WaitingAt(list, incoming, e);
    forall k {:trigger kept[k]} | 0 <= k < |kept| ensures Near(kept[k], r) {
      var c := list[d + k];
      assert kept[k] == c;
      if d + k < e {
        NotPassed(list, incoming, e, d + k);
        KeptHere(c, r);
      } else {
        KeptFar(list, r, e, d + k);
      }
    }
  }

  lemma KeptHere(c: Item, r: nat)
    requires c.sequenced ==> Around(c, r) && Window(c.index) <= Window(r) + 6
    requires !Ready(c, Seq(r)) && !Late(c, Seq(r))
    ensures Near(c, r)
  {
    hide Accepts;
    if c.sequenced {
      KindOf(c, r);
    }
  }

  lemma KeptFar(list: seq<Item>, r: nat, e: nat, k: nat)
    requires Listed(list, r) && e == Waiting(list, Seq(r)) <= k < |list|
    ensures Near(list[k], r)
  {
    hide Accepts, Seq, Window, Waiting;
    WaitingAt(list, Seq(r), e);
    assert Later(list[e], Seq(r));
    KindOf(list[e], r);
    assert list[e].sequenced;
    if k > e {
      assert list[k].sequenced && Less(list[e], list[k]);
    }
  }

  lemma LogGrows(b: Inbox, r: nat)
    requires Settled(b, r)
    ensures LogOk(Dispatch(b), r)
  {
    var list, incoming := b.commands, Seq(r);
    var e := Waiting(list, incoming);
    var s, log := ReadyIn(list[..e], incoming), b.dispatched;
    hide Passed, Waiting, LastNumber, ReadyIn, Accepts, Seq, Window, Kept;
    ReadyAscends(list, incoming, e);
    forall x {:trigger s[x]} | 0 <= x < |s| && s[x].sequenced
      ensures s[x].index == r && forall i {:trigger log[i]} :: 0 <= i < |log| && log[i].sequenced ==> Less(log[i], s[x])
    {
      var k := ReadyWhere(list, incoming, e, x);
      KindOf(list[k], r);
    }
    var y := LastIs(list, incoming, e, b.unreliable);
    assert forall x {:trigger s[x]} :: 0 <= x < |s| && s[x].sequenced ==> x <= y && (x < y ==> Less(s[x], s[y]));
    hide Listed, Below, Ready;
    JoinedAscends(log, s);
  }

  lemma JoinedAscends(s: seq<Item>, t: seq<Item>)
    requires Ascending(s) && Ascending(t)
    requires forall x, i {:trigger t[x], s[i]} :: 0 <= x < |t| && t[x].sequenced && 0 <= i < |s| && s[i].sequenced ==>
      Less(s[i], t[x])
    ensures Ascending(s + t)
  {
  }

  lemma StillBelow(b: Inbox, r: nat)
    requires Settled(b, r)
    ensures Below(Dispatch(b).dispatched, Dispatch(b).commands)
  {
    var list, incoming := b.commands, Seq(r);
    var e: int := Waiting(list, incoming);
    var s, log := ReadyIn(list[..e], incoming), b.dispatched;
    var d: int := Larger(Passed(list[..e], incoming), e - 2);
    var more, kept := log + s, list[d..];
    hide Passed, Waiting, LastNumber, ReadyIn, Accepts, Seq, Window;
    forall x, j {:trigger more[x], kept[j]}
      | 0 <= x < |more| && 0 <= j < |kept| && more[x].sequenced && kept[j].sequenced
      ensures Less(more[x], kept[j])
    {
      assert kept[j] == list[d + j];
      if x < |log| {
        assert more[x] == log[x];
      } else {
        var k := ReadyWhere(list, incoming, e, x - |log|);
        assert Less(list[k], list[d + j]);
      }
    }
    assert Below(more, kept);
  }

  // ----- arrivals -----

  /** The receiver's comparison is the sender's order. */
  lemma BeforeIsLess(a: Item, c: Item, r: nat)
    requires Near(a, r) && Near(c, r)
    ensures Unreliable.Before(a.reliable, a.unreliable, c.reliable, c.unreliable, Seq(r)) <==> Less(a, c)
    ensures a.reliable == c.reliable <==> a.index == c.index
  {
    SplitWindow(a.index);
    SplitWindow(c.index);
    SplitWindow(r);
    Reception.NumberOfSeq(a.index, r);
    Reception.NumberOfSeq(c.index, r);
    hide Ahead, Seq;
  }

  /** The walk from the back finds a duplicate, or the place that keeps the list in order. */
  lemma {:induction false} SlotFits(list: seq<Item>, r: nat, c: Item)
    requires AllNear(list, r) && Ascending(list) && Near(c, r)
    ensures var at := Slot(list, Seq(r), c.reliable, c.unreliable);
      at >= 0 ==>
        && (forall k {:trigger list[k]} :: 0 <= k < at ==> Less(list[k], c))
        && (forall k {:trigger list[k]} :: at <= k < |list| ==> Less(c, list[k]))
    decreases |list|
  {
    hide Seq, Window, Unreliable.Before;
    if list != [] {
      var k := |list| - 1;
      BeforeIsLess(c, list[k], r);
      BeforeIsLess(list[k], c, r);
      if Less(c, list[k]) {
        SlotFits(list[..k], r, c);
      }
    }
  }

  lemma InsertedAscends(list: seq<Item>, r: nat, c: Item, at: nat)
    requires AllNear(list, r) && Ascending(list) && c.sequenced && at <= |list|
    requires forall k {:trigger list[k]} :: 0 <= k < at ==> Less(list[k], c)
    requires forall k {:trigger list[k]} :: at <= k < |list| ==> Less(c, list[k])
    ensures Ascending(list[..at] + [c] + list[at..])
  {
    var more := list[..at] + [c] + list[at..];
    hide Near, Less;
    assert forall k {:trigger more[k]} :: 0 <= k < |more| ==>
      more[k] == if k < at then list[k] else if k == at then c else list[k - 1];
  }

  lemma NearIsListed(c: Item, r: nat)
    requires Near(c, r)
    ensures Around(c, r)
  {
    SplitWindow(c.index);
    SplitWindow(r);
  }

  lemma StoredSettled(b: Inbox, r: nat, c: Item, at: nat)
    requires BoxOk(b, r) && Near(c, r) && at <= |b.commands|
    requires c.index == r ==> c.unreliable > b.unreliable
    requires forall k {:trigger b.commands[k]} :: 0 <= k < at ==> Less(b.commands[k], c)
    requires forall k {:trigger b.commands[k]} :: at <= k < |b.commands| ==> Less(c, b.commands[k])
    ensures Settled(b.(commands := b.commands[..at] + [c] + b.commands[at..]), r)
  {
    var list := b.commands;
    var more := list[..at] + [c] + list[at..];
    InsertedAscends(list, r, c, at);
    forall k {:trigger more[k]} | 0 <= k < |more| ensures Near(more[k], r) && Around(more[k], r) {
      assert more[k] == if k < at then list[k] else if k == at then c else list[k - 1];
      NearIsListed(more[k], r);
    }
    hide Seq, Window, Ascending;
    forall x, k {:trigger b.dispatched[x], more[k]}
      | 0 <= x < |b.dispatched| && 0 <= k < |more| && b.dispatched[x].sequenced && more[k].sequenced
      ensures Less(b.dispatched[x], more[k])
    {
      assert more[k] == if k < at then list[k] else if k == at then c else list[k - 1];
    }
  }

  lemma UnsequencedSettled(b: Inbox, r: nat, c: Item)
    requires BoxOk(b, r) && !c.sequenced
    ensures Settled(b.(commands := [c] + b.commands), r)
  {
    var list, more := b.commands, [c] + b.commands;
    hide Seq, Window, Around;
    forall k {:trigger more[k]} | 1 <= k < |more|
      ensures more[k] == list[k - 1] && Near(more[k], r) && Around(more[k], r)
    {
      NearIsListed(list[k - 1], r);
    }
    hide Near, Less;
  }

  lemma ArriveOk(b: Inbox, r: nat, c: Item, full: bool)
    requires BoxOk(b, r) && (c.sequenced ==> Around(c, r))
    ensures BoxOk(Arrive(b, c, full).0, r)
  {
    hide Dispatch, Settled, Ascending, Below, LogOk, AllNear, Slot;
    if !c.sequenced {
      UnsequencedSettled(b, r, c);
      DispatchOk(b.(commands := [c] + b.commands), r);
    } else if Accepts(c.reliable, b.reliable) && !(c.reliable == b.reliable && c.unreliable <= b.unreliable) {
      AroundExact(c.index, r);
      SlotFits(b.commands, r, c);
      var at := Slot(b.commands, b.reliable, c.reliable, c.unreliable);
      if at >= 0 {
        StoredSettled(b, r, c, at);
        DispatchOk(b.(commands := b.commands[..at] + [c] + b.commands[at..]), r);
      }
    }
  }

  /** The receiver's reliable number moves on, by no more than eight windows at once. */
  lemma AdvanceOk(b: Inbox, r: nat, r1: nat)
    requires BoxOk(b, r) && r < r1 && Window(r1) <= Window(r) + 8
    ensures BoxOk(Advance(b, Seq(r1)), r1)
  {
    var b1 := b.(reliable := Seq(r1), unreliable := 0);
    SplitWindow(r);
    SplitWindow(r1);
    hide Dispatch, Seq, Ascending, Less;
    forall k {:trigger b.commands[k]} | 0 <= k < |b.commands|
      ensures Around(b.commands[k], r1) && Window(b.commands[k].index) <= Window(r1) + 6
    {
      SplitWindow(b.commands[k].index);
    }
    hide Window;
    assert Settled(b1, r1);
    DispatchOk(b1, r1);
  }

  /** A fragment of a listed command comes. */
  function FragmentCame(b: Inbox, k: nat): Inbox
    requires k < |b.commands|
  {
    var c := b.commands[k];
    if c.remaining > 1 then b.(commands := b.commands[k := c.(remaining := c.remaining - 1)])
    else Unreliable.Complete(b, k)
  }

  lemma FragmentOk(b: Inbox, r: nat, k: nat, remaining: nat)
    requires BoxOk(b, r) && k < |b.commands|
    ensures var b1 := b.(commands := b.commands[k := b.commands[k].(remaining := remaining)]);
      BoxOk(b1, r) && Settled(b1, r)
  {
    var list := b.commands;
    var list1 := list[k := list[k].(remaining := remaining)];
    hide Seq, Window, Around;
    forall j {:trigger list1[j]} | 0 <= j < |list1| ensures Near(list1[j], r) && Around(list1[j], r) {
      var _ := list[j];
      NearIsListed(list1[j], r);
    }
    assert Ascending(list1);
    assert Below(b.dispatched, list1);
  }

  lemma FragmentCameOk(b: Inbox, r: nat, k: nat)
    requires BoxOk(b, r) && k < |b.commands|
    ensures BoxOk(FragmentCame(b, k), r)
  {
    hide BoxOk, Dispatch, Settled;
    FragmentOk(b, r, k, 0);
    FragmentOk(b, r, k, if b.commands[k].remaining > 1 then b.commands[k].remaining - 1 else 0);
    DispatchOk(b.(commands := b.commands[k := b.commands[k].(remaining := 0)]), r);
  }

  // ----- from end to end -----

  /** A channel's sender, all sequenced unreliable packets it ever sent, and its receiver. */
  datatype System = System(outlet: Outlet, sent: seq<Item>, box: Inbox, r: nat)

  datatype Step =
    | SendPacket(packet: Packet, fragmentLength: nat)
    | Arrives(which: nat, full: bool)
    | ArrivesUnsequenced(data: seq<uint8>, full: bool)
    | ReliableCame(r: nat)
    | FragmentArrives(command: nat)

  /** A packet may arrive any number of times, in any order, while the receiver is not more than
      8 windows past its reliable number. */
  ghost predicate Possible(s: System, step: Step) {
    match step
    case SendPacket(_, fragmentLength) => fragmentLength > 0 && s.outlet.unreliable <= 0xFFFF
    case Arrives(k, _) => k < |s.sent| && Window(s.r) <= Window(s.sent[k].index) + 8
    case ArrivesUnsequenced(_, _) => true
    case ReliableCame(r) => s.r < r && Window(r) <= Window(s.r) + 8
    case FragmentArrives(k) => k < |s.box.commands|
  }

  /** The sender keeps its lead: it gives an unreliable packet its number only while fewer than
      65536 reliable ones before it are still to be dispatched. */
  ghost predicate KeepsLead(s: System, step: Step) {
    step.SendPacket? && step.fragmentLength > 0 && GoesUnreliably(s.outlet, step.packet, step.fragmentLength) ==>
      s.outlet.reliable < s.r + TWO_16
  }

  ghost predicate Enabled(s: System, step: Step) { Possible(s, step) && KeepsLead(s, step) }

  ghost function Next(s: System, step: Step): System
    requires Possible(s, step)
  {
    match step
    case SendPacket(p, fragmentLength) =>
      var (o, sent) := Sends(s.outlet, p, fragmentLength);
      s.(outlet := o, sent := s.sent + (if sent.AsUnreliable? then [sent.command] else []))
    case Arrives(k, full) => s.(box := Arrive(s.box, s.sent[k], full).0)
    case ArrivesUnsequenced(data, full) => s.(box := Arrive(s.box, Item(false, 0, 0, 0, data, 0), full).0)
    case ReliableCame(r) => s.(box := Advance(s.box, Seq(r)), r := r)
    case FragmentArrives(k) => s.(box := FragmentCame(s.box, k))
  }

  /** Unreliable numbers never wrap within one reliable number: the pairs given out increase. */
  ghost predicate SentOk(o: Outlet, sent: seq<Item>) {
    && o.unreliable <= 0xFFFF && Ascending(sent)
    && forall k {:trigger sent[k]} :: 0 <= k < |sent| ==>
         && sent[k].sequenced && sent[k].reliable == Seq(sent[k].index) && 1 <= sent[k].unreliable
         && (sent[k].index < o.reliable || (sent[k].index == o.reliable && sent[k].unreliable <= o.unreliable))
  }

  lemma SendsOk(o: Outlet, sent: seq<Item>, p: Packet, fragmentLength: nat)
    requires SentOk(o, sent) && fragmentLength > 0
    ensures var (o1, how) := Sends(o, p, fragmentLength);
      SentOk(o1, sent + (if how.AsUnreliable? then [how.command] else []))
  {
    if fragmentLength < |p.data| {
      FragmentsAtLeastTwo(|p.data|, fragmentLength);
    }
    hide FragmentCount, Seq;
    var (o1, how) := Sends(o, p, fragmentLength);
    if how.AsUnreliable? {
      assert Ascending(sent + [how.command]);
    } else {
      assert sent + [] == sent;
    }
  }

  predicate IsFrom(c: Item, d: Item) { d == c.(remaining := d.remaining) }

  ghost predicate WasSent(sent: seq<Item>, c: Item) {
    exists k {:trigger sent[k]} :: 0 <= k < |sent| && IsFrom(c, sent[k])
  }

  ghost predicate Traced(sent: seq<Item>, list: seq<Item>) {
    forall k {:trigger list[k]} :: 0 <= k < |list| && list[k].sequenced ==> WasSent(sent, list[k])
  }

  ghost predicate LeadOk(sent: seq<Item>, r: nat) {
    forall k {:trigger sent[k]} :: 0 <= k < |sent| ==> sent[k].index < r + TWO_16
  }

  ghost predicate Inv(s: System) {
    && BoxOk(s.box, s.r) && SentOk(s.outlet, s.sent) && LeadOk(s.sent, s.r) && Traced(s.sent, s.box.commands)
    && Traced(s.sent, s.box.dispatched)
  }

  lemma DispatchTraced(sent: seq<Item>, b: Inbox)
    requires Traced(sent, b.commands) && Traced(sent, b.dispatched)
    ensures Traced(sent, Dispatch(b).commands) && Traced(sent, Dispatch(b).dispatched)
  {
    var list, e := b.commands, Waiting(b.commands, b.reliable);
    var s, kept := ReadyIn(list[..e], b.reliable), Kept(list, b.reliable);
    hide WasSent, Waiting, ReadyIn, Passed;
    forall x {:trigger s[x]} | 0 <= x < |s| && s[x].sequenced ensures WasSent(sent, s[x]) {
      var k := ReadyWhere(list, b.reliable, e, x);
    }
    assert forall k {:trigger kept[k]} :: 0 <= k < |kept| ==> kept[k] == list[|list| - |kept| + k];
  }

  lemma ArriveTraced(sent: seq<Item>, b: Inbox, c: Item, full: bool)
    requires Traced(sent, b.commands) && Traced(sent, b.dispatched) && (c.sequenced ==> WasSent(sent, c))
    ensures Traced(sent, Arrive(b, c, full).0.commands) && Traced(sent, Arrive(b, c, full).0.dispatched)
  {
    hide Dispatch, WasSent, Accepts, Slot;
    var list, at := b.commands, Slot(b.commands, b.reliable, c.reliable, c.unreliable);
    DispatchTraced(sent, b.(commands := [c] + list));
    if at >= 0 {
      var more := list[..at] + [c] + list[at..];
      assert forall k {:trigger more[k]} :: 0 <= k < |more| ==>
        more[k] == if k < at then list[k] else if k == at then c else list[k - 1];
      DispatchTraced(sent, b.(commands := more));
    }
  }

  lemma SameOrigin(sent: seq<Item>, c: Item, n: nat)
    requires WasSent(sent, c)
    ensures WasSent(sent, c.(remaining := n))
  {
    var j :| 0 <= j < |sent| && IsFrom(c, sent[j]);
    assert IsFrom(c.(remaining := n), sent[j]);
  }

  lemma FragmentTraced(sent: seq<Item>, b: Inbox, k: nat)
    requires Traced(sent, b.commands) && Traced(sent, b.dispatched) && k < |b.commands|
    ensures Traced(sent, FragmentCame(b, k).commands) && Traced(sent, FragmentCame(b, k).dispatched)
  {
    hide Dispatch, WasSent;
    if b.commands[k].sequenced {
      forall n: nat ensures WasSent(sent, b.commands[k].(remaining := n)) {
        SameOrigin(sent, b.commands[k], n);
      }
    }
    DispatchTraced(sent, b.(commands := b.commands[k := b.commands[k].(remaining := 0)]));
  }

  lemma StepKeeps(s: System, step: Step)
    requires Inv(s) && Enabled(s, step)
    ensures Inv(Next(s, step))
  {
    hide BoxOk, Traced, Arrive, Advance, Dispatch, FragmentCame, Sends, Seq, Window, Ascending;
    match step
    case SendPacket(p, fragmentLength) =>
      SendsOk(s.outlet, s.sent, p, fragmentLength);
      SendsLead(s, p, fragmentLength);
      MoreTraced(s.sent, Next(s, step).sent, s.box.commands);
      MoreTraced(s.sent, Next(s, step).sent, s.box.dispatched);
    case Arrives(k, full) =>
      ArriveOk(s.box, s.r, s.sent[k], full);
      assert WasSent(s.sent, s.sent[k]);
      ArriveTraced(s.sent, s.box, s.sent[k], full);
    case ArrivesUnsequenced(data, full) =>
      ArriveOk(s.box, s.r, Item(false, 0, 0, 0, data, 0), full);
      ArriveTraced(s.sent, s.box, Item(false, 0, 0, 0, data, 0), full);
    case ReliableCame(r) =>
      AdvanceOk(s.box, s.r, r);
      AdvanceTraced(s.sent, s.box, Seq(r));
    case FragmentArrives(k) =>
      FragmentCameOk(s.box, s.r, k);
      FragmentTraced(s.sent, s.box, k);
  }

  lemma SendsLead(s: System, p: Packet, fragmentLength: nat)
    requires LeadOk(s.sent, s.r) && Enabled(s, SendPacket(p, fragmentLength))
    ensures LeadOk(Next(s, SendPacket(p, fragmentLength)).sent, s.r)
  {
  }

  lemma AdvanceTraced(sent: seq<Item>, b: Inbox, reliable: uint16)
    requires Traced(sent, b.commands) && Traced(sent, b.dispatched)
    ensures Traced(sent, Advance(b, reliable).commands) && Traced(sent, Advance(b, reliable).dispatched)
  {
    hide Dispatch, WasSent;
    DispatchTraced(sent, b.(reliable := reliable, unreliable := 0));
  }

  lemma MoreTraced(sent: seq<Item>, sent1: seq<Item>, list: seq<Item>)
    requires Traced(sent, list) && sent <= sent1
    ensures Traced(sent1, list)
  {
    forall k {:trigger list[k]} | 0 <= k < |list| && list[k].sequenced ensures WasSent(sent1, list[k]) {
      var j :| 0 <= j < |sent| && IsFrom(list[k], sent[j]);
      assert sent1[j] == sent[j];
    }
  }

  function Start(): System { System(Outlet(0, 0), [], Inbox(0, 0, [], []), 0) }

  /** Steps that the code and the network can make, whatever the sender's lead. */
  ghost predicate IsPath(run: seq<System>, steps: seq<Step>) {
    && |run| == |steps| + 1 && run[0] == Start()
    && forall k {:trigger steps[k]} :: 0 <= k < |steps| ==>
         Possible(run[k], steps[k]) && run[k + 1] == Next(run[k], steps[k])
  }

  /** A path on which the sender keeps its lead. */
  ghost predicate IsRun(run: seq<System>, steps: seq<Step>) {
    IsPath(run, steps) && forall k {:trigger steps[k]} :: 0 <= k < |steps| ==> KeepsLead(run[k], steps[k])
  }

  lemma {:induction false} RunOk(run: seq<System>, steps: seq<Step>, k: nat)
    requires IsRun(run, steps) && k < |run|
    ensures Inv(run[k])
    decreases k
  {
    if k > 0 {
      RunOk(run, steps, k - 1);
      hide Inv, Next, Possible, KeepsLead;
      assert run[k - 1 + 1] == Next(run[k - 1], steps[k - 1]);
      StepKeeps(run[k - 1], steps[k - 1]);
    }
  }

  /** The `i`-th packet dispatched is the `a`-th sent. */
  ghost predicate Shown(s: System, i: nat, a: nat) {
    i < |s.box.dispatched| && a < |s.sent| && s.box.dispatched[i].sequenced && IsFrom(s.box.dispatched[i], s.sent[a])
  }

  /** In every run the sequenced packets dispatched are some of those sent, in the order of
      sending and each at most once; and no unsequenced packet waits in the list. */
  lemma InOrderOnce(run: seq<System>, steps: seq<Step>, k: nat)
    requires IsRun(run, steps) && k < |run|
    ensures var s := run[k];
      && (forall c {:trigger c in s.box.commands} :: c in s.box.commands ==> c.sequenced)
      && (forall i {:trigger s.box.dispatched[i]} :: 0 <= i < |s.box.dispatched| && s.box.dispatched[i].sequenced ==>
           exists a {:trigger Shown(s, i, a)} :: Shown(s, i, a))
      && (forall i, j, a, b {:trigger Shown(s, i, a), Shown(s, j, b)} :: Shown(s, i, a) && Shown(s, j, b) && i < j ==>
           a < b)
  {
    RunOk(run, steps, k);
    hide IsRun;
    var s := run[k];
    forall i {:trigger s.box.dispatched[i]} | 0 <= i < |s.box.dispatched| && s.box.dispatched[i].sequenced
      ensures exists a {:trigger Shown(s, i, a)} :: Shown(s, i, a)
    {
      var a :| 0 <= a < |s.sent| && IsFrom(s.box.dispatched[i], s.sent[a]);
      assert Shown(s, i, a);
    }
    forall i, j, a, b {:trigger Shown(s, i, a), Shown(s, j, b)} | Shown(s, i, a) && Shown(s, j, b) && i < j
      ensures a < b
    {
      SentOrder(s, i, j, a, b);
    }
  }

  lemma SentOrder(s: System, i: nat, j: nat, a: nat, b: nat)
    requires SentOk(s.outlet, s.sent) && Ascending(s.box.dispatched) && Shown(s, i, a) && Shown(s, j, b) && i < j
    ensures a < b
  {
    assert Less(s.sent[a], s.sent[b]);
    assert b < a ==> Less(s.sent[b], s.sent[a]);
  }

  // ----- a lead that is too long -----

  lemma OneStepMore(run: seq<System>, steps: seq<Step>, step: Step)
    requires IsPath(run, steps) && Possible(run[|steps|], step)
    ensures IsPath(run + [Next(run[|steps|], step)], steps + [step])
  {
    var run1, steps1 := run + [Next(run[|steps|], step)], steps + [step];
    hide Possible, Next;
    forall k {:trigger steps1[k]} | 0 <= k < |steps1|
      ensures Possible(run1[k], steps1[k]) && run1[k + 1] == Next(run1[k], steps1[k])
    {
      if k < |steps| {
        assert steps1[k] == steps[k] && run1[k] == run[k] && run1[k + 1] == run[k + 1];
      }
    }
  }

  const RELIABLE := Packet([], true, false, false)
  const FIRST := Packet([1], false, false, false)
  const SECOND := Packet([2], false, false, false)

  /** Any number of reliable packets can be queued before the first of them is dispatched. */
  lemma {:induction false} QueueMany(run: seq<System>, steps: seq<Step>, m: nat)
    returns (run1: seq<System>, steps1: seq<Step>)
    requires IsPath(run, steps) && run[|steps|].outlet.unreliable <= 0xFFFF
    ensures IsPath(run1, steps1)
    ensures var s, o := run[|steps|], run[|steps|].outlet;
      run1[|steps1|] == s.(outlet := Outlet(o.reliable + m, if m == 0 then o.unreliable else 0))
    decreases m
  {
    if m == 0 {
      run1, steps1 := run, steps;
    } else {
      run1, steps1 := QueueMany(run, steps, m - 1);
      var s := run1[|steps1|];
      var step := SendPacket(RELIABLE, 1);
      assert Next(s, step).sent == s.sent;
      OneStepMore(run1, steps1, step);
      run1, steps1 := run1 + [Next(s, step)], steps1 + [step];
    }
  }

  lemma ArrivesAlone(b: Inbox, c: Item)
    requires b.commands == [] && c.sequenced && c.remaining == 0 && c.reliable == b.reliable
    requires c.unreliable > b.unreliable
    ensures Arrive(b, c, false).0 == Inbox(b.reliable, c.unreliable, [], b.dispatched + [c])
  {
    assert [] + [c] + [] == [c];
    assert [c][..1] == [c] && [c][..0] == [] && [c][1..] == [];
    assert Waiting([c], b.reliable) == 1 && Passed([c], b.reliable) == 1 && ReadyIn([c], b.reliable) == [c];
  }

  const FIRST_ITEM := Item(true, 1, 1, 0, FIRST.data, 1)
  const SECOND_ITEM := Item(true, 0, 1, 0, SECOND.data, TWO_16)

  /** Both unreliable packets were sent, with 65535 reliable ones between them. */
  lemma BothSent() returns (run: seq<System>, steps: seq<Step>)
    ensures IsPath(run, steps) && |run| == |steps| + 1
    ensures run[|steps|] == System(Outlet(TWO_16, 1), [FIRST_ITEM, SECOND_ITEM], Inbox(0, 0, [], []), 0)
  {
    hide Possible, Next, IsPath;
    StartPath();
    run, steps := QueueMany([Start()], [], 1);
    SendFirst(run[|steps|]);
    run, steps := OneStepOn(run, steps, SendPacket(FIRST, 1));
    run, steps := QueueMany(run, steps, TWO_16 - 1);
    SendSecond(run[|steps|]);
    run, steps := OneStepOn(run, steps, SendPacket(SECOND, 1));
  }

  lemma StartPath()
    ensures IsPath([Start()], [])
  {
  }

  lemma OneStepOn(run: seq<System>, steps: seq<Step>, step: Step) returns (run1: seq<System>, steps1: seq<Step>)
    requires IsPath(run, steps) && Possible(run[|steps|], step)
    ensures IsPath(run1, steps1) && |run1| == |steps1| + 1 && run1[|steps1|] == Next(run[|steps|], step)
  {
    OneStepMore(run, steps, step);
    run1, steps1 := run + [Next(run[|steps|], step)], steps + [step];
  }

  lemma SendFirst(s: System)
    requires s == System(Outlet(1, 0), [], Inbox(0, 0, [], []), 0)
    ensures Possible(s, SendPacket(FIRST, 1))
    ensures Next(s, SendPacket(FIRST, 1)) == System(Outlet(1, 1), [FIRST_ITEM], Inbox(0, 0, [], []), 0)
  {
  }

  lemma SendSecond(s: System)
    requires s == System(Outlet(TWO_16, 0), [FIRST_ITEM], Inbox(0, 0, [], []), 0)
    ensures Possible(s, SendPacket(SECOND, 1))
    ensures Next(s, SendPacket(SECOND, 1))
         == System(Outlet(TWO_16, 1), [FIRST_ITEM, SECOND_ITEM], Inbox(0, 0, [], []), 0)
  {
  }

  /** A packet of the receiver's own number arrives and is dispatched. */
  lemma ItArrives(s: System, k: nat)
    requires k < |s.sent| && s.sent[k].sequenced && s.sent[k].remaining == 0 && s.box.commands == []
    requires s.sent[k].reliable == s.box.reliable && s.sent[k].unreliable > s.box.unreliable
    requires Window(s.r) <= Window(s.sent[k].index) + 8
    ensures Possible(s, Arrives(k, false))
    ensures Next(s, Arrives(k, false))
         == s.(box := Inbox(s.box.reliable, s.sent[k].unreliable, [], s.box.dispatched + [s.sent[k]]))
  {
    ArrivesAlone(s.box, s.sent[k]);
    hide Arrive;
  }

  lemma FirstCame(s: System)
    requires s.r == 0 && s.box.commands == []
    ensures Possible(s, ReliableCame(1))
    ensures Next(s, ReliableCame(1)) == s.(box := s.box.(reliable := 1, unreliable := 0), r := 1)
  {
  }

  /** Without the condition on the lead the order is lost: 65536 reliable packets are queued, and
      the unreliable packet sent after them is dispatched before one sent after the first. */
  lemma Overtaken() returns (run: seq<System>, steps: seq<Step>)
    ensures IsPath(run, steps)
    ensures var s := run[|steps|];
      && |s.sent| == 2 && s.sent[0].data == FIRST.data && s.sent[1].data == SECOND.data
      && s.box.dispatched == [s.sent[1], s.sent[0]]
  {
    hide Possible, Next, IsPath;
    run, steps := BothSent();
    ItArrives(run[|steps|], 1);
    run, steps := OneStepOn(run, steps, Arrives(1, false));
    FirstCame(run[|steps|]);
    run, steps := OneStepOn(run, steps, ReliableCame(1));
    ItArrives(run[|steps|], 0);
    run, steps := OneStepOn(run, steps, Arrives(0, false));
  }

  // ----- what is dispatched at once -----

  lemma {:induction false} ReadyHas(list: seq<Item>, incoming: uint16, m: nat, k: nat)
    requires k < m <= |list| && Ready(list[k], incoming)
    ensures list[k] in ReadyIn(list[..m], incoming)
    decreases m
  {
    assert list[..m][..m - 1] == list[..m - 1];
    if k < m - 1 {
      ReadyHas(list, incoming, m - 1, k);
    }
  }

  /** An unsequenced packet that finds space is dispatched on arrival. */
  lemma UnsequencedAtOnce(b: Inbox, c: Item)
    requires !c.sequenced
    ensures var (b1, ok) := Arrive(b, c, false); ok && c in b1.dispatched[|b.dispatched|..]
  {
    var list := [c] + b.commands;
    WaitingAt(list, b.reliable, 0);
    ReadyHas(list, b.reliable, Waiting(list, b.reliable), 0);
  }

  /** So is a whole sequenced packet of the receiver's own reliable number that is newer than
      the last one dispatched, unless it is in the list already. */
  lemma FreshAtOnce(b: Inbox, r: nat, c: Item)
    requires BoxOk(b, r) && Near(c, r) && c.index == r && c.remaining == 0 && c.unreliable > b.unreliable
    requires Slot(b.commands, b.reliable, c.reliable, c.unreliable) >= 0
    ensures var (b1, ok) := Arrive(b, c, false); ok && c in b1.dispatched[|b.dispatched|..]
  {
    var at := Slot(b.commands, b.reliable, c.reliable, c.unreliable);
    var list := b.commands[..at] + [c] + b.commands[at..];
    NearIsListed(c, r);
    AroundExact(c.index, r);
    hide Slot, Window, Seq, Accepts, Ascending, Below, LogOk;
    SlotFits(b.commands, r, c);
    assert forall k {:trigger list[k]} :: 0 <= k <= at ==> list[k] == if k < at then b.commands[k] else c;
    forall k {:trigger list[k]} | 0 <= k <= at ensures !Later(list[k], b.reliable) {
      NearIsListed(list[k], r);
      KindOf(list[k], r);
    }
    WaitingPast(list, b.reliable, at + 1);
    ReadyHas(list, b.reliable, Waiting(list, b.reliable), at);
  }

  lemma {:induction false} WaitingPast(list: seq<Item>, incoming: uint16, m: nat)
    requires m <= |list| && forall k {:trigger list[k]} :: 0 <= k < m ==> !Later(list[k], incoming)
    ensures m <= Waiting(list, incoming)
    decreases m
  {
    if m > 0 {
      var rest := list[1..];
      assert forall k {:trigger rest[k]} :: 0 <= k < m - 1 ==> rest[k] == list[k + 1];
      WaitingPast(list[1..], incoming, m - 1);
    }
  }
}
