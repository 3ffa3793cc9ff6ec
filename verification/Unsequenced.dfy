/** Unsequenced packets are numbered in groups of 16 bits; the receiver keeps one bitmap of
    1024 groups, whose place moves with the newest group. */
module Unsequenced {
  import opened Words

  const WINDOW_SIZE := 1024
  const FREE_WINDOWS := 32

  /** Where the bitmap is and which of its groups have come. */
  datatype Bitmap = Bitmap(group: uint16, bits: seq<bool>)

  /** What an arrival does: nothing (too far ahead, or had before), an error (no space for
      the packet; the bitmap may have moved), or a delivery. */
  datatype Arrival = Ignored | Failed(moved: Bitmap) | Delivered(moved: Bitmap)

  function NoBits(): seq<bool> { seq(WINDOW_SIZE, i => false) }

  function Handled(b: Bitmap, arrived: uint16, full: bool): Arrival
    requires |b.bits| == WINDOW_SIZE
  {
    var index := arrived % WINDOW_SIZE;
    var ahead := if arrived < b.group then arrived + 0x1_0000 else arrived;
    if ahead >= b.group + FREE_WINDOWS * WINDOW_SIZE then Ignored
    else if arrived - index == b.group && b.bits[index] then Ignored
    else (
      var moved := if arrived - index != b.group then Bitmap(arrived - index, NoBits()) else b;
      if full then Failed(moved) else Delivered(moved.(bits := moved.bits[index := true])))
  }

  class Peer {
    var incomingUnsequencedGroup: uint16
    const unsequencedWindow: array<bool>

    ghost function Value(): Bitmap
      reads this, unsequencedWindow
    {
      Bitmap(incomingUnsequencedGroup, unsequencedWindow[..])
    }

    constructor ()
      ensures Value() == Bitmap(0, NoBits()) && fresh(unsequencedWindow)
    {
      incomingUnsequencedGroup := 0;
      unsequencedWindow := new bool[WINDOW_SIZE](i => false);
    }

    /** Takes an unsequenced packet's group in; `full` says that the packet would find no space. */
    method HandleSendUnsequenced(arrived: uint16, full: bool) returns (ok: bool, delivered: bool)
      requires unsequencedWindow.Length == WINDOW_SIZE
      modifies this`incomingUnsequencedGroup, unsequencedWindow
      ensures match Handled(old(Value()), arrived, full)
        case Ignored => ok && !delivered && Value() == old(Value())
        case Failed(b) => !ok && !delivered && Value() == b
        case Delivered(b) => ok && delivered && Value() == b
    {
      var group: int, index := arrived, arrived % WINDOW_SIZE;
      if group < incomingUnsequencedGroup {
        group := group + 0x1_0000;
      }
      if group >= incomingUnsequencedGroup + FREE_WINDOWS * WINDOW_SIZE {
        return true, false;
      }
      group := group % 0x1_0000;
      if group - index != incomingUnsequencedGroup {
        incomingUnsequencedGroup := group - index;
        ClearWindow();
      } else if unsequencedWindow[index] {
        return true, false;
      }
      if full {
        return false, false;
      }
      ghost var bits := unsequencedWindow[..];
      unsequencedWindow[index] := true;
      assert unsequencedWindow[..] == bits[index := true];
      return true, true;
    }

    method ClearWindow()
      requires unsequencedWindow.Length == WINDOW_SIZE
      modifies unsequencedWindow
      ensures unsequencedWindow[..] == NoBits()
    {
      for i := 0 to WINDOW_SIZE
        invariant forall j :: 0 <= j < i ==> !unsequencedWindow[j]
      {
        unsequencedWindow[i] := false;
      }
      assert forall j :: 0 <= j < WINDOW_SIZE ==> NoBits()[j] == false;
    }
  }

  // ----- runs -----

  /** The window of a group's whole number. */
  function Window(n: nat): nat { n / WINDOW_SIZE }

  lemma Places(n: nat)
    ensures var g := n % 0x1_0000;
      && g % WINDOW_SIZE == n % WINDOW_SIZE && g - n % WINDOW_SIZE == Window(n) % 64 * WINDOW_SIZE
      && n == Window(n) * WINDOW_SIZE + n % WINDOW_SIZE
  {
    var q, r := n / 0x1_0000, n % 0x1_0000;
    DivisionOf(r, WINDOW_SIZE, r / WINDOW_SIZE, r % WINDOW_SIZE);
    assert n == (q * 64 + r / WINDOW_SIZE) * WINDOW_SIZE + r % WINDOW_SIZE;
    DivisionOf(n, WINDOW_SIZE, q * 64 + r / WINDOW_SIZE, r % WINDOW_SIZE);
    DivisionOf(Window(n), 64, q, r / WINDOW_SIZE);
  }

  /** Quotient and remainder are the only ones. */
  lemma DivisionOf(n: nat, d: nat, q: nat, r: nat)
    requires r < d && n == q * d + r
    ensures n / d == q && n % d == r
  {
    var q1, r1 := n / d, n % d;
    assert n == q1 * d + r1 && 0 <= r1 < d;
    assert (q - q1) * d == r1 - r && (q1 - q) * d == r - r1;
    if q > q1 {
      MoreThan(q - q1, d);
    } else if q < q1 {
      MoreThan(q1 - q, d);
    }
  }

  lemma MoreThan(k: nat, d: nat)
    requires k >= 1
    ensures k * d >= d
  {
    assert k * d == (k - 1) * d + d;
  }

  /** The bitmap stands at window `w` and has the bit of everything delivered from it; nothing
      was delivered from later windows. */
  ghost predicate Knows(b: Bitmap, w: nat, delivered: set<nat>) {
    && |b.bits| == WINDOW_SIZE && b.group == w % 64 * WINDOW_SIZE
    && (forall n {:trigger n in delivered} :: n in delivered ==>
          Window(n) < w || (Window(n) == w && b.bits[n % WINDOW_SIZE]))
  }

  /** It has no other bits either. */
  ghost predicate Exact(b: Bitmap, w: nat, delivered: set<nat>) {
    && |b.bits| == WINDOW_SIZE
    && forall n: nat {:trigger n in delivered} :: Window(n) == w && b.bits[n % WINDOW_SIZE] ==> n in delivered
  }

  /** Windows behind by at most 32 look at least 32 windows ahead. */
  lemma LooksAhead(w: nat, b: nat)
    requires b <= w + 32
    ensures w < b ==> w % 64 + (if w % 64 < b % 64 then 64 else 0) >= b % 64 + 32
    ensures w % 64 == b % 64 ==> w >= b
  {
    var qw, qb := w / 64, b / 64;
    assert w == qw * 64 + w % 64 && b == qb * 64 + b % 64;
    assert qb <= qw + 1;
  }

  /** A group that is at most 32 windows behind is delivered only if it was not before. */
  lemma ArrivalOnce(b: Bitmap, w: nat, delivered: set<nat>, n: nat, full: bool)
    requires Knows(b, w, delivered) && w <= Window(n) + 32
    ensures match Handled(b, n % 0x1_0000, full)
      case Ignored => true
      case Failed(b1) => Window(n) >= w && Knows(b1, Window(n), delivered)
      case Delivered(b1) => n !in delivered && Window(n) >= w && Knows(b1, Window(n), delivered + {n})
  {
    Places(n);
    LooksAhead(Window(n), w);
    assert n % 0x1_0000 < b.group <==> Window(n) % 64 < w % 64;
  }

  /** As long as the newest group is also less than 32 windows ahead of the bitmap, exactly
      the groups delivered before, and those of earlier windows, are ignored. */
  lemma ArrivalExact(b: Bitmap, w: nat, delivered: set<nat>, n: nat)
    requires Knows(b, w, delivered) && Exact(b, w, delivered) && Window(n) < w + 32 && w <= Window(n) + 32
    ensures var a := Handled(b, n % 0x1_0000, false);
      && (a.Delivered? <==> n !in delivered && w <= Window(n))
      && (a.Delivered? ==> Exact(a.moved, Window(n), delivered + {n}))
  {
    hide *;
    KnownHere(b, w, delivered, n);
    HandledIs(b, w, n);
    if w <= Window(n) {
      ExactAfter(b, w, delivered, n);
    }
  }

  /** The code's tests, in whole numbers. */
  lemma HandledIs(b: Bitmap, w: nat, n: nat)
    requires |b.bits| == WINDOW_SIZE == 1024 && b.group == w % 64 * WINDOW_SIZE
    requires Window(n) < w + 32 && w <= Window(n) + 32
    ensures n % WINDOW_SIZE < WINDOW_SIZE
    ensures Handled(b, n % 0x1_0000, false) ==
      if Window(n) < w || (Window(n) == w && b.bits[n % WINDOW_SIZE]) then Ignored
      else Delivered(After(b, w, n))
  {
    Places(n);
    LooksAhead(Window(n), w);
    NotAhead(Window(n), w);
    assert n % 0x1_0000 < b.group <==> Window(n) % 64 < w % 64;
  }

  function After(b: Bitmap, w: nat, n: nat): Bitmap
    requires |b.bits| == WINDOW_SIZE
  {
    var moved := if Window(n) == w then b else Bitmap(Window(n) % 64 * WINDOW_SIZE, NoBits());
    moved.(bits := moved.bits[n % WINDOW_SIZE := true])
  }

  lemma KnownHere(b: Bitmap, w: nat, delivered: set<nat>, n: nat)
    requires Knows(b, w, delivered) && Exact(b, w, delivered)
    ensures |b.bits| == WINDOW_SIZE == 1024 && b.group == w % 64 * WINDOW_SIZE
    ensures Window(n) == w ==> (b.bits[n % WINDOW_SIZE] <==> n in delivered)
    ensures Window(n) > w ==> n !in delivered
  {
    hide Window;
  }

  lemma ExactAfter(b: Bitmap, w: nat, delivered: set<nat>, n: nat)
    requires |b.bits| == WINDOW_SIZE && Exact(b, w, delivered) && w <= Window(n)
    ensures Exact(After(b, w, n), Window(n), delivered + {n})
  {
    hide Window;
    var b1 := After(b, w, n);
    forall m: nat {:trigger m in delivered + {n}} | Window(m) == Window(n) && b1.bits[m % WINDOW_SIZE]
      ensures m in delivered + {n}
    {
      Places(m);
      Places(n);
      var _ := m in delivered;
    }
  }

  lemma NotAhead(w: nat, b: nat)
    requires w < b + 32
    ensures b <= w ==> w % 64 + (if w % 64 < b % 64 then 64 else 0) < b % 64 + 32
    ensures b <= w && w % 64 == b % 64 ==> w == b
  {
    var qw, qb := w / 64, b / 64;
    assert w == qw * 64 + w % 64 && b == qb * 64 + b % 64;
  }

  /** One arrival after the other: the whole numbers of the groups, and whether there was space. */
  datatype Group = Group(number: nat, full: bool)

  datatype Run = Run(b: Bitmap, w: nat, delivered: seq<nat>)

  function Received(arrivals: seq<Group>): (r: Run)
    ensures |r.b.bits| == WINDOW_SIZE
    decreases |arrivals|
  {
    if arrivals == [] then Run(Bitmap(0, NoBits()), 0, []) else (
      var k := |arrivals| - 1;
      var r := Received(arrivals[..k]);
      var n := arrivals[k].number;
      match Handled(r.b, n % 0x1_0000, arrivals[k].full)
      case Ignored => r
      case Failed(b) => Run(b, Window(n), r.delivered)
      case Delivered(b) => Run(b, Window(n), r.delivered + [n]))
  }

  /** No group arrives more than 32 windows behind the bitmap. */
  ghost predicate Timely(arrivals: seq<Group>) {
    forall k {:trigger arrivals[k]} :: 0 <= k < |arrivals| ==>
      Received(arrivals[..k]).w <= Window(arrivals[k].number) + 32
  }

  ghost predicate Distinct(s: seq<nat>) {
    forall i, j {:trigger s[i], s[j]} :: 0 <= i < j < |s| ==> s[i] != s[j]
  }

  function SetOf(s: seq<nat>): set<nat> { set n | n in s }

  lemma SetMore(s: seq<nat>, n: nat)
    ensures SetOf(s + [n]) == SetOf(s) + {n} && SetOf([]) == {}
    ensures Distinct(s) && n !in SetOf(s) ==> Distinct(s + [n])
  {
    if Distinct(s) && n !in SetOf(s) {
      assert forall i :: 0 <= i < |s| ==> s[i] in SetOf(s);
    }
  }

  /** Across any number of wraparounds, each group is delivered at most once. */
  lemma {:induction false} AtMostOnce(arrivals: seq<Group>)
    requires Timely(arrivals)
    ensures Distinct(Received(arrivals).delivered)
    ensures Knows(Received(arrivals).b, Received(arrivals).w, SetOf(Received(arrivals).delivered))
    decreases |arrivals|
  {
    hide *;
    ReceivedNext(arrivals);
    if arrivals == [] {
      NoBitsKnow();
      SetMore([], 0);
    } else {
      var k := |arrivals| - 1;
      TimelyBefore(arrivals);
      AtMostOnce(arrivals[..k]);
      var r := Received(arrivals[..k]);
      var n := arrivals[k].number;
      ArrivalOnce(r.b, r.w, SetOf(r.delivered), n, arrivals[k].full);
      SetMore(r.delivered, n);
    }
  }

  lemma ReceivedNext(arrivals: seq<Group>)
    ensures arrivals == [] ==> Received(arrivals) == Run(Bitmap(0, NoBits()), 0, [])
    ensures arrivals != [] ==>
      var k := |arrivals| - 1;
      var r := Received(arrivals[..k]);
      |r.b.bits| == WINDOW_SIZE && var n := arrivals[k].number;
      Received(arrivals) == match Handled(r.b, n % 0x1_0000, arrivals[k].full)
        case Ignored => r
        case Failed(b) => Run(b, Window(n), r.delivered)
        case Delivered(b) => Run(b, Window(n), r.delivered + [n])
  {
    hide Handled, NoBits;
  }

  lemma NoBitsKnow()
    ensures Knows(Bitmap(0, NoBits()), 0, {}) && Distinct([])
  {
  }

  lemma TimelyBefore(arrivals: seq<Group>)
    requires arrivals != [] && Timely(arrivals)
    ensures var k := |arrivals| - 1;
      Timely(arrivals[..k]) && Received(arrivals[..k]).w <= Window(arrivals[k].number) + 32
  {
    var k := |arrivals| - 1;
    forall i {:trigger arrivals[..k][i]} | 0 <= i < k
      ensures Received(arrivals[..k][..i]).w <= Window(arrivals[..k][i].number) + 32
    {
      assert arrivals[..k][..i] == arrivals[..i] && arrivals[..k][i] == arrivals[i];
    }
    hide Received;
  }

  /** Windows come round after 64: how many windows late a group seems to be. */
  function Lag(w: nat, n: nat): nat
    requires Window(n) <= w
  {
    (w - Window(n)) % 64
  }

  /** However late a group is, it is delivered, again or not, just when it seems at least 33
      windows late, or seems to belong to the bitmap and its bit is clear. */
  lemma LateExactly(w: nat, bits: seq<bool>, n: nat)
    requires |bits| == WINDOW_SIZE && Window(n) <= w
    ensures Handled(Bitmap(w % 64 * WINDOW_SIZE, bits), n % 0x1_0000, false).Delivered?
       <==> Lag(w, n) >= 33 || (Lag(w, n) == 0 && !bits[n % WINDOW_SIZE])
  {
    hide Window;
    Places(n);
    LagIs(w, Window(n));
    assert n % 0x1_0000 < w % 64 * WINDOW_SIZE <==> Window(n) % 64 < w % 64;
  }

  lemma LagIs(w: nat, v: nat)
    requires v <= w
    ensures (w - v) % 64 == if v % 64 <= w % 64 then w % 64 - v % 64 else w % 64 - v % 64 + 64
  {
    var qw, qv := w / 64, v / 64;
    assert w == qw * 64 + w % 64 && v == qv * 64 + v % 64;
    assert w - v == (qw - qv) * 64 + (w % 64 - v % 64);
  }

  /** So a group of an earlier window, at most 63 windows late, is delivered if and only if it is
      more than 32 windows late; and one that is 65 to 96 windows late is ignored. */
  lemma LateTwice(w: nat, bits: seq<bool>, n: nat)
    requires |bits| == WINDOW_SIZE && Window(n) < w
    ensures w <= Window(n) + 63 ==>
      (Handled(Bitmap(w % 64 * WINDOW_SIZE, bits), n % 0x1_0000, false).Delivered? <==> w >= Window(n) + 33)
    ensures Window(n) + 65 <= w <= Window(n) + 96 ==>
      Handled(Bitmap(w % 64 * WINDOW_SIZE, bits), n % 0x1_0000, false).Ignored?
  {
    hide Window;
    LateExactly(w, bits, n);
  }
}
