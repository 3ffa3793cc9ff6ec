/** Sequence numbers and windows of a reliable channel.  Commands are numbered 1, 2, 3, ...
    without bound; only a number's low 16 bits travel, and the code works with windows of
    0x1000 consecutive numbers, of which 16 are distinguishable. */
module Windows {
  import opened Words

  const WINDOWS := 16
  const WINDOW_SIZE := 0x1000
  const FREE_WINDOWS := 8

  /** The 16 bits of a command's number. */
  function Seq(n: nat): uint16 { n % 0x1_0000 }

  /** The window of a command's number, and of its 16 bits. */
  function Window(n: nat): nat { n / WINDOW_SIZE }

  lemma WindowOfSeq(n: nat)
    ensures Window(Seq(n)) == Window(n) % WINDOWS
    ensures Seq(n) % WINDOW_SIZE == n % WINDOW_SIZE
  {
    var q, r := n / 0x1_0000, n % 0x1_0000;
    assert n == (q * WINDOWS + r / WINDOW_SIZE) * WINDOW_SIZE + r % WINDOW_SIZE;
    assert n / WINDOW_SIZE == q * WINDOWS + r / WINDOW_SIZE;
  }

  /** The receiver's window test for a sequence number: its window, counted upwards from the
      receiver's own even when the number has wrapped around. */
  function Reached(sequence: uint16, incoming: uint16): nat {
    sequence / WINDOW_SIZE + (if sequence < incoming then WINDOWS else 0)
  }

  predicate Accepts(sequence: uint16, incoming: uint16) {
    !(Reached(sequence, incoming) < incoming / WINDOW_SIZE
      || Reached(sequence, incoming) >= incoming / WINDOW_SIZE + FREE_WINDOWS - 1)
  }

  predicate RefusesAck(sequence: uint16, incoming: uint16) {
    incoming / WINDOW_SIZE + FREE_WINDOWS - 1 <= Reached(sequence, incoming) <= incoming / WINDOW_SIZE + FREE_WINDOWS
  }

  /** How far ahead of the receiver a near number's 16 bits seem to be. */
  lemma ReachedIs(n: nat, r: nat)
    requires Window(r) <= Window(n) + 8 && Window(n) <= Window(r) + 7
    ensures Reached(Seq(n), Seq(r)) == Seq(r) / WINDOW_SIZE
      + (if n >= r then Window(n) - Window(r) else Window(n) - Window(r) + WINDOWS)
  {
    WindowOfSeq(n);
    WindowOfSeq(r);
    SameBlock(n, r);
    Residues(Window(n), Window(r));
  }

  lemma Residues(a: nat, b: nat)
    requires -8 <= a - b <= 7
    ensures a % 16 == b % 16 + (a - b)
      + (if a % 16 >= b % 16 then (if a < b then 16 else 0) else (if a >= b then -16 else 0))
  {
    var qa, ra, qb, rb := a / 16, a % 16, b / 16, b % 16;
    assert a - b == 16 * (qa - qb) + ra - rb;
    assert -1 <= qa - qb <= 1;
  }

  lemma SameBlock(n: nat, r: nat)
    ensures Window(n) == Window(r) ==> (Seq(n) < Seq(r) <==> n < r)
    ensures Window(n) % 16 < Window(r) % 16 ==> Seq(n) < Seq(r)
    ensures Window(n) < Window(r) ==> n < r
    ensures n < r ==> Window(n) <= Window(r)
  {
    WindowOfSeq(n);
    WindowOfSeq(r);
    SplitWindow(Seq(n));
    SplitWindow(Seq(r));
    SplitWindow(n);
    SplitWindow(r);
  }

  lemma SplitWindow(n: nat)
    ensures n == Window(n) * WINDOW_SIZE + n % WINDOW_SIZE && 0 <= n % WINDOW_SIZE < WINDOW_SIZE
  {
  }

  /** The 16-bit tests are exact for every number from 8 windows behind the receiver to 7
      ahead: it is taken for new just when it is new and within 7 windows (or in the
      receiver's own window), and its acknowledgement is refused just when it is 7 windows
      ahead, or 8 behind. */
  lemma TestsExact(n: nat, r: nat)
    requires Window(r) <= Window(n) + 8 && Window(n) <= Window(r) + 7
    ensures Accepts(Seq(n), Seq(r)) <==> r <= n && Window(n) <= Window(r) + 6
    ensures RefusesAck(Seq(n), Seq(r)) <==> Window(n) == Window(r) + 7 || Window(r) == Window(n) + 8
    ensures Seq(n) == Seq(r) <==> n == r
  {
    ReachedIs(n, r);
    SameBlock(n, r);
    WindowOfSeq(n);
    WindowOfSeq(r);
    SplitWindow(n);
    SplitWindow(r);
    if Seq(n) == Seq(r) {
      assert Window(n) % 16 == Window(r) % 16;
      Residues(Window(n), Window(r));
    }
  }

  /** A command ten windows old would be taken for a new one: without a bound on how old
      messages become, the tests are not exact. */
  lemma StaleAccepted(n: nat, r: nat)
    requires Window(r) == Window(n) + 10
    ensures n < r && Accepts(Seq(n), Seq(r))
  {
    WindowOfSeq(n);
    WindowOfSeq(r);
    SplitWindow(n);
    SplitWindow(r);
    SplitWindow(Seq(n));
    SplitWindow(Seq(r));
  }

  /** A number the receiver has passed is taken for a new one just when it is ten windows old
      or older. */
  lemma LateExact(n: nat, r: nat)
    requires n < r && Window(r) <= Window(n) + 15
    ensures Accepts(Seq(n), Seq(r)) <==> Window(r) >= Window(n) + 10
    ensures Seq(n) != Seq(r)
  {
    if Window(r) <= Window(n) + 8 {
      TestsExact(n, r);
    } else {
      WindowOfSeq(n);
      WindowOfSeq(r);
      SameBlock(n, r);
      LateResidues(Window(n), Window(r));
    }
  }

  lemma LateResidues(a: nat, b: nat)
    requires 9 <= b - a <= 15
    ensures a % 16 != b % 16
    ensures a % 16 + (if a % 16 < b % 16 then 16 else 0) - b % 16 == 16 - (b - a)
  {
    var qa, ra, qb, rb := a / 16, a % 16, b / 16, b % 16;
    assert b - a == 16 * (qb - qa) + rb - ra;
    assert 0 <= qb - qa <= 1;
  }

  // ----- the sender's windows -----

  /** The windows from `w` on that must be unused before window `w` is begun. */
  function Mask(w: nat): (m: set<nat>)
    requires w < WINDOWS
  {
    set k | 0 <= k < WINDOWS && InMask(w, k)
  }

  predicate InMask(w: nat, k: nat) { (k - w) % WINDOWS < FREE_WINDOWS }

  /** The code's expression for the mask, on 32-bit words. */
  function MaskWord(w: bv32): bv32
    requires w < 16
  {
    var free := ((1 as bv32) << 8) - 1;
    (free << w) | (free >> (16 - w))
  }

  /** It has exactly the bits of `Mask`: the test here is `InMask`, on words. */
  lemma MaskBits(w: bv32, k: bv32)
    requires w < 16 && k < 16
    ensures (MaskWord(w) >> k) & 1 == 1 <==> (k - w) & 15 < 8
  {
  }

  /** A sequence number stands for one number only, among those in 9 consecutive windows. */
  lemma SeqUnique(a: nat, b: nat)
    requires Window(a) <= Window(b) + 8 && Window(b) <= Window(a) + 8
    requires Seq(a) == Seq(b)
    ensures a == b
  {
    WindowOfSeq(a);
    WindowOfSeq(b);
    SplitWindow(a);
    SplitWindow(b);
    var d := Window(a) - Window(b);
    assert Window(a) % WINDOWS == Window(b) % WINDOWS;
    SameResidue(Window(a), Window(b));
  }

  lemma SameResidue(a: nat, b: nat)
    requires a % WINDOWS == b % WINDOWS && a <= b + 8 && b <= a + 8
    ensures a == b
  {
    var qa, qb := a / WINDOWS, b / WINDOWS;
    assert a - b == WINDOWS * (qa - qb);
  }
}
