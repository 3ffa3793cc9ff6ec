/** Why the walk down a context's tree, which raises sums as it goes, ends with the tree of
    the context that has counted one value more. */
module ContextWalks {
  import opened Words
  import opened Contexts
  import opened SymbolTrees

  const SLOTS := 4096

  /** From `s0` to `s`, counting changed no more than the node fields of `t`'s nodes, the
      tree offset of context `c`, and slot `top`. */
  ghost predicate OnlyTree(s0: Arena, s: Arena, c: int, t: Tree, top: int) {
    && |s| == |s0|
    && (forall i :: 0 <= i < |s| && i != top ==> s[i].value == s0[i].value)
    && (forall i :: 0 <= i < |s| && i != top && !IsNode(s0, t, i) ==> SameNode(s0[i], s[i]))
    && (forall i :: 0 <= i < |s| && i != top && i != c ==> SameContext(s0[i], s[i]))
    && (0 <= c < |s| && c != top ==> SameContext(s0[c].(symbols := 0), s[c].(symbols := 0)))
  }

  /** What counting `v` in context `c` leaves behind: the tree `t1`, in which `v` is at
      `symbol`, a new slot if `v` is new. */
  ghost predicate Counts(s0: Arena, s: Arena, c: int, t: Tree, t1: Tree, v: uint8, update: uint8, slot: int,
                         symbol: int)
    requires |t.counts| == VALUES
  {
    && Holds(s, c, t1)
    && t1.counts == t.counts[v := t.counts[v] + update]
    && OnlyTree(s0, s, c, t, slot)
    && if v in t.at then symbol == t.at[v] && t1.at == t.at
       else symbol == slot && t1.at == t.at[v := slot] && 0 <= slot < |s| && s[slot] == NewSymbol(v, update)
  }

  lemma SumBefore(counts: seq<nat>, lo: nat, v: nat)
    requires lo <= v < |counts|
    ensures Sum(counts, 0, v) == Sum(counts, 0, lo) + Sum(counts, lo, v + 1) - counts[v]
  {
    SumSplit(counts, 0, lo, v);
  }

  lemma PlantedCounts(s: Arena, c: int, t: Tree, v: uint8, update: uint8, slot: int) returns (t1: Tree)
    requires Holds(s, c, t) && s[c].symbols == 0 && 0 < update && c < slot < |s| <= TWO_16
    ensures |t.counts| == VALUES
    ensures Counts(s, Planted(s, v, update, slot, c), c, t, t1, v, update, slot, slot)
    ensures v !in t.at && t.counts[v] == 0 && Sum(t.counts, 0, v) == 0
  {
    hide NodeOk, Linked, Apart;
    PlantedHolds(s, c, t, v, update, slot);
    t1 := Inserted(t, v, update, slot, 0, VALUES);
    SumOfZeros(t.counts, 0, v);
    assert t.counts[v] == 0;
    hide Holds;
  }

  lemma GrownCounts(s0: Arena, s: Arena, c: int, t: Tree, v: uint8, update: uint8, slot: int,
                    x: int, lo: int, hi: int, left: bool)
    requires Holds(s0, c, t) && x in t.at && 0 <= t.at[x] < |s0| && Gap(s0, t, x, lo, hi) && left == (hi == x)
    requires 0 <= lo <= v < hi <= VALUES && 0 < update && t.at[x] < slot < |s0| <= TWO_16
    requires forall u {:trigger t.at[u]} :: u in t.at ==> t.at[u] < slot
    requires Walked(s0, s, t, v, update, lo, hi)
    ensures |s| == |s0|
    ensures Counts(s0, Grown(s, v, update, slot, t.at[x], left), c, t, Inserted(t, v, update, slot, lo, hi), v, update,
                   slot, slot)
    ensures v !in t.at && Sum(t.counts, 0, v) == Sum(t.counts, 0, lo) && t.counts[v] == 0
    ensures Sum(t.counts, lo, hi) == 0
  {
    hide NodeOk, Linked, Apart, Walked;
    GrownHolds(s0, s, c, t, v, update, slot, x, lo, hi, left);
    WalkedKeeps(s0, s, t, v, update, lo, hi);
    NodeFacts(s0, c, t, x);
    GapFree(s0, c, t, x, lo, hi);
    SumSplit(t.counts, 0, lo, v);
    SumOfZeros(t.counts, lo, v);
    SumOfZeros(t.counts, lo, hi);
    assert t.counts[v] == 0;
    hide Holds, ShapeOk, NoneCounted;
  }

  lemma HitCounts(s0: Arena, s: Arena, c: int, t: Tree, v: uint8, update: uint8, slot: int)
    requires Holds(s0, c, t) && v in t.at && Walked(s0, s, t, v, update, t.lo[v], t.hi[v])
    requires t.counts[v] + update < 0x100 && 0 <= t.at[v] < |s0| && s0[t.at[v]].under + update < TWO_16
    ensures s[t.at[v]] == s0[t.at[v]] && s0[t.at[v]].count == t.counts[v]
    ensures Counts(s0, WithCount(s, t.at[v], update), c, t, Raised(t, v, update), v, update, slot, t.at[v])
  {
    hide NodeOk, Linked, NoneCounted, Apart, Walked;
    HitHolds(s0, s, c, t, v, update);
    WalkedKeeps(s0, s, t, v, update, t.lo[v], t.hi[v]);
    NodeFacts(s0, c, t, v);
    hide Holds;
  }

  // ----- the walk towards a value, one step at a time -----

  /** Counting any value in `t` fits the field widths, and slot `slot` is free for a new node. */
  ghost predicate Room(s: Arena, c: int, t: Tree, update: uint8, slot: int) {
    && Holds(s, c, t)
    && |s| == SLOTS && c < slot < SLOTS
    && (forall u {:trigger t.at[u]} :: u in t.at ==> t.at[u] < slot)
    && 0 < update && (forall v :: 0 <= v < VALUES ==> t.counts[v] + update < 0x100)
    && Sum(t.counts, 0, |t.counts|) + update < TWO_16
  }

  lemma RoomFacts(s: Arena, c: int, t: Tree, update: uint8, slot: int)
    requires Room(s, c, t, update, slot)
    ensures |t.counts| == VALUES == 0x100 && Holds(s, c, t) && |s| == SLOTS && c < slot
    ensures Sum(t.counts, 0, 0) == 0 && Under(t.counts, 0, |t.counts|) < TWO_16
  {
    hide NodeOk, NoneCounted, Apart;
  }

  lemma UnderIs(counts: seq<nat>, minimum: Minimum, v: nat)
    requires v <= |counts|
    ensures Under(counts, minimum, v) == Sum(counts, 0, v) + (if minimum == 0 then 0 else v)
  {
  }

  /** The walk towards `v` is at the node of `x`. */
  ghost predicate Walking(s0: Arena, s: Arena, c: int, t: Tree, v: uint8, update: uint8, slot: int, x: int) {
    && Room(s0, c, t, update, slot)
    && x in t.at && t.lo[x] <= v < t.hi[x]
    && Walked(s0, s, t, v, update, t.lo[x], t.hi[x])
  }

  function Lifted(s: Arena, node: int, update: uint8): Arena
    requires 0 <= node < |s| && s[node].under + update < TWO_16
  {
    s[node := s[node].(under := s[node].under + update)]
  }

  lemma WalkBegins(s: Arena, c: int, t: Tree, v: uint8, update: uint8, slot: int) returns (x: int)
    requires Room(s, c, t, update, slot) && s[c].symbols != 0
    ensures Walking(s, s, c, t, v, update, slot, x)
    ensures x in t.at && t.at[x] == c + s[c].symbols && x in t.lo && t.lo[x] == 0
  {
    hide NodeOk, Apart, Linked, NoneCounted;
    x := TopNode(s, c, t);
    WalkStarts(s, t, v, update);
  }

  lemma WalkingFacts(s0: Arena, s: Arena, c: int, t: Tree, v: uint8, update: uint8, slot: int, x: int)
    requires Walking(s0, s, c, t, v, update, slot, x)
    ensures x in t.at && x in t.lo && x in t.hi && 0 <= t.lo[x] <= x < t.hi[x] <= VALUES == |t.counts|
    ensures |s| == SLOTS && 0 < t.at[x] < slot && s[t.at[x]] == s0[t.at[x]] && s[t.at[x]].value == x
    ensures s[t.at[x]].under + update < TWO_16
    ensures s[t.at[x]].count == t.counts[x] <= s[t.at[x]].under == Sum(t.counts, t.lo[x], x + 1)
  {
    hide NodeOk, Apart, Linked, NoneCounted;
    NodeFacts(s0, c, t, x);
    UnderBounded(t, x);
    WalkedHere(s0, s, t, v, update, x);
  }

  lemma GoLeft(s0: Arena, s: Arena, c: int, t: Tree, v: uint8, update: uint8, slot: int, x: int) returns (y: int)
    requires Walking(s0, s, c, t, v, update, slot, x) && v < x
    requires 0 <= t.at[x] < |s| && s[t.at[x]].left != 0 && s[t.at[x]].under + update < TWO_16
    ensures Walking(s0, Lifted(s, t.at[x], update), c, t, v, update, slot, y)
    ensures y in t.at && t.at[y] == t.at[x] + s[t.at[x]].left
    ensures {x, y} <= t.lo.Keys && {x, y} <= t.hi.Keys && t.lo[y] == t.lo[x] && t.lo[x] <= t.hi[y] < t.hi[x]
  {
    hide NodeOk, Apart, Linked, NoneCounted;
    WalkingFacts(s0, s, c, t, v, update, slot, x);
    WalkLeft(s0, s, t, v, update, x);
    y := LeftChild(s0, c, t, x);
    hide Walked, Holds;
  }

  lemma GoRight(s0: Arena, s: Arena, c: int, t: Tree, v: uint8, update: uint8, slot: int, x: int) returns (y: int)
    requires Walking(s0, s, c, t, v, update, slot, x) && v > x
    requires 0 <= t.at[x] < |s| && s[t.at[x]].right != 0
    ensures Walking(s0, s, c, t, v, update, slot, y)
    ensures y in t.at && t.at[y] == t.at[x] + s[t.at[x]].right
    ensures {x, y} <= t.lo.Keys && {x, y} <= t.hi.Keys && t.lo[x] < t.lo[y] == x + 1 <= t.hi[y] == t.hi[x] <= |t.counts|
    ensures Sum(t.counts, 0, t.lo[y]) == Sum(t.counts, 0, t.lo[x]) + Sum(t.counts, t.lo[x], x + 1)
  {
    hide NodeOk, Apart, Linked, NoneCounted;
    WalkingFacts(s0, s, c, t, v, update, slot, x);
    WalkRight(s0, s, t, v, update, x);
    y := RightChild(s0, c, t, x);
    SumSplit(t.counts, 0, t.lo[x], x + 1);
    hide Walked, Holds;
  }

  lemma StopLeft(s0: Arena, s: Arena, c: int, t: Tree, v: uint8, update: uint8, slot: int, x: int) returns (t1: Tree)
    requires Walking(s0, s, c, t, v, update, slot, x) && v < x
    requires 0 <= t.at[x] < slot < |s| == SLOTS && s[t.at[x]].left == 0 && s[t.at[x]].under + update < TWO_16
    ensures |t.counts| == VALUES
    ensures Counts(s0, Grown(Lifted(s, t.at[x], update), v, update, slot, t.at[x], true), c, t, t1, v, update, slot,
                   slot)
    ensures v !in t.at && t.counts[v] == 0
    ensures x in t.lo && 0 <= t.lo[x] <= x < |t.counts|
    ensures Sum(t.counts, 0, v) == Sum(t.counts, 0, t.lo[x]) && Sum(t.counts, t.lo[x], x) == 0
  {
    hide NodeOk, Apart, Linked, NoneCounted, Counts;
    WalkingFacts(s0, s, c, t, v, update, slot, x);
    WalkLeft(s0, s, t, v, update, x);
    hide Walked;
    GrownCounts(s0, Lifted(s, t.at[x], update), c, t, v, update, slot, x, t.lo[x], x, true);
    t1 := Inserted(t, v, update, slot, t.lo[x], x);
  }

  lemma StopRight(s0: Arena, s: Arena, c: int, t: Tree, v: uint8, update: uint8, slot: int, x: int) returns (t1: Tree)
    requires Walking(s0, s, c, t, v, update, slot, x) && v > x
    requires 0 <= t.at[x] < slot < |s| == SLOTS && s[t.at[x]].right == 0
    ensures |t.counts| == VALUES
    ensures Counts(s0, Grown(s, v, update, slot, t.at[x], false), c, t, t1, v, update, slot, slot)
    ensures v !in t.at && t.counts[v] == 0
    ensures x in t.lo && 0 <= t.lo[x] <= x < |t.counts|
    ensures Sum(t.counts, 0, v) == Sum(t.counts, 0, t.lo[x]) + Sum(t.counts, t.lo[x], x + 1)
    ensures Sum(t.counts, 0, v) == Sum(t.counts, 0, x + 1)
  {
    hide NodeOk, Apart, Linked, NoneCounted, Counts;
    WalkingFacts(s0, s, c, t, v, update, slot, x);
    WalkRight(s0, s, t, v, update, x);
    hide Walked;
    GrownCounts(s0, s, c, t, v, update, slot, x, x + 1, t.hi[x], false);
    SumSplit(t.counts, 0, t.lo[x], x + 1);
    t1 := Inserted(t, v, update, slot, x + 1, t.hi[x]);
  }

  lemma StopHit(s0: Arena, s: Arena, c: int, t: Tree, v: uint8, update: uint8, slot: int)
    requires Walking(s0, s, c, t, v, update, slot, v)
    requires 0 <= t.at[v] < |s| && s[t.at[v]].under + update < TWO_16
    ensures |t.counts| == VALUES && s[t.at[v]].count + update < 0x100
    ensures Counts(s0, WithCount(s, t.at[v], update), c, t, Raised(t, v, update), v, update, slot, t.at[v])
    ensures v in t.at && v in t.lo && 0 <= t.lo[v] <= v
    ensures Sum(t.counts, 0, v) == Sum(t.counts, 0, t.lo[v]) + Sum(t.counts, t.lo[v], v + 1) - t.counts[v]
  {
    hide NodeOk, Apart, Linked, NoneCounted, Counts;
    WalkingFacts(s0, s, c, t, v, update, slot, v);
    HitCounts(s0, s, c, t, v, update, slot);
    SumBefore(t.counts, t.lo[v], v);
  }

  // ----- looking a code up -----

  /** The value a code leads to: the one whose share contains it, or the last one. */
  ghost function Sought(counts: seq<nat>, minimum: Minimum, code: nat): (v: nat)
    requires |counts| == VALUES
    ensures v < 0x100
  {
    if code < Under(counts, minimum, |counts|) then Locate(counts, minimum, code) else VALUES - 1
  }

  /** Comparing a code with the bounds of the share of `x` tells on which side its value is. */
  lemma CodeAgainst(counts: seq<nat>, minimum: Minimum, lo: nat, x: nat, code: nat)
    requires |counts| == VALUES && lo <= x < VALUES
    ensures var end := Sum(counts, 0, lo) + Sum(counts, lo, x + 1) + (if minimum == 0 then 0 else x + 1);
      var v := Sought(counts, minimum, code);
      && end - counts[x] - minimum == Under(counts, minimum, x)
      && (code >= end ==> x < v || (x == v && code >= Under(counts, minimum, |counts|)))
      && (code < end - counts[x] - minimum ==> v < x)
      && (code < end ==> code < Under(counts, minimum, |counts|))
      && (code >= Under(counts, minimum, |counts|) ==> v == VALUES - 1)
      && (end - counts[x] - minimum <= code < end ==> v == x)
      && (Under(counts, minimum, |counts|) < TWO_16 ==> end < 0x1_0000)
  {
    SumSplit(counts, 0, lo, x);
    UnderMonotone(counts, minimum, x, VALUES);
    UnderMonotone(counts, minimum, x + 1, VALUES);
    if code < Under(counts, minimum, |counts|) {
      var v := Locate(counts, minimum, code);
      if v < x {
        UnderMonotone(counts, minimum, v, x);
      } else if x < v {
        UnderMonotone(counts, minimum, x, v);
      }
    }
  }

  /** A node with a right child leaves room above its value. */
  lemma RightMeansMore(s0: Arena, s: Arena, c: int, t: Tree, v: uint8, update: uint8, slot: int, x: int)
    requires Walking(s0, s, c, t, v, update, slot, x)
    requires 0 <= t.at[x] < |s| && s[t.at[x]].right != 0
    ensures x < VALUES - 1
  {
    hide NodeOk, Apart, Linked, NoneCounted, Walked;
    WalkingFacts(s0, s, c, t, v, update, slot, x);
    var y := RightChild(s0, c, t, x);
    assert t.lo[y] < t.hi[y];
  }

  /** An empty subcontext's codes name nothing. */
  lemma NothingThere(s: Arena, c: int, t: Tree)
    requires Holds(s, c, t) && s[c].symbols == 0
    ensures Under(t.counts, 0, |t.counts|) == 0
  {
    hide Apart, NodeOk;
    SumOfZeros(t.counts, 0, |t.counts|);
  }

  /** In a subcontext, running off the tree means the code names nothing. */
  lemma NothingRight(s0: Arena, s: Arena, c: int, t: Tree, v: uint8, update: uint8, slot: int, x: int, code: nat)
    requires Walking(s0, s, c, t, v, update, slot, x) && |t.counts| == VALUES && v == Sought(t.counts, 0, code)
    requires 0 <= t.at[x] < slot < |s| == SLOTS && s[t.at[x]].right == 0
    requires v > x || code >= Under(t.counts, 0, |t.counts|)
    ensures code >= Under(t.counts, 0, |t.counts|)
  {
    hide Walking, Counts;
    if v > x {
      var _ := StopRight(s0, s, c, t, v, update, slot, x);
    }
  }

  lemma NothingLeft(s0: Arena, s: Arena, c: int, t: Tree, v: uint8, update: uint8, slot: int, x: int, code: nat)
    requires Walking(s0, s, c, t, v, update, slot, x) && |t.counts| == VALUES && v == Sought(t.counts, 0, code)
    requires 0 <= t.at[x] < slot < |s| == SLOTS && s[t.at[x]].left == 0 && s[t.at[x]].under + update < TWO_16
    requires v < x
    ensures code >= Under(t.counts, 0, |t.counts|)
  {
    hide Walking, Counts;
    var _ := StopLeft(s0, s, c, t, v, update, slot, x);
  }

  /** `code` was looked up: it lies in the share of `value`, which is `count` codes from `under`. */
  ghost predicate Shares(counts: seq<nat>, minimum: Minimum, code: nat, value: nat, under: nat, count: nat) {
    && |counts| == VALUES && code < Under(counts, minimum, |counts|)
    && value == Locate(counts, minimum, code)
    && under == Under(counts, minimum, value) && count == counts[value] + minimum
  }

  /** The share of a value the root has not counted is a single code: the sum of the
      counts below it, plus the value itself. */
  lemma NewShare(counts: seq<nat>, below: nat, code: nat, v: nat)
    requires |counts| == VALUES && code < Under(counts, 1, |counts|) && v == Sought(counts, 1, code)
    requires counts[v] == 0 && Sum(counts, 0, v) == below
    ensures code == below + v && Shares(counts, 1, code, v, code, 1)
  {
  }

  /** The values the decoder works out for a code in one of the root's gaps. */
  lemma RootAlone(s: Arena, c: int, t: Tree, code: nat, v: nat)
    requires Holds(s, c, t) && s[c].symbols == 0
    requires code < Under(t.counts, 1, |t.counts|) && v == Sought(t.counts, 1, code)
    ensures code == v && Shares(t.counts, 1, code, v, code, 1)
  {
    hide Apart, NodeOk;
    SumOfZeros(t.counts, 0, |t.counts|);
    SumOfZeros(t.counts, 0, v);
    assert t.counts[v] == 0;
    NewShare(t.counts, 0, code, v);
  }

  lemma RootRight(s0: Arena, s: Arena, c: int, t: Tree, v: uint8, update: uint8, slot: int, x: int, code: nat)
    requires Walking(s0, s, c, t, v, update, slot, x) && v > x
    requires 0 <= t.at[x] < slot < |s| == SLOTS && s[t.at[x]].right == 0
    requires |t.counts| == VALUES && code < Under(t.counts, 1, |t.counts|) && v == Sought(t.counts, 1, code)
    ensures x in t.lo && 0 <= t.lo[x] <= x < VALUES
    ensures code == Sum(t.counts, 0, t.lo[x]) + Sum(t.counts, t.lo[x], x + 1) + v
    ensures Shares(t.counts, 1, code, v, code, 1)
  {
    hide Walking, Counts;
    var _ := StopRight(s0, s, c, t, v, update, slot, x);
    NewShare(t.counts, Sum(t.counts, 0, v), code, v);
  }

  lemma RootLeft(s0: Arena, s: Arena, c: int, t: Tree, v: uint8, update: uint8, slot: int, x: int, code: nat)
    requires Walking(s0, s, c, t, v, update, slot, x) && v < x
    requires 0 <= t.at[x] < slot < |s| == SLOTS && s[t.at[x]].left == 0 && s[t.at[x]].under + update < TWO_16
    requires |t.counts| == VALUES && code < Under(t.counts, 1, |t.counts|) && v == Sought(t.counts, 1, code)
    ensures x in t.lo && 0 <= t.lo[x] <= x < VALUES
    ensures code == Sum(t.counts, 0, t.lo[x]) + v && Sum(t.counts, t.lo[x], x + 1) == t.counts[x]
    ensures Shares(t.counts, 1, code, v, code, 1)
  {
    hide Walking, Counts;
    var _ := StopLeft(s0, s, c, t, v, update, slot, x);
    NewShare(t.counts, Sum(t.counts, 0, v), code, v);
    SumBefore(t.counts, t.lo[x], x);
  }

  lemma FoundShare(counts: seq<nat>, minimum: Minimum, code: nat, v: nat)
    requires |counts| == VALUES && code < Under(counts, minimum, |counts|) && v == Sought(counts, minimum, code)
    ensures Shares(counts, minimum, code, v, Under(counts, minimum, v), counts[v] + minimum)
    ensures v == Locate(counts, minimum, code)
  {
  }
}
