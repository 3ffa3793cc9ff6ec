/** Halving a context's counts in place: a recursion on left children inside a loop over
    right ones, which recomputes every sum on the way back. */
module Rescaling {
  import opened Words
  import opened Contexts
  import opened SymbolTrees

  function HalvedTree(t: Tree): Tree { t.(counts := HalveAll(t.counts)) }

  ghost predicate HalvedNode(n: Symbol, m: Symbol, t: Tree, w: int)
    requires ShapeOk(t) && w in t.at
  {
    && SameContext(n, m) && m.value == n.value && m.left == n.left && m.right == n.right
    && m.count == Halve(t.counts[w])
    && m.under == Sum(HalveAll(t.counts), t.lo[w], w + 1)
  }

  /** From `s0` to `s`, exactly the nodes of the values in `[lo, hi)` are halved. */
  ghost predicate HalvedIn(s0: Arena, s: Arena, t: Tree, lo: int, hi: int)
    requires ShapeOk(t)
  {
    && |s| == |s0|
    && forall i {:trigger s[i]} {:trigger s0[i]} :: 0 <= i < |s| ==>
      if IsNode(s0, t, i) && lo <= s0[i].value < hi then HalvedNode(s0[i], s[i], t, s0[i].value) else s[i] == s0[i]
  }

  /** The nodes of the values in `[lo, hi)` are still right. */
  ghost predicate RangeOk(s: Arena, t: Tree, lo: int, hi: int)
    requires ShapeOk(t)
  {
    forall v {:trigger NodeOk(s, t, v)} :: v in t.at && lo <= v < hi ==> NodeOk(s, t, v)
  }

  lemma WholeRange(s: Arena, c: int, t: Tree, x: int)
    requires Holds(s, c, t) && x in t.at && t.lo[x] == 0 && t.hi[x] == VALUES
    ensures RangeOk(s, t, t.lo[x], t.hi[x])
  {
    hide NodeOk;
  }

  /** A subtree's nodes stay right when they are not touched. */
  lemma RangeFramed(s0: Arena, s: Arena, t: Tree, y: int)
    requires ShapeOk(t) && y in t.at && RangeOk(s0, t, t.lo[y], t.hi[y]) && |s| == |s0|
    requires forall v :: v in t.at && t.lo[y] <= v < t.hi[y] && 0 <= t.at[v] < |s| ==> SameNode(s0[t.at[v]], s[t.at[v]])
    ensures RangeOk(s, t, t.lo[y], t.hi[y])
  {
    hide Linked, NoneCounted;
    forall v {:trigger NodeOk(s, t, v)} | v in t.at && t.lo[y] <= v < t.hi[y] ensures NodeOk(s, t, v) {
      InsideRange(t, y, v);
      assert NodeOk(s0, t, v);
      var n := s0[t.at[v]];
      if n.left != 0 {
        LinkInside(s0, s, t, y, t.at[v] + n.left, t.lo[v], v);
      }
      if n.right != 0 {
        LinkInside(s0, s, t, y, t.at[v] + n.right, v + 1, t.hi[v]);
      }
    }
    hide NodeOk;
  }

  lemma InsideRange(t: Tree, y: int, v: int)
    requires ShapeOk(t) && y in t.at && v in t.at && t.lo[y] <= v < t.hi[y]
    ensures t.lo[y] <= t.lo[v] && t.hi[v] <= t.hi[y]
  {
    assert v != y ==> Apart(t, y, v);
  }

  lemma LinkInside(s0: Arena, s: Arena, t: Tree, y: int, j: int, lo: int, hi: int)
    requires ShapeOk(t) && y in t.at && |s| == |s0|
    requires forall v :: v in t.at && t.lo[y] <= v < t.hi[y] && 0 <= t.at[v] < |s| ==> SameNode(s0[t.at[v]], s[t.at[v]])
    requires Linked(s0, t, j, lo, hi) && t.lo[y] <= lo && hi <= t.hi[y]
    ensures Linked(s, t, j, lo, hi)
  {
    hide Apart;
  }

  /** All nodes halved: the arena holds the halved tree. */
  lemma HalvedHolds(s0: Arena, s: Arena, c: int, t: Tree)
    requires Holds(s0, c, t) && HalvedIn(s0, s, t, 0, VALUES)
    ensures Holds(s, c, HalvedTree(t))
  {
    var t1 := HalvedTree(t);
    HalvedShape(t);
    forall v {:trigger NodeOk(s, t1, v)} | v in t1.at ensures NodeOk(s, t1, v) {
      HalvedNodeOk(s0, s, c, t, v);
    }
    HalvedSameValues(s0, s, c, t);
    hide NodeOk, Linked, NoneCounted, Apart;
    assert s[c].symbols == s0[c].symbols;
    if s[c].symbols == 0 {
      NoneHalved(t, 0, VALUES);
    } else {
      LinkKept(s0, s, t, t1, c + s[c].symbols, 0, VALUES);
    }
  }

  lemma HalvedShape(t: Tree)
    requires ShapeOk(t)
    ensures Extends(HalvedTree(t), t)
  {
    var t1 := HalvedTree(t);
    forall v, w {:trigger Apart(t1, v, w)} | v in t1.at && w in t1.at && v != w ensures Apart(t1, v, w) {
      assert Apart(t, v, w);
    }
  }

  lemma NoneHalved(t: Tree, lo: int, hi: int)
    requires ShapeOk(t) && ShapeOk(HalvedTree(t)) && NoneCounted(t, lo, hi)
    ensures NoneCounted(HalvedTree(t), lo, hi)
  {
  }

  lemma HalvedSameValues(s0: Arena, s: Arena, c: int, t: Tree)
    requires Holds(s0, c, t) && HalvedIn(s0, s, t, 0, VALUES)
    ensures SameValues(s0, s, t)
  {
    hide ShapeOk, NodeOk;
  }

  lemma HalvedNodeOk(s0: Arena, s: Arena, c: int, t: Tree, v: int)
    requires Holds(s0, c, t) && HalvedIn(s0, s, t, 0, VALUES) && v in t.at
    ensures ShapeOk(HalvedTree(t)) && NodeOk(s, HalvedTree(t), v)
  {
    hide Linked, NoneCounted, Apart;
    HalvedShape(t);
    HalvedSameValues(s0, s, c, t);
    NodeFacts(s0, c, t, v);
    assert NodeOk(s0, t, v);
    HalvedHere(s0, s, t, v);
    hide HalvedIn, Holds;
    var i := t.at[v];
    if s0[i].left == 0 {
      NoneHalved(t, t.lo[v], v);
    } else {
      LinkKept(s0, s, t, HalvedTree(t), i + s0[i].left, t.lo[v], v);
    }
    if s0[i].right == 0 {
      NoneHalved(t, v + 1, t.hi[v]);
    } else {
      LinkKept(s0, s, t, HalvedTree(t), i + s0[i].right, v + 1, t.hi[v]);
    }
  }

  lemma HalvedHere(s0: Arena, s: Arena, t: Tree, v: int)
    requires ShapeOk(t) && v in t.at && 0 <= t.at[v] < |s0| && s0[t.at[v]].value == v
    requires HalvedIn(s0, s, t, 0, VALUES)
    ensures HalvedNode(s0[t.at[v]], s[t.at[v]], t, v)
  {
    assert 0 <= t.lo[v] <= v < t.hi[v] <= VALUES;
    assert s0[t.at[v]] == s0[t.at[v]];
  }

  // ----- one pass of the loop -----

  /** The node's own count halved, its sum not yet complete. */
  function OwnHalved(s: Arena, node: int): Arena
    requires 0 <= node < |s|
  {
    var count := s[node].count - s[node].count / 2;
    s[node := s[node].(count := count, under := count)]
  }

  /** What is left of a subtree to halve: it is at the node of `y`, and everything in the
      subtree of `x` below the range of `y` is done. */
  ghost predicate HalvingAt(s0: Arena, s: Arena, t: Tree, x: int, y: int) {
    && ShapeOk(t) && x in t.at && y in t.at && |s0| == |s|
    && t.lo[x] <= t.lo[y] && t.hi[y] == t.hi[x]
    && RangeOk(s0, t, t.lo[x], t.hi[x])
    && HalvedIn(s0, s, t, t.lo[x], t.lo[y])
  }

  lemma HalvingStarts(s: Arena, t: Tree, x: int)
    requires ShapeOk(t) && x in t.at && RangeOk(s, t, t.lo[x], t.hi[x])
    ensures HalvingAt(s, s, t, x, x)
  {
  }

  /** The node the loop is at is untouched, and right. */
  lemma HalvingFacts(s0: Arena, s: Arena, t: Tree, x: int, y: int)
    requires HalvingAt(s0, s, t, x, y)
    ensures {x, y} <= t.lo.Keys && {x, y} <= t.hi.Keys && |t.counts| == VALUES
    ensures 0 <= t.lo[x] <= t.lo[y] <= y < t.hi[y] == t.hi[x] <= VALUES
    ensures 0 < t.at[y] < |s| && s[t.at[y]] == s0[t.at[y]] && s[t.at[y]].value == y
    ensures s[t.at[y]].count == t.counts[y]
    ensures NodeOk(s0, t, y) && Sum(HalveAll(t.counts), t.lo[x], t.lo[x]) == 0
  {
    hide Linked, NoneCounted, Apart;
    assert 0 <= t.lo[y] <= y < t.hi[y] <= VALUES;
    assert 0 <= t.lo[x] <= x < t.hi[x] <= VALUES;
    assert NodeOk(s0, t, y);
    assert s0[t.at[y]] == s0[t.at[y]];
  }

  /** The left subtree can be halved next. */
  lemma LeftReady(s0: Arena, s: Arena, t: Tree, x: int, y: int) returns (z: int)
    requires HalvingAt(s0, s, t, x, y)
    requires y in t.at && 0 <= t.at[y] < |s| && s[t.at[y]].left != 0
    ensures z in t.at && t.at[z] == t.at[y] + s[t.at[y]].left && {y, z} <= t.lo.Keys && {y, z} <= t.hi.Keys
    ensures t.lo[z] == t.lo[y] && t.hi[z] == y && t.lo[z] <= z < t.hi[z]
    ensures ShapeOk(t) && RangeOk(OwnHalved(s, t.at[y]), t, t.lo[z], t.hi[z])
  {
    HalvingFacts(s0, s, t, x, y);
    hide NoneCounted, Apart;
    var j := t.at[y] + s[t.at[y]].left;
    z := s0[j].value;
    assert Linked(s0, t, j, t.lo[y], y);
    assert 0 <= t.lo[z] <= z < t.hi[z];
    UntouchedAbove(s0, s, t, x, y, z);
  }

  lemma UntouchedAbove(s0: Arena, s: Arena, t: Tree, x: int, y: int, z: int)
    requires HalvingAt(s0, s, t, x, y) && z in t.at && t.lo[z] == t.lo[y] && t.hi[z] == y
    requires 0 <= t.at[y] < |s| && s0[t.at[y]].value == y
    ensures RangeOk(OwnHalved(s, t.at[y]), t, t.lo[z], t.hi[z])
  {
    hide Linked, NoneCounted, Apart;
    assert 0 <= t.lo[y] <= y < t.hi[y] <= VALUES;
    var s1 := OwnHalved(s, t.at[y]);
    forall v | v in t.at && t.lo[z] <= v < t.hi[z] && 0 <= t.at[v] < |s|
      ensures SameNode(s0[t.at[v]], s1[t.at[v]])
    {
      assert NodeOk(s0, t, v);
      assert s0[t.at[v]] == s0[t.at[v]];
    }
    assert RangeOk(s0, t, t.lo[z], t.hi[z]);
    hide NodeOk, RangeOk, HalvedIn;
    RangeFramed(s0, s1, t, z);
  }

  lemma {:induction false} HalvedNoLarger(counts: seq<nat>, lo: nat, hi: nat)
    requires lo <= hi <= |counts|
    ensures Sum(HalveAll(counts), lo, hi) <= Sum(counts, lo, hi)
    decreases hi
  {
    if lo < hi {
      HalvedNoLarger(counts, lo, hi - 1);
    }
  }

  lemma HalvedSums(counts: seq<nat>, first: nat, lo: nat, y: nat)
    requires first <= lo <= y < |counts|
    ensures Sum(HalveAll(counts), first, y + 1)
         == Sum(HalveAll(counts), first, lo) + Sum(HalveAll(counts), lo, y) + Halve(counts[y])
    ensures Sum(counts, 0, |counts|) < TWO_16 ==> Sum(HalveAll(counts), first, y + 1) < 0x1_0000
  {
    SumSplit(HalveAll(counts), first, lo, y + 1);
    HalvedNoLarger(counts, first, y + 1);
    SumSplit(counts, 0, first, |counts|);
    SumSplit(counts, first, y + 1, |counts|);
  }

  /** Without a left child there is nothing to halve to the left. */
  lemma LeftNothing(s0: Arena, s: Arena, t: Tree, x: int, y: int)
    requires HalvingAt(s0, s, t, x, y) && y in t.at && 0 <= t.at[y] < |s| && s[t.at[y]].left == 0
    ensures y in t.lo && 0 <= t.lo[y] <= y < |t.counts|
    ensures HalvedIn(OwnHalved(s, t.at[y]), OwnHalved(s, t.at[y]), t, t.lo[y], y)
    ensures Sum(HalveAll(t.counts), t.lo[y], y) == 0
  {
    HalvingFacts(s0, s, t, x, y);
    hide RangeOk, Apart, Linked, HalvedIn;
    assert NoneCounted(t, t.lo[y], y);
    SumOfZeros(HalveAll(t.counts), t.lo[y], y);
    NothingHalved(OwnHalved(s, t.at[y]), t, t.lo[y], y);
  }

  lemma NothingHalved(s: Arena, t: Tree, lo: int, hi: int)
    requires ShapeOk(t) && 0 <= lo <= hi <= VALUES && NoneCounted(t, lo, hi)
    ensures HalvedIn(s, s, t, lo, hi)
  {
    forall v | lo <= v < hi ensures v !in t.at {
      assert t.counts[v] == 0;
    }
  }

  /** The node whose left subtree was just halved still has its own halved count as sum. */
  lemma OwnUntouched(s: Arena, s2: Arena, t: Tree, y: int)
    requires ShapeOk(t) && y in t.at && y in t.lo && 0 <= t.at[y] < |s| && s[t.at[y]].value == y
    requires HalvedIn(OwnHalved(s, t.at[y]), s2, t, t.lo[y], y)
    ensures |s2| == |s| && s2[t.at[y]] == OwnHalved(s, t.at[y])[t.at[y]]
    ensures s2[t.at[y]].under == Halve(s[t.at[y]].count)
    ensures s2[t.at[y]].right == s[t.at[y]].right
  {
    assert s2[t.at[y]] == s2[t.at[y]];
  }

  /** One pass done: the left subtree and the node itself are halved, and the node's sum is
      the halved counts of both. */
  lemma PassDone(s0: Arena, s: Arena, s2: Arena, s3: Arena, t: Tree, x: int, y: int, below: nat)
    requires HalvingAt(s0, s, t, x, y) && y in t.at && 0 <= t.at[y] < |s| && s[t.at[y]].value == y
    requires HalvedIn(OwnHalved(s, t.at[y]), s2, t, t.lo[y], y)
    requires {y} <= t.lo.Keys && 0 <= t.lo[y] <= y < |t.counts| && below == Sum(HalveAll(t.counts), t.lo[y], y)
    requires s[t.at[y]].count == t.counts[y] && s2[t.at[y]].under + below < 0x1_0000
    requires s3 == s2[t.at[y] := s2[t.at[y]].(under := s2[t.at[y]].under + below)]
    ensures s3[t.at[y]].under == Sum(HalveAll(t.counts), t.lo[y], y + 1)
    ensures x in t.lo && HalvedIn(s0, s3, t, t.lo[x], y + 1)
  {
    hide RangeOk, Apart, NoneCounted;
    assert 0 <= t.lo[y] <= y < t.hi[y] <= VALUES;
    var node := t.at[y];
    var s1 := OwnHalved(s, node);
    assert s[node] == s[node] && s0[node] == s0[node] && s1[node] == s1[node];
    forall i {:trigger s3[i]} {:trigger s0[i]} | 0 <= i < |s3|
      ensures if IsNode(s0, t, i) && t.lo[x] <= s0[i].value < y + 1 then HalvedNode(s0[i], s3[i], t, s0[i].value)
        else s3[i] == s0[i]
    {
      assert s[i] == s[i] && s1[i] == s1[i] && s2[i] == s2[i];
    }
  }

  /** Nothing to the right: the subtree is done. */
  lemma RightDone(s0: Arena, s: Arena, s3: Arena, t: Tree, x: int, y: int)
    requires HalvingAt(s0, s, t, x, y) && y in t.at && 0 <= t.at[y] < |s| && s[t.at[y]].right == 0
    requires x in t.lo && HalvedIn(s0, s3, t, t.lo[x], y + 1)
    ensures x in t.hi && 0 <= t.lo[x] <= y < t.hi[x] <= |t.counts|
    ensures HalvedIn(s0, s3, t, t.lo[x], t.hi[x])
    ensures Sum(HalveAll(t.counts), t.lo[x], t.hi[x]) == Sum(HalveAll(t.counts), t.lo[x], y + 1)
  {
    HalvingFacts(s0, s, t, x, y);
    hide RangeOk, Apart, Linked;
    SumSplit(HalveAll(t.counts), t.lo[x], y + 1, t.hi[x]);
    SumOfZeros(HalveAll(t.counts), y + 1, t.hi[x]);
    assert NoneCounted(t, y + 1, t.hi[x]);
    forall v | y + 1 <= v < t.hi[x] ensures v !in t.at {
      assert t.counts[v] == 0;
    }
  }

  lemma RightNext(s0: Arena, s: Arena, s3: Arena, t: Tree, x: int, y: int) returns (z: int)
    requires HalvingAt(s0, s, t, x, y) && y in t.at && 0 <= t.at[y] < |s| && s[t.at[y]].right != 0
    requires x in t.lo && HalvedIn(s0, s3, t, t.lo[x], y + 1)
    ensures HalvingAt(s0, s3, t, x, z) && z in t.at && t.at[z] == t.at[y] + s[t.at[y]].right
    ensures {y, z} <= t.lo.Keys && {y, z} <= t.hi.Keys
    ensures t.lo[z] == y + 1 && t.lo[y] < t.lo[z] && t.hi[z] == t.hi[y]
  {
    HalvingFacts(s0, s, t, x, y);
    hide RangeOk, Apart, NoneCounted;
    var j := t.at[y] + s[t.at[y]].right;
    z := s0[j].value;
    assert Linked(s0, t, j, y + 1, t.hi[y]);
  }

  lemma HalvedKeeps(s0: Arena, s: Arena, t: Tree, lo: int, hi: int)
    requires ShapeOk(t) && HalvedIn(s0, s, t, lo, hi)
    ensures |s| == |s0|
    ensures forall i :: 0 <= i < |s| ==> SameContext(s0[i], s[i]) && s[i].value == s0[i].value
    ensures forall i :: 0 <= i < |s| && !IsNode(s0, t, i) ==> s[i] == s0[i]
  {
    forall i | 0 <= i < |s| ensures SameContext(s0[i], s[i]) && s[i].value == s0[i].value {
      assert s[i] == s[i];
    }
  }

  lemma NothingToHalve(s: Arena, c: int, t: Tree)
    requires Holds(s, c, t) && s[c].symbols == 0
    ensures Holds(s, c, HalvedTree(t)) && Sum(HalveAll(t.counts), 0, |t.counts|) == 0
  {
    ShapeRange(t);
    assert NoneCounted(t, 0, VALUES);
    assert forall u :: u !in t.at;
    assert forall i :: 0 <= i < |s| ==> !IsNode(s, t, i);
    HalvedHolds(s, s, c, t);
    SumOfZeros(HalveAll(t.counts), 0, |t.counts|);
    hide Holds;
  }
}
