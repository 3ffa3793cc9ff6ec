/** The search tree in which a context keeps its counts, inside the coder's symbol arena.
    A node is an arena slot; its children are found by adding an offset to its index. */
module SymbolTrees {
  import opened Words
  import opened Contexts

  /** A slot: a node of its context's tree (first five fields), and itself a context. */
  datatype Symbol = Symbol(
    value: uint8, count: uint8, under: uint16, left: uint16, right: uint16,
    symbols: uint16, escapes: uint16, total: uint16, parent: uint16)

  function NewSymbol(value: uint8, count: uint8): Symbol {
    Symbol(value, count, count, 0, 0, 0, 0, 0, 0)
  }

  type Arena = seq<Symbol>

  /** One context's tree as values: what it counts, in which slot each value's node is, and
      the range of values `[lo, hi)` that node's subtree is responsible for. */
  datatype Tree = Tree(counts: seq<nat>, at: map<int, int>, lo: map<int, int>, hi: map<int, int>)

  function NoTree(): Tree { Tree(NoCounts(), map[], map[], map[]) }

  /** Two nodes' ranges are disjoint, or one lies in a half of the other. */
  ghost predicate Apart(t: Tree, v: int, w: int)
    requires {v, w} <= t.lo.Keys && {v, w} <= t.hi.Keys
  {
    || t.hi[w] <= t.lo[v]
    || t.hi[v] <= t.lo[w]
    || (t.lo[v] <= t.lo[w] && t.hi[w] <= v)
    || (v + 1 <= t.lo[w] && t.hi[w] <= t.hi[v])
    || (t.lo[w] <= t.lo[v] && t.hi[v] <= w)
    || (w + 1 <= t.lo[v] && t.hi[v] <= t.hi[w])
  }

  ghost predicate ShapeOk(t: Tree) {
    && |t.counts| == VALUES
    && t.at.Keys == t.lo.Keys == t.hi.Keys
    && (forall v {:trigger t.lo[v]} {:trigger t.hi[v]} :: v in t.at ==> 0 <= t.lo[v] <= v < t.hi[v] <= VALUES)
    && (forall v :: 0 <= v < VALUES ==> (v in t.at <==> t.counts[v] > 0))
    && (forall v, w {:trigger Apart(t, v, w)} :: v in t.at && w in t.at && v != w ==> Apart(t, v, w))
  }

  /** Slot `j` is the node responsible for exactly `[lo, hi)`. */
  ghost predicate Linked(s: Arena, t: Tree, j: int, lo: int, hi: int)
    requires ShapeOk(t)
  {
    && 0 <= j < |s|
    && var v := s[j].value;
      v in t.at && t.at[v] == j && t.lo[v] == lo && t.hi[v] == hi
  }

  ghost predicate NoneCounted(t: Tree, lo: int, hi: int)
    requires ShapeOk(t)
  {
    forall v :: lo <= v < hi && 0 <= v < VALUES ==> t.counts[v] == 0
  }

  /** The node of `v` holds its count, and in `under` the counts from its range's start to `v`. */
  ghost predicate NodeOk(s: Arena, t: Tree, v: int)
    requires ShapeOk(t) && v in t.at
  {
    && 0 < t.at[v] < |s|
    && var n := s[t.at[v]];
    && n.value == v
    && n.count == t.counts[v]
    && n.under == Sum(t.counts, t.lo[v], v + 1)
    && (if n.left == 0 then NoneCounted(t, t.lo[v], v) else Linked(s, t, t.at[v] + n.left, t.lo[v], v))
    && (if n.right == 0 then NoneCounted(t, v + 1, t.hi[v]) else Linked(s, t, t.at[v] + n.right, v + 1, t.hi[v]))
  }

  /** Slot `c` of the arena is a context whose tree is `t`. */
  ghost predicate Holds(s: Arena, c: int, t: Tree) {
    && ShapeOk(t)
    && 0 <= c < |s|
    && (forall v {:trigger t.at[v]} :: v in t.at ==> c < t.at[v])
    && (forall v {:trigger NodeOk(s, t, v)} :: v in t.at ==> NodeOk(s, t, v))
    && (if s[c].symbols == 0 then NoneCounted(t, 0, VALUES) else Linked(s, t, c + s[c].symbols, 0, VALUES))
  }

  /** Slot `i` is a node of `t`. */
  ghost predicate IsNode(s: Arena, t: Tree, i: int)
    requires 0 <= i < |s|
  {
    s[i].value in t.at && t.at[s[i].value] == i
  }

  // ----- walking down to a value -----

  /** The walk towards `v` has gone left at the node of `w`, above the range `[lo, hi)`. */
  ghost predicate Passed(t: Tree, v: int, lo: int, hi: int, w: int)
    requires w in t.lo
  {
    !(lo <= w < hi) && t.lo[w] <= v < w
  }

  /** From `s0` to `s`, exactly the nodes passed on the left have `under` raised. */
  ghost predicate Walked(s0: Arena, s: Arena, t: Tree, v: int, update: nat, lo: int, hi: int)
    requires ShapeOk(t)
  {
    && |s| == |s0|
    && forall i :: 0 <= i < |s| ==>
      if IsNode(s0, t, i) && Passed(t, v, lo, hi, s0[i].value)
      then s0[i].under + update < TWO_16 && s[i] == s0[i].(under := s0[i].under + update)
      else s[i] == s0[i]
  }

  lemma UnderBounded(t: Tree, v: int)
    requires ShapeOk(t) && v in t.at
    ensures Sum(t.counts, t.lo[v], v + 1) <= Sum(t.counts, 0, |t.counts|)
  {
    SumSplit(t.counts, 0, t.lo[v], |t.counts|);
    SumSplit(t.counts, t.lo[v], v + 1, |t.counts|);
  }

  lemma PassedLeft(t: Tree, v: int, x: int, w: int)
    requires ShapeOk(t) && x in t.at && w in t.at && t.lo[x] <= v < x
    ensures Passed(t, v, t.lo[x], x, w) <==> w == x || Passed(t, v, t.lo[x], t.hi[x], w)
  {
    assert w != x ==> Apart(t, x, w);
  }

  lemma PassedRight(t: Tree, v: int, x: int, w: int)
    requires ShapeOk(t) && x in t.at && w in t.at && x < v < t.hi[x]
    ensures Passed(t, v, x + 1, t.hi[x], w) <==> Passed(t, v, t.lo[x], t.hi[x], w)
  {
    assert w != x ==> Apart(t, x, w);
  }

  /** A walk leaves every slot's context, links and counts alone. */
  lemma WalkedKeeps(s0: Arena, s: Arena, t: Tree, v: int, update: nat, lo: int, hi: int)
    requires ShapeOk(t) && Walked(s0, s, t, v, update, lo, hi)
    ensures |s| == |s0| && forall i :: 0 <= i < |s| ==> s[i].(under := 0) == s0[i].(under := 0)
    ensures forall i :: 0 <= i < |s| && !IsNode(s0, t, i) ==> s[i] == s0[i]
  {
  }

  lemma WalkStarts(s: Arena, t: Tree, v: int, update: nat)
    requires ShapeOk(t)
    ensures Walked(s, s, t, v, update, 0, VALUES)
  {
    assert forall w :: w in t.at ==> 0 <= t.lo[w] <= w < t.hi[w] <= VALUES;
  }

  /** The node the walk is at is still as it was. */
  lemma WalkedHere(s0: Arena, s: Arena, t: Tree, v: int, update: nat, x: int)
    requires ShapeOk(t) && x in t.at && 0 <= t.at[x] < |s0| && s0[t.at[x]].value == x
    requires Walked(s0, s, t, v, update, t.lo[x], t.hi[x])
    ensures s[t.at[x]] == s0[t.at[x]]
  {
    assert 0 <= t.lo[x] <= x < t.hi[x];
  }

  /** A step to the left raises the node's `under`. */
  lemma WalkLeft(s0: Arena, s: Arena, t: Tree, v: int, update: nat, x: int)
    requires ShapeOk(t) && x in t.at && t.lo[x] <= v < x
    requires 0 <= t.at[x] < |s0| && s0[t.at[x]].value == x
    requires Walked(s0, s, t, v, update, t.lo[x], t.hi[x])
    requires s0[t.at[x]].under + update < TWO_16
    ensures s[t.at[x]] == s0[t.at[x]]
    ensures Walked(s0, s[t.at[x] := s[t.at[x]].(under := s[t.at[x]].under + update)], t, v, update, t.lo[x], x)
  {
    forall i | 0 <= i < |s| && IsNode(s0, t, i)
      ensures Passed(t, v, t.lo[x], x, s0[i].value)
         <==> i == t.at[x] || Passed(t, v, t.lo[x], t.hi[x], s0[i].value)
    {
      PassedLeft(t, v, x, s0[i].value);
    }
    hide ShapeOk, Passed;
    assert IsNode(s0, t, t.at[x]);
  }

  /** A step to the right changes nothing. */
  lemma WalkRight(s0: Arena, s: Arena, t: Tree, v: int, update: nat, x: int)
    requires ShapeOk(t) && x in t.at && x < v < t.hi[x]
    requires Walked(s0, s, t, v, update, t.lo[x], t.hi[x])
    ensures Walked(s0, s, t, v, update, x + 1, t.hi[x])
  {
    forall i | 0 <= i < |s| && IsNode(s0, t, i)
      ensures Passed(t, v, x + 1, t.hi[x], s0[i].value) <==> Passed(t, v, t.lo[x], t.hi[x], s0[i].value)
    {
      PassedRight(t, v, x, s0[i].value);
    }
  }

  // ----- the walk's end -----

  /** The tree with `v` counted `update` more; a new value gets `slot` and the range `[lo, hi)`. */
  function Raised(t: Tree, v: int, update: nat): Tree
    requires 0 <= v < |t.counts|
  {
    t.(counts := t.counts[v := t.counts[v] + update])
  }

  function Inserted(t: Tree, v: int, update: nat, slot: int, lo: int, hi: int): Tree
    requires 0 <= v < |t.counts|
  {
    Tree(t.counts[v := update], t.at[v := slot], t.lo[v := lo], t.hi[v := hi])
  }

  ghost predicate Extends(t1: Tree, t: Tree) {
    && ShapeOk(t) && ShapeOk(t1)
    && forall w :: w in t.at ==>
      w in t1.at && t1.at[w] == t.at[w] && t1.lo[w] == t.lo[w] && t1.hi[w] == t.hi[w]
  }

  ghost predicate SameValues(s0: Arena, s1: Arena, t: Tree) {
    |s1| == |s0| && forall u :: u in t.at && 0 <= t.at[u] < |s0| ==> s1[t.at[u]].value == s0[t.at[u]].value
  }

  /** A link that held still holds when no value moved and the tree only grew. */
  lemma LinkKept(s0: Arena, s1: Arena, t: Tree, t1: Tree, j: int, lo: int, hi: int)
    requires Extends(t1, t) && Linked(s0, t, j, lo, hi) && SameValues(s0, s1, t)
    ensures Linked(s1, t1, j, lo, hi)
  {
    hide ShapeOk, Apart;
  }

  lemma NoneCountedKept(t: Tree, t1: Tree, v: int, count: nat, lo: int, hi: int)
    requires ShapeOk(t) && ShapeOk(t1) && 0 <= v < VALUES && t1.counts == t.counts[v := count]
    requires NoneCounted(t, lo, hi) && !(lo <= v < hi)
    ensures NoneCounted(t1, lo, hi)
  {
    hide Apart;
  }

  /** A node none of whose links or empty ranges are touched stays right. */
  lemma NodeKept(s0: Arena, s1: Arena, t: Tree, t1: Tree, v: int, update: nat, w: int)
    requires Extends(t1, t) && 0 <= v < VALUES && w in t.at && NodeOk(s0, t, w) && SameValues(s0, s1, t)
    requires t1.counts == t.counts[v := t.counts[v] + update]
    requires s1[t.at[w]].left == s0[t.at[w]].left && s1[t.at[w]].right == s0[t.at[w]].right
    requires s1[t.at[w]].count == t1.counts[w]
    requires s1[t.at[w]].under == s0[t.at[w]].under + (if t.lo[w] <= v <= w then update else 0)
    requires s0[t.at[w]].left == 0 ==> !(t.lo[w] <= v < w)
    requires s0[t.at[w]].right == 0 ==> !(w < v < t.hi[w])
    ensures NodeOk(s1, t1, w)
  {
    hide Apart, Linked, NoneCounted;
    SumUpdate(t.counts, v, t.counts[v] + update, t.lo[w], w + 1);
    var i := t.at[w];
    if s0[i].left == 0 {
      NoneCountedKept(t, t1, v, t1.counts[v], t.lo[w], w);
    } else {
      LinkKept(s0, s1, t, t1, i + s0[i].left, t.lo[w], w);
    }
    if s0[i].right == 0 {
      NoneCountedKept(t, t1, v, t1.counts[v], w + 1, t.hi[w]);
    } else {
      LinkKept(s0, s1, t, t1, i + s0[i].right, w + 1, t.hi[w]);
    }
  }

  /** Every node the walk should have raised has been raised. */
  ghost predicate AllRaised(s0: Arena, s: Arena, t: Tree, v: int, update: nat)
    requires ShapeOk(t)
  {
    && |s| == |s0|
    && forall w :: w in t.at && 0 <= t.at[w] < |s0| ==>
      if t.lo[w] <= v < w
      then s0[t.at[w]].under + update < TWO_16 && s[t.at[w]] == s0[t.at[w]].(under := s0[t.at[w]].under + update)
      else s[t.at[w]] == s0[t.at[w]]
  }

  lemma PassedFound(t: Tree, v: int, w: int)
    requires ShapeOk(t) && v in t.at && w in t.at
    ensures Passed(t, v, t.lo[v], t.hi[v], w) <==> t.lo[w] <= v < w
  {
    assert w != v ==> Apart(t, v, w);
  }

  lemma NodeFacts(s: Arena, c: int, t: Tree, w: int)
    requires Holds(s, c, t) && w in t.at
    ensures 0 <= c < t.at[w] < |s| && s[t.at[w]].value == w && IsNode(s, t, t.at[w])
    ensures s[t.at[w]].count == t.counts[w] && s[t.at[w]].under == Sum(t.counts, t.lo[w], w + 1)
  {
    assert NodeOk(s, t, w);
  }

  lemma WalkFound(s0: Arena, s: Arena, c: int, t: Tree, v: int, update: nat)
    requires Holds(s0, c, t) && v in t.at && Walked(s0, s, t, v, update, t.lo[v], t.hi[v])
    ensures AllRaised(s0, s, t, v, update)
  {
    assert ShapeOk(t) && t.at.Keys == t.lo.Keys == t.hi.Keys && v in t.at && |s0| == |s|;
    hide ShapeOk, NodeOk, Passed, Holds;
    forall w | w in t.at && 0 <= t.at[w] < |s0|
      ensures IsNode(s0, t, t.at[w]) && s0[t.at[w]].value == w
      ensures Passed(t, v, t.lo[v], t.hi[v], w) <==> t.lo[w] <= v < w
    {
      NodeFacts(s0, c, t, w);
      PassedFound(t, v, w);
    }
  }

  lemma WalkEnded(s0: Arena, s: Arena, c: int, t: Tree, v: int, update: nat, lo: int, hi: int)
    requires Holds(s0, c, t) && lo <= v < hi && NoneCounted(t, lo, hi) && Walked(s0, s, t, v, update, lo, hi)
    ensures AllRaised(s0, s, t, v, update)
  {
    forall w | w in t.at && 0 <= t.at[w] < |s0|
      ensures s0[t.at[w]].value == w && IsNode(s0, t, t.at[w])
      ensures Passed(t, v, lo, hi, w) <==> t.lo[w] <= v < w
    {
      assert NodeOk(s0, t, w);
    }
    hide ShapeOk, NodeOk, Passed, Holds;
  }

  lemma RaisedShape(t: Tree, v: int, update: nat)
    requires ShapeOk(t) && v in t.at
    ensures Extends(Raised(t, v, update), t)
  {
    var t1 := Raised(t, v, update);
    forall u, w | u in t1.at && w in t1.at && u != w ensures Apart(t1, u, w) {
      assert Apart(t, u, w);
    }
  }

  function WithCount(s: Arena, i: int, update: nat): Arena
    requires 0 <= i < |s| && s[i].count + update < 0x100 && s[i].under + update < TWO_16
  {
    s[i := s[i].(count := s[i].count + update, under := s[i].under + update)]
  }

  /** The walk met `v`: raising its count gives the tree with `v` raised. */
  lemma HitHolds(s0: Arena, s: Arena, c: int, t: Tree, v: int, update: nat)
    requires Holds(s0, c, t) && v in t.at && Walked(s0, s, t, v, update, t.lo[v], t.hi[v])
    requires t.counts[v] + update < 0x100 && 0 <= t.at[v] < |s0| && s0[t.at[v]].under + update < TWO_16
    ensures s[t.at[v]] == s0[t.at[v]] && s0[t.at[v]].count == t.counts[v]
    ensures Holds(WithCount(s, t.at[v], update), c, Raised(t, v, update))
  {
    hide NodeOk, Linked, NoneCounted, Apart, Walked;
    WalkFound(s0, s, c, t, v, update);
    NodeFacts(s0, c, t, v);
    var t1 := Raised(t, v, update);
    var s1 := WithCount(s, t.at[v], update);
    RaisedShape(t, v, update);
    forall w | w in t1.at ensures c < t1.at[w] && NodeOk(s1, t1, w) {
      HitNode(s0, s, c, t, v, update, w);
    }
    HitValues(s0, s, c, t, v, update);
    WalkedKeeps(s0, s, t, v, update, t.lo[v], t.hi[v]);
    RootLinkKept(s0, s1, c, t, t1, v);
  }

  lemma RootLinkKept(s0: Arena, s1: Arena, c: int, t: Tree, t1: Tree, v: int)
    requires Holds(s0, c, t) && Extends(t1, t) && v in t.at
    requires SameValues(s0, s1, t) && s1[c].symbols == s0[c].symbols
    ensures s1[c].symbols != 0 && Linked(s1, t1, c + s1[c].symbols, 0, VALUES)
  {
    hide Apart, NodeOk;
    assert !NoneCounted(t, 0, VALUES);
    LinkKept(s0, s1, t, t1, c + s0[c].symbols, 0, VALUES);
  }

  lemma HitNode(s0: Arena, s: Arena, c: int, t: Tree, v: int, update: nat, w: int)
    requires Holds(s0, c, t) && v in t.at && w in t.at && AllRaised(s0, s, t, v, update)
    requires 0 <= t.at[v] < |s0| && s0[t.at[v]].count + update < 0x100 && s0[t.at[v]].under + update < TWO_16
    requires s[t.at[v]] == s0[t.at[v]]
    ensures ShapeOk(Raised(t, v, update))
    ensures c < t.at[w] && NodeOk(WithCount(s, t.at[v], update), Raised(t, v, update), w)
  {
    var t1 := Raised(t, v, update);
    var s1 := WithCount(s, t.at[v], update);
    RaisedShape(t, v, update);
    HitValues(s0, s, c, t, v, update);
    NodeFacts(s0, c, t, w);
    assert NodeOk(s0, t, w);
    hide Apart, Linked, Holds;
    assert t.counts[v] > 0;
    if w != v {
      NodeFactsDistinct(s0, c, t, v, w);
    }
    NodeKept(s0, s1, t, t1, v, update, w);
  }

  lemma NodeFactsDistinct(s: Arena, c: int, t: Tree, v: int, w: int)
    requires Holds(s, c, t) && v in t.at && w in t.at && v != w
    ensures t.at[v] != t.at[w]
  {
    NodeFacts(s, c, t, v);
    NodeFacts(s, c, t, w);
  }

  lemma HitValues(s0: Arena, s: Arena, c: int, t: Tree, v: int, update: nat)
    requires Holds(s0, c, t) && v in t.at && AllRaised(s0, s, t, v, update)
    requires 0 <= t.at[v] < |s0| && s0[t.at[v]].count + update < 0x100 && s0[t.at[v]].under + update < TWO_16
    requires s[t.at[v]] == s0[t.at[v]]
    ensures SameValues(s0, WithCount(s, t.at[v], update), t)
  {
    hide ShapeOk, NodeOk;
  }

  // ----- a new value -----

  /** Below the node of `x`, on the side without a child, `[lo, hi)` is free. */
  ghost predicate Gap(s: Arena, t: Tree, x: int, lo: int, hi: int)
    requires ShapeOk(t) && x in t.at && 0 <= t.at[x] < |s|
  {
    || (lo == t.lo[x] && hi == x && s[t.at[x]].left == 0)
    || (lo == x + 1 && hi == t.hi[x] && s[t.at[x]].right == 0)
  }

  lemma GapFree(s: Arena, c: int, t: Tree, x: int, lo: int, hi: int)
    requires Holds(s, c, t) && x in t.at && 0 <= t.at[x] < |s| && Gap(s, t, x, lo, hi)
    ensures NoneCounted(t, lo, hi)
  {
    assert NodeOk(s, t, x);
  }

  /** The tree with the new value in the gap is well shaped. */
  lemma InsertedShape(s: Arena, c: int, t: Tree, v: int, update: nat, slot: int, x: int, lo: int, hi: int)
    requires Holds(s, c, t) && x in t.at && 0 <= t.at[x] < |s| && Gap(s, t, x, lo, hi)
    requires 0 <= lo <= v < hi <= VALUES && 0 < update
    ensures v !in t.at && Extends(Inserted(t, v, update, slot, lo, hi), t)
  {
    GapFree(s, c, t, x, lo, hi);
    var t1 := Inserted(t, v, update, slot, lo, hi);
    assert t.counts[v] == 0;
    forall u, w {:trigger Apart(t1, u, w)} | u in t1.at && w in t1.at && u != w ensures Apart(t1, u, w) {
      if u != v && w != v {
        assert Apart(t, u, w);
      } else {
        InsertedApart(t, t1, v, x, lo, hi, if u == v then w else u);
      }
    }
    hide Apart, Holds;
  }

  lemma InsertedApart(t: Tree, t1: Tree, v: int, x: int, lo: int, hi: int, k: int)
    requires ShapeOk(t) && x in t.at && k in t.at && k != v && NoneCounted(t, lo, hi)
    requires (lo == t.lo[x] && hi == x) || (lo == x + 1 && hi == t.hi[x])
    requires t1.lo == t.lo[v := lo] && t1.hi == t.hi[v := hi]
    ensures Apart(t1, v, k) && Apart(t1, k, v)
  {
    assert !(lo <= k < hi);
    if k != x {
      assert Apart(t, x, k);
    }
  }

  /** No other node has the new value in one of its empty halves. */
  lemma GapUnique(s: Arena, c: int, t: Tree, v: int, x: int, lo: int, hi: int, w: int)
    requires Holds(s, c, t) && x in t.at && 0 <= t.at[x] < |s| && Gap(s, t, x, lo, hi) && lo <= v < hi
    requires w in t.at && w != x && 0 <= t.at[w] < |s|
    ensures s[t.at[w]].left == 0 ==> !(t.lo[w] <= v < w)
    ensures s[t.at[w]].right == 0 ==> !(w < v < t.hi[w])
  {
    GapFree(s, c, t, x, lo, hi);
    assert NodeOk(s, t, w);
    assert t.counts[w] > 0 && t.counts[x] > 0;
    assert !(lo <= w < hi);
    hide NodeOk, Linked;
    assert Apart(t, x, w);
  }

  /** The arena after the new node was filled in at `slot` and linked below `x`. */
  function Grown(s: Arena, v: uint8, update: uint8, slot: int, at: int, left: bool): Arena
    requires 0 <= at < slot < |s| <= TWO_16
  {
    var linked := if left then s[at].(left := slot - at) else s[at].(right := slot - at);
    s[slot := NewSymbol(v, update)][at := linked]
  }

  lemma GrownNode(s0: Arena, s: Arena, c: int, t: Tree, v: uint8, update: uint8, slot: int,
                  x: int, lo: int, hi: int, left: bool, w: int)
    requires Holds(s0, c, t) && x in t.at && 0 <= t.at[x] < |s0| && Gap(s0, t, x, lo, hi) && left == (hi == x)
    requires 0 <= lo <= v < hi <= VALUES && 0 < update && t.at[x] < slot < |s0| <= TWO_16
    requires forall u :: u in t.at ==> t.at[u] < slot
    requires AllRaised(s0, s, t, v, update) && w in t.at
    requires Extends(Inserted(t, v, update, slot, lo, hi), t)
    ensures NodeOk(Grown(s, v, update, slot, t.at[x], left), Inserted(t, v, update, slot, lo, hi), w)
  {
    var t1 := Inserted(t, v, update, slot, lo, hi);
    var s1 := Grown(s, v, update, slot, t.at[x], left);
    GapFree(s0, c, t, x, lo, hi);
    assert t.counts[v] == 0;
    GrownValues(s0, s, c, t, v, update, slot, x, left);
    NodeFacts(s0, c, t, w);
    NodeFacts(s0, c, t, x);
    assert NodeOk(s0, t, w);
    hide Apart, Linked, Holds, NoneCounted;
    if w != x {
      NodeFactsDistinct(s0, c, t, x, w);
      GapUnique(s0, c, t, v, x, lo, hi, w);
      NodeKept(s0, s1, t, t1, v, update, w);
    } else {
      GrownAbove(s0, s1, t, t1, v, update, slot, x, lo, hi, left);
    }
  }

  /** The node above the new one: one link is new, the other half is untouched. */
  lemma GrownAbove(s0: Arena, s1: Arena, t: Tree, t1: Tree, v: uint8, update: uint8, slot: int,
                   x: int, lo: int, hi: int, left: bool)
    requires ShapeOk(t) && x in t.at && NodeOk(s0, t, x) && Gap(s0, t, x, lo, hi) && left == (hi == x)
    requires 0 <= lo <= v < hi <= VALUES && t.at[x] < slot < |s0| && t.counts[v] == 0
    requires t1 == Inserted(t, v, update, slot, lo, hi) && Extends(t1, t) && SameValues(s0, s1, t)
    requires s1[slot].value == v
    requires var n0, n1 := s0[t.at[x]], s1[t.at[x]];
      && n1.count == n0.count
      && n1.under == n0.under + (if t.lo[x] <= v <= x then update else 0)
      && n1.left == (if left then slot - t.at[x] else n0.left)
      && n1.right == (if left then n0.right else slot - t.at[x])
    ensures NodeOk(s1, t1, x)
  {
    hide Apart, NoneCounted, Linked;
    SumUpdate(t.counts, v, update, t.lo[x], x + 1);
    var n0 := s0[t.at[x]];
    NewLink(s1, t1, slot, v, lo, hi);
    if left {
      if n0.right == 0 {
        NoneCountedKept(t, t1, v, update, x + 1, t.hi[x]);
      } else {
        LinkKept(s0, s1, t, t1, t.at[x] + n0.right, x + 1, t.hi[x]);
      }
    } else {
      if n0.left == 0 {
        NoneCountedKept(t, t1, v, update, t.lo[x], x);
      } else {
        LinkKept(s0, s1, t, t1, t.at[x] + n0.left, t.lo[x], x);
      }
    }
  }

  lemma NewLink(s1: Arena, t1: Tree, slot: int, v: uint8, lo: int, hi: int)
    requires ShapeOk(t1) && 0 <= slot < |s1| && s1[slot].value == v
    requires v in t1.at && t1.at[v] == slot && t1.lo[v] == lo && t1.hi[v] == hi
    ensures Linked(s1, t1, slot, lo, hi)
  {
  }

  lemma GrownValues(s0: Arena, s: Arena, c: int, t: Tree, v: uint8, update: uint8, slot: int, x: int, left: bool)
    requires Holds(s0, c, t) && x in t.at && AllRaised(s0, s, t, v, update)
    requires 0 <= t.at[x] < slot < |s0| <= TWO_16 && forall u :: u in t.at ==> t.at[u] < slot
    ensures SameValues(s0, Grown(s, v, update, slot, t.at[x], left), t)
  {
    hide ShapeOk, NodeOk;
  }

  lemma NewNode(s1: Arena, t: Tree, t1: Tree, v: uint8, update: uint8, slot: int, lo: int, hi: int)
    requires ShapeOk(t) && ShapeOk(t1) && t1 == Inserted(t, v, update, slot, lo, hi)
    requires 0 < slot < |s1| && s1[slot] == NewSymbol(v, update)
    requires 0 <= lo <= v < hi <= VALUES && NoneCounted(t, lo, hi)
    ensures NodeOk(s1, t1, v)
  {
    hide Apart;
    SumUpdate(t.counts, v, update, lo, v + 1);
    SumOfZeros(t.counts, lo, v + 1);
    assert t.counts[v] == 0;
  }

  /** The walk ended in a gap: a new node there gives the tree with the value inserted. */
  lemma GrownHolds(s0: Arena, s: Arena, c: int, t: Tree, v: uint8, update: uint8, slot: int,
                   x: int, lo: int, hi: int, left: bool)
    requires Holds(s0, c, t) && x in t.at && 0 <= t.at[x] < |s0| && Gap(s0, t, x, lo, hi) && left == (hi == x)
    requires 0 <= lo <= v < hi <= VALUES && 0 < update && t.at[x] < slot < |s0| <= TWO_16
    requires forall u :: u in t.at ==> t.at[u] < slot
    requires Walked(s0, s, t, v, update, lo, hi)
    ensures v !in t.at
    ensures Holds(Grown(s, v, update, slot, t.at[x], left), c, Inserted(t, v, update, slot, lo, hi))
  {
    WalkedKeeps(s0, s, t, v, update, lo, hi);
    hide NodeOk, Linked, NoneCounted, Apart, Walked, AllRaised;
    GapFree(s0, c, t, x, lo, hi);
    WalkEnded(s0, s, c, t, v, update, lo, hi);
    InsertedShape(s0, c, t, v, update, slot, x, lo, hi);
    NodeFacts(s0, c, t, x);
    var t1 := Inserted(t, v, update, slot, lo, hi);
    var s1 := Grown(s, v, update, slot, t.at[x], left);
    forall w {:trigger NodeOk(s1, t1, w)} | w in t1.at ensures c < t1.at[w] && NodeOk(s1, t1, w) {
      if w == v {
        NewNode(s1, t, t1, v, update, slot, lo, hi);
      } else {
        NodeFacts(s0, c, t, w);
        GrownNode(s0, s, c, t, v, update, slot, x, lo, hi, left, w);
      }
    }
    GrownValues(s0, s, c, t, v, update, slot, x, left);
    RootLinkKept(s0, s1, c, t, t1, x);
  }

  lemma ShapeRange(t: Tree)
    requires ShapeOk(t)
    ensures forall u :: u in t.at ==> 0 <= u < VALUES && t.counts[u] > 0
  {
  }

  /** The first value of a context. */
  function Planted(s: Arena, v: uint8, update: uint8, slot: int, c: int): Arena
    requires 0 <= c < slot < |s| <= TWO_16
  {
    s[slot := NewSymbol(v, update)][c := s[c].(symbols := slot - c)]
  }

  lemma PlantedHolds(s: Arena, c: int, t: Tree, v: uint8, update: uint8, slot: int)
    requires Holds(s, c, t) && s[c].symbols == 0 && 0 < update && c < slot < |s| <= TWO_16
    ensures v !in t.at && t.at == map[]
    ensures Holds(Planted(s, v, update, slot, c), c, Inserted(t, v, update, slot, 0, VALUES))
  {
    var t1 := Inserted(t, v, update, slot, 0, VALUES);
    var s1 := Planted(s, v, update, slot, c);
    assert NoneCounted(t, 0, VALUES);
    ShapeRange(t);
    assert forall u :: u !in t.at;
    assert ShapeOk(t1);
    NewNode(s1, t, t1, v, update, slot, 0, VALUES);
    NewLink(s1, t1, slot, v, 0, VALUES);
  }

  // ----- steps of the walk -----

  lemma LeftChild(s: Arena, c: int, t: Tree, x: int) returns (y: int)
    requires Holds(s, c, t) && x in t.at && 0 <= t.at[x] < |s| && s[t.at[x]].left != 0
    ensures 0 <= t.at[x] + s[t.at[x]].left < |s| && y == s[t.at[x] + s[t.at[x]].left].value
    ensures y in t.at && t.at[y] == t.at[x] + s[t.at[x]].left && t.lo[y] == t.lo[x] && t.hi[y] == x
    ensures 0 <= t.lo[y] <= y < t.hi[y]
  {
    assert NodeOk(s, t, x);
    y := s[t.at[x] + s[t.at[x]].left].value;
  }

  lemma RightChild(s: Arena, c: int, t: Tree, x: int) returns (y: int)
    requires Holds(s, c, t) && x in t.at && 0 <= t.at[x] < |s| && s[t.at[x]].right != 0
    ensures 0 <= t.at[x] + s[t.at[x]].right < |s| && y == s[t.at[x] + s[t.at[x]].right].value
    ensures y in t.at && t.at[y] == t.at[x] + s[t.at[x]].right && t.lo[y] == x + 1 && t.hi[y] == t.hi[x]
    ensures 0 <= t.lo[y] <= y < t.hi[y]
  {
    assert NodeOk(s, t, x);
    y := s[t.at[x] + s[t.at[x]].right].value;
  }

  lemma TopNode(s: Arena, c: int, t: Tree) returns (x: int)
    requires Holds(s, c, t) && s[c].symbols != 0
    ensures 0 <= c + s[c].symbols < |s| && x == s[c + s[c].symbols].value
    ensures x in t.at && t.at[x] == c + s[c].symbols && t.lo[x] == 0 && t.hi[x] == VALUES
  {
    x := s[c + s[c].symbols].value;
  }

  ghost predicate SameNodes(s: Arena, s1: Arena, t: Tree) {
    && |s1| == |s|
    && forall v :: v in t.at && 0 <= t.at[v] < |s| ==> SameNode(s[t.at[v]], s1[t.at[v]])
  }

  predicate SameNode(n: Symbol, m: Symbol) {
    n.value == m.value && n.count == m.count && n.under == m.under && n.left == m.left && n.right == m.right
  }

  predicate SameStatistics(n: Symbol, m: Symbol) {
    n.symbols == m.symbols && n.escapes == m.escapes && n.total == m.total
  }

  predicate SameContext(n: Symbol, m: Symbol) {
    SameStatistics(n, m) && n.parent == m.parent
  }

  /** Changes elsewhere in the arena do not matter to a tree. */
  lemma HoldsFramed(s: Arena, s1: Arena, c: int, t: Tree)
    requires Holds(s, c, t) && SameNodes(s, s1, t) && s1[c].symbols == s[c].symbols
    ensures Holds(s1, c, t)
  {
    hide Apart, NoneCounted, Linked, NodeOk;
    forall v {:trigger NodeOk(s1, t, v)} | v in t.at ensures c < t.at[v] && NodeOk(s1, t, v) {
      NodeFramed(s, s1, c, t, v);
    }
    if s[c].symbols != 0 {
      LinkKept(s, s1, t, t, c + s[c].symbols, 0, VALUES);
    }
  }

  lemma NodeFramed(s: Arena, s1: Arena, c: int, t: Tree, v: int)
    requires Holds(s, c, t) && SameNodes(s, s1, t) && v in t.at
    ensures c < t.at[v] && NodeOk(s1, t, v)
  {
    hide Apart, NoneCounted, Linked;
    assert NodeOk(s, t, v);
    var n := s[t.at[v]];
    if n.left != 0 {
      LinkKept(s, s1, t, t, t.at[v] + n.left, t.lo[v], v);
    }
    if n.right != 0 {
      LinkKept(s, s1, t, t, t.at[v] + n.right, v + 1, t.hi[v]);
    }
  }
}
