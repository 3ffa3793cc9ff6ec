/** Counting and adding up over a sequence. */
module Sums {
  function Count<T>(s: seq<T>, p: T -> bool): (n: nat)
    ensures n <= |s|
    decreases |s|
  {
    if s == [] then 0 else Count(s[..|s| - 1], p) + (if p(s[|s| - 1]) then 1 else 0)
  }

  function Total<T>(s: seq<T>, f: T -> nat): nat
    decreases |s|
  {
    if s == [] then 0 else Total(s[..|s| - 1], f) + f(s[|s| - 1])
  }

  lemma {:induction false} TotalUpdate<T>(s: seq<T>, i: nat, x: T, f: T -> nat)
    requires i < |s|
    ensures Total(s[i := x], f) == Total(s, f) - f(s[i]) + f(x)
    ensures f(s[i]) <= Total(s, f)
    decreases |s|
  {
    var k := |s| - 1;
    if i == k {
      assert s[i := x][..k] == s[..k];
    } else {
      TotalUpdate(s[..k], i, x, f);
      assert s[i := x][..k] == s[..k][i := x];
    }
  }

  lemma {:induction false} CountUpdate<T>(s: seq<T>, i: nat, x: T, p: T -> bool)
    requires i < |s|
    ensures Count(s[i := x], p) == Count(s, p) - (if p(s[i]) then 1 else 0) + (if p(x) then 1 else 0)
    ensures p(s[i]) ==> Count(s, p) > 0
    decreases |s|
  {
    var k := |s| - 1;
    if i == k {
      assert s[i := x][..k] == s[..k];
    } else {
      CountUpdate(s[..k], i, x, p);
      assert s[i := x][..k] == s[..k][i := x];
    }
  }

  lemma {:induction false} CountNone<T>(s: seq<T>, p: T -> bool)
    ensures Count(s, p) == 0 <==> forall i {:trigger s[i]} :: 0 <= i < |s| ==> !p(s[i])
    decreases |s|
  {
    if s != [] {
      var k := |s| - 1;
      CountNone(s[..k], p);
      assert forall i {:trigger s[i]} :: 0 <= i < k ==> s[..k][i] == s[i];
    }
  }

  /** Two predicates that agree place by place count the same. */
  lemma {:induction false} CountSame<T>(s: seq<T>, s1: seq<T>, p: T -> bool, q: T -> bool)
    requires |s1| == |s| && forall i {:trigger s[i]} {:trigger s1[i]} :: 0 <= i < |s| ==> p(s[i]) == q(s1[i])
    ensures Count(s, p) == Count(s1, q)
    decreases |s|
  {
    if s != [] {
      var k := |s| - 1;
      assert forall i :: 0 <= i < k ==> s[..k][i] == s[i] && s1[..k][i] == s1[i];
      CountSame(s[..k], s1[..k], p, q);
    }
  }
}
