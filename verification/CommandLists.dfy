/** Facts about lists of commands: which numbers they hold, and how much data. */
module CommandLists {
  import opened Sending

  /** Two commands of one channel with the same number; `k` is the number of channels. */
  predicate Clash(a: Command, b: Command, k: nat) {
    a.channelID == b.channelID < k && a.number == b.number
  }

  ghost predicate Apart(list: seq<Command>, k: nat) {
    forall i, j {:trigger list[i], list[j]} :: 0 <= i < j < |list| ==> !Clash(list[i], list[j], k)
  }

  ghost predicate NoneLike(list: seq<Command>, c: Command, k: nat) {
    forall d {:trigger d in list} :: d in list ==> !Clash(d, c, k)
  }

  ghost predicate Disjoint(a: seq<Command>, b: seq<Command>, k: nat) {
    forall c, d {:trigger c in a, d in b} :: c in a && d in b ==> !Clash(c, d, k)
  }

  function Insert(list: seq<Command>, at: nat, c: Command): seq<Command>
    requires at <= |list|
  {
    list[..at] + [c] + list[at..]
  }

  lemma WithoutMembers(list: seq<Command>, i: nat)
    requires i < |list|
    ensures forall c :: c in Without(list, i) ==> c in list
    ensures forall c :: c in list ==> c == list[i] || c in Without(list, i)
    ensures |Without(list, i)| == |list| - 1
    ensures forall j :: 0 <= j < i ==> Without(list, i)[j] == list[j]
    ensures forall j {:trigger Without(list, i)[j]} :: i <= j < |list| - 1 ==> Without(list, i)[j] == list[j + 1]
  {
    forall c | c in list ensures c == list[i] || c in Without(list, i) {
      var j :| 0 <= j < |list| && list[j] == c;
      if j < i {
        assert Without(list, i)[j] == c;
      } else if i < j {
        assert Without(list, i)[j - 1] == c;
      }
    }
  }

  lemma WithoutApart(list: seq<Command>, i: nat, k: nat)
    requires i < |list| && Apart(list, k)
    ensures Apart(Without(list, i), k) && NoneLike(Without(list, i), list[i], k)
  {
    WithoutMembers(list, i);
    var rest := Without(list, i);
    forall a, b | 0 <= a < b < |rest| ensures !Clash(rest[a], rest[b], k) {
      assert rest[a] == list[if a < i then a else a + 1];
      assert rest[b] == list[if b < i then b else b + 1];
    }
    forall d | d in rest ensures !Clash(d, list[i], k) {
      var a :| 0 <= a < |rest| && rest[a] == d;
      assert d == list[if a < i then a else a + 1];
      var j := if a < i then a else a + 1;
      assert if j < i then !Clash(list[j], list[i], k) else !Clash(list[i], list[j], k);
    }
  }

  lemma InsertMembers(list: seq<Command>, at: nat, c: Command)
    requires at <= |list|
    ensures forall d :: d in Insert(list, at, c) <==> d == c || d in list
    ensures |Insert(list, at, c)| == |list| + 1
    ensures forall j :: 0 <= j < at ==> Insert(list, at, c)[j] == list[j]
    ensures Insert(list, at, c)[at] == c
    ensures forall j {:trigger Insert(list, at, c)[j]} :: at < j <= |list| ==> Insert(list, at, c)[j] == list[j - 1]
  {
    forall d | d in list ensures d in Insert(list, at, c) {
      var j :| 0 <= j < |list| && list[j] == d;
      assert Insert(list, at, c)[if j < at then j else j + 1] == d;
    }
  }

  lemma InsertApart(list: seq<Command>, at: nat, c: Command, k: nat)
    requires at <= |list| && Apart(list, k) && NoneLike(list, c, k)
    ensures Apart(Insert(list, at, c), k)
  {
    InsertMembers(list, at, c);
    var more := Insert(list, at, c);
    forall a, b | 0 <= a < b < |more| ensures !Clash(more[a], more[b], k) {
      if a == at {
        assert more[b] == list[b - 1] && list[b - 1] in list;
      } else if b == at {
        assert more[a] == list[a] && list[a] in list;
      } else {
        assert more[a] == list[if a < at then a else a - 1];
        assert more[b] == list[if b < at then b else b - 1];
      }
    }
  }

  // ----- data -----

  function DataSum(list: seq<Command>): nat {
    if list == [] then 0 else DataSum(list[..|list| - 1]) + Length(list[|list| - 1].packet)
  }

  lemma {:induction false} WithoutSum(list: seq<Command>, i: nat)
    requires i < |list|
    ensures DataSum(Without(list, i)) == DataSum(list) - Length(list[i].packet)
    decreases |list|
  {
    var n := |list| - 1;
    if i == n {
      assert Without(list, i) == list[..n];
    } else {
      WithoutSum(list[..n], i);
      assert Without(list, i)[..n - 1] == Without(list[..n], i);
      assert Without(list, i)[n - 1] == list[n];
    }
  }

  lemma AppendSum(list: seq<Command>, c: Command)
    ensures DataSum(list + [c]) == DataSum(list) + Length(c.packet)
  {
    assert (list + [c])[..|list|] == list;
  }
}
