/** The packets sent on a channel, whole or in fragments, against the numbers of their commands:
    which packet a number belongs to, and what a receiver holds of the packets to come. */
module Parcels {
  import opened Fragmentation
  import opened Reassembly
  import opened Receiving
  import opened Reception
  import opened Windows
  import opened Words

  /** A packet and the length of its fragments; 0 when it is sent whole. */
  datatype Parcel = Parcel(data: seq<uint8>, length: nat)

  predicate ParcelOk(p: Parcel) {
    p.length == 0 || (p.length < |p.data| && FragmentCount(|p.data|, p.length) <= MAXIMUM_FRAGMENT_COUNT)
  }

  /** How many commands carry the packet. */
  function Parts(p: Parcel): nat { if p.length == 0 then 1 else FragmentCount(|p.data|, p.length) }

  ghost predicate AllParcelsOk(ps: seq<Parcel>) {
    forall j {:trigger ps[j]} :: 0 <= j < |ps| ==> ParcelOk(ps[j])
  }

  lemma PartsPositive(p: Parcel)
    requires ParcelOk(p)
    ensures Parts(p) >= 1 && (p.length > 0 ==> Parts(p) >= 2)
  {
    if p.length > 0 {
      Bounds(|p.data|, p.length);
      var n := FragmentCount(|p.data|, p.length);
      if n == 1 {
        OffsetGrows(0, 0, p.length);
        OffsetZero(p.length);
      }
    }
    hide FragmentCount, Offset;
  }

  // ----- numbers -----

  /** The number of the last command before packet `j`. */
  function Before(ps: seq<Parcel>, j: nat): nat
    requires j <= |ps|
  {
    if j == 0 then 0 else Before(ps, j - 1) + Parts(ps[j - 1])
  }

  /** The number of its first command. */
  function Start(ps: seq<Parcel>, j: nat): nat
    requires j <= |ps|
  {
    Before(ps, j) + 1
  }

  lemma {:induction false} BeforeGrows(ps: seq<Parcel>, i: nat, j: nat)
    requires i <= j <= |ps|
    ensures Before(ps, i) <= Before(ps, j)
    ensures i < j ==> Before(ps, i) + Parts(ps[i]) <= Before(ps, j)
    decreases j
  {
    hide Parts;
    if i < j {
      BeforeGrows(ps, i, j - 1);
    }
  }

  /** The packet that number `n` belongs to. */
  function HolderTo(ps: seq<Parcel>, n: nat, k: nat): (j: nat)
    requires k <= |ps| && 1 <= n <= Before(ps, k)
    ensures j < k && Before(ps, j) < n <= Before(ps, j + 1)
  {
    if n > Before(ps, k - 1) then k - 1 else HolderTo(ps, n, k - 1)
  }

  function Holder(ps: seq<Parcel>, n: nat): (j: nat)
    requires 1 <= n <= Before(ps, |ps|)
    ensures j < |ps| && Before(ps, j) < n <= Before(ps, j + 1)
  {
    HolderTo(ps, n, |ps|)
  }

  lemma HolderIs(ps: seq<Parcel>, n: nat, j: nat)
    requires j < |ps| && Before(ps, j) < n <= Before(ps, j + 1)
    ensures 1 <= n <= Before(ps, |ps|) && Holder(ps, n) == j
  {
    hide Parts, Before, HolderTo;
    BeforeGrows(ps, j + 1, |ps|);
    var i := Holder(ps, n);
    if i < j {
      BeforeGrows(ps, i + 1, j);
    } else if j < i {
      BeforeGrows(ps, j + 1, i);
    }
  }

  /** Sending more packets changes nothing for those before. */
  lemma {:induction false} BeforeSame(ps: seq<Parcel>, ps1: seq<Parcel>, j: nat)
    requires ps <= ps1 && j <= |ps|
    ensures Before(ps1, j) == Before(ps, j)
    decreases j
  {
    hide Parts;
    if j > 0 {
      BeforeSame(ps, ps1, j - 1);
    }
  }

  lemma HolderSame(ps: seq<Parcel>, ps1: seq<Parcel>, n: nat)
    requires ps <= ps1 && 1 <= n <= Before(ps, |ps|)
    ensures n <= Before(ps1, |ps1|) && Holder(ps1, n) == Holder(ps, n)
    ensures Start(ps1, Holder(ps, n)) == Start(ps, Holder(ps, n))
  {
    hide Parts, Before, HolderTo;
    var j := Holder(ps, n);
    BeforeSame(ps, ps1, j);
    BeforeSame(ps, ps1, j + 1);
    HolderIs(ps1, n, j);
  }

  /** What command `i` of a packet carries, when the packet begins with number `start`. */
  function ContentOf(p: Parcel, start: nat, i: nat): Content
    requires i < Parts(p)
  {
    if p.length == 0 then Entire(p.data) else Part(FragmentOf(p.data, p.length, Seq(start), i))
  }

  /** The commands of a channel carry its packets, one after the other. */
  ghost predicate LogOk(log: seq<Content>, ps: seq<Parcel>) {
    && AllParcelsOk(ps) && |log| == Before(ps, |ps|)
    && forall n {:trigger Holder(ps, n)} :: 1 <= n <= |log| ==>
         var j := Holder(ps, n);
         n - Start(ps, j) < Parts(ps[j]) && log[n - 1] == ContentOf(ps[j], Start(ps, j), n - Start(ps, j))
  }

  function Datas(ps: seq<Parcel>): (d: seq<seq<uint8>>)
    ensures |d| == |ps|
  {
    seq(|ps|, i requires 0 <= i < |ps| => ps[i].data)
  }

  /** A packet whose commands lie in the window of the first and the one after. */
  predicate IsNarrow(start: nat, parts: nat) { parts >= 1 && Window(start + parts - 1) <= Window(start) + 1 }

  ghost predicate AllNarrow(ps: seq<Parcel>) {
    forall j {:trigger ps[j]} :: 0 <= j < |ps| ==> IsNarrow(Start(ps, j), Parts(ps[j]))
  }

  /** The commands of a packet that begins with number `start`. */
  function ContentsOf(p: Parcel, start: nat): (c: seq<Content>)
    ensures |c| == Parts(p)
  {
    seq(Parts(p), i requires 0 <= i < Parts(p) => ContentOf(p, start, i))
  }

  lemma LogFacts(log: seq<Content>, ps: seq<Parcel>)
    requires LogOk(log, ps)
    ensures AllParcelsOk(ps) && |log| == Before(ps, |ps|)
  {
    hide HolderTo, Before, ContentOf, AllParcelsOk;
  }

  lemma LogMore(log: seq<Content>, ps: seq<Parcel>, p: Parcel)
    requires LogOk(log, ps) && ParcelOk(p)
    ensures LogOk(log + ContentsOf(p, |log| + 1), ps + [p])
  {
    hide HolderTo, ContentOf, Before, Parts, ParcelOk;
    var log1, ps1 := log + ContentsOf(p, |log| + 1), ps + [p];
    BeforeSame(ps, ps1, |ps|);
    NextBefore(ps1, |ps|);
    forall n {:trigger Holder(ps1, n)} | 1 <= n <= |log1|
      ensures var j := Holder(ps1, n);
        n - Start(ps1, j) < Parts(ps1[j]) && log1[n - 1] == ContentOf(ps1[j], Start(ps1, j), n - Start(ps1, j))
    {
      if n <= |log| {
        HolderSame(ps, ps1, n);
      } else {
        HolderIs(ps1, n, |ps|);
      }
    }
  }

  lemma NarrowMore(ps: seq<Parcel>, p: Parcel)
    requires AllNarrow(ps) && IsNarrow(Start(ps, |ps|), Parts(p))
    ensures AllNarrow(ps + [p])
  {
    hide IsNarrow, Before, Parts;
    forall j {:trigger (ps + [p])[j]} | 0 <= j < |ps + [p]|
      ensures IsNarrow(Start(ps + [p], j), Parts((ps + [p])[j]))
    {
      BeforeSame(ps, ps + [p], j);
      assert j < |ps| ==> ps[j] == (ps + [p])[j];
    }
  }

  // ----- what is held -----

  /** What the receiver has of a packet: it, or some of its fragments, all of them sent. */
  ghost predicate EntryOk(e: Incoming, p: Parcel, n: nat, first: nat) {
    && e.sequence == Seq(n) && n <= first
    && if p.length == 0 then e == Plain(Seq(n), p.data)
       else
         && e.Fragmented? && AssemblyOk(e.assembly, p.data, p.length)
         && forall i {:trigger e.assembly.bits[i]} :: 0 <= i < |e.assembly.bits| && e.assembly.bits[i] ==>
              n + i <= first
  }

  ghost predicate HeldAt(held: Held, ps: seq<Parcel>, first: nat, n: nat)
    requires n in held
  {
    && 1 <= n <= Before(ps, |ps|) && n == Start(ps, Holder(ps, n))
    && EntryOk(held[n], ps[Holder(ps, n)], n, first)
  }

  ghost predicate HeldOk(held: Held, ps: seq<Parcel>, first: nat) {
    && AllParcelsOk(ps)
    && forall n {:trigger n in held} :: n in held ==> HeldAt(held, ps, first, n)
  }

  /** The receiver has what command `n` carries. */
  ghost predicate Covers(held: Held, ps: seq<Parcel>, n: nat) {
    && 1 <= n <= Before(ps, |ps|)
    && var s := Start(ps, Holder(ps, n));
      s in held && (held[s].Plain? || (n - s < |held[s].assembly.bits| && held[s].assembly.bits[n - s]))
  }

  ghost predicate Has(r: nat, held: Held, ps: seq<Parcel>, n: nat) { n <= r || Covers(held, ps, n) }

  lemma WidthIs(e: Incoming, p: Parcel, n: nat, first: nat)
    requires EntryOk(e, p, n, first) && ParcelOk(p)
    ensures Width(e) == Parts(p) >= 1
  {
    PartsPositive(p);
  }

  lemma HeldSpaced(held: Held, ps: seq<Parcel>, first: nat)
    requires HeldOk(held, ps, first)
    ensures Spaced(held)
  {
    hide EntryOk, Width, Parts, Before, HolderTo, ParcelOk;
    forall n, m {:trigger held[n], held[m]} | n in held && m in held && n < m ensures n + Width(held[n]) <= m {
      assert HeldAt(held, ps, first, n) && HeldAt(held, ps, first, m);
      var i, j := Holder(ps, n), Holder(ps, m);
      WidthIs(held[n], ps[i], n, first);
      if j <= i {
        BeforeGrows(ps, j, i);
      } else {
        BeforeGrows(ps, i, j);
      }
    }
  }

  /** The packet that is due is the next one, whole, and all of it was sent. */
  lemma DueIs(r: nat, held: Held, ps: seq<Parcel>, done: nat, first: nat)
    requires HeldOk(held, ps, first) && done <= |ps| && r == Before(ps, done) && IsDue(r, held)
    ensures done < |ps| && r + Width(held[r + 1]) == Before(ps, done + 1) <= first
    ensures PacketOf(held[r + 1]) == ps[done].data
  {
    hide Parts, HolderTo, Before, EntryOk, Complete, Width, PacketOf;
    assert HeldAt(held, ps, first, r + 1);
    var j := Holder(ps, r + 1);
    BeforeGrows(ps, if j < done then j + 1 else done, if j < done then done else j);
    NextBefore(ps, j);
    assert ParcelOk(ps[j]);
    WidthIs(held[r + 1], ps[j], r + 1, first);
    if done < j {
      BeforeGrows(ps, done, j);
      NextBefore(ps, done);
      PartsPositive(ps[done]);
    }
    WholeSent(held[r + 1], ps[done], r + 1, first);
  }

  lemma NextBefore(ps: seq<Parcel>, j: nat)
    requires j < |ps|
    ensures Before(ps, j + 1) == Before(ps, j) + Parts(ps[j])
  {
  }

  lemma WholeSent(e: Incoming, p: Parcel, n: nat, first: nat)
    requires EntryOk(e, p, n, first) && ParcelOk(p) && Complete(e)
    ensures n + Parts(p) - 1 <= first && PacketOf(e) == p.data
  {
    if p.length > 0 {
      PartsPositive(p);
      ClearNone(e.assembly.bits);
      CompleteIs(e.assembly, p.data, p.length);
      assert e.assembly.bits[Parts(p) - 1];
    }
    hide FragmentCount, Clear, Owner;
  }

  /** Sending more changes nothing about what is held. */
  lemma HeldMore(held: Held, ps: seq<Parcel>, ps1: seq<Parcel>, first: nat, first1: nat)
    requires HeldOk(held, ps, first) && ps <= ps1 && first <= first1 && AllParcelsOk(ps1)
    ensures HeldOk(held, ps1, first1)
  {
    hide Parts, HolderTo, Before, AllParcelsOk;
    forall n {:trigger n in held} | n in held ensures HeldAt(held, ps1, first1, n) {
      assert HeldAt(held, ps, first, n);
      HolderSame(ps, ps1, n);
    }
  }

  lemma HasMore(r: nat, held: Held, ps: seq<Parcel>, ps1: seq<Parcel>, n: nat)
    requires Has(r, held, ps, n) && ps <= ps1
    ensures Has(r, held, ps1, n)
  {
    hide Parts, HolderTo, Before;
    if n > r {
      HolderSame(ps, ps1, n);
    }
  }

  // ----- delivery -----

  /** Delivery goes through the packets in order; what was held is delivered or still held. */
  lemma {:induction false} DeliversPackets(r: nat, held: Held, ps: seq<Parcel>, done: nat, first: nat)
    returns (done1: nat)
    requires HeldOk(held, ps, first) && done <= |ps| && r == Before(ps, done) <= first
    ensures done <= done1 <= |ps| && Cursor(r, held) == Before(ps, done1) <= first
    ensures Delivered(r, held) == Datas(ps[done..done1])
    ensures HeldOk(Left(r, held), ps, first) && !IsDue(Cursor(r, held), Left(r, held))
    ensures forall n {:trigger n in held} :: n in held ==>
      n <= Cursor(r, held) || (n in Left(r, held) && Left(r, held)[n] == held[n])
    decreases |held|
  {
    hide HeldOk, IsDue, Before, Width, PacketOf;
    if IsDue(r, held) {
      DueHere(r, held);
      Fewer(held, r + 1);
      DueIs(r, held, ps, done, first);
      HeldLess(held, ps, first, r + 1);
      var w := Width(held[r + 1]);
      BeforeGrows(ps, done, done + 1);
      WidthPositive(held[r + 1]);
      done1 := DeliversPackets(r + w, held - {r + 1}, ps, done + 1, first);
      DatasFirst(ps, done, done1);
      forall n {:trigger n in held} | n in held
        ensures n <= Cursor(r, held) || (n in Left(r, held) && Left(r, held)[n] == held[n])
      {
        assert n == r + 1 || n in held - {r + 1};
      }
    } else {
      done1 := done;
      assert ps[done..done] == [];
    }
  }

  lemma DueHere(r: nat, held: Held)
    requires IsDue(r, held)
    ensures r + 1 in held
  {
  }

  lemma WidthPositive(e: Incoming)
    ensures Width(e) >= 1
  {
  }

  lemma HeldLess(held: Held, ps: seq<Parcel>, first: nat, n: nat)
    requires HeldOk(held, ps, first)
    ensures HeldOk(held - {n}, ps, first)
  {
    hide EntryOk, Parts, HolderTo, Before;
    forall m {:trigger m in held - {n}} | m in held - {n} ensures HeldAt(held - {n}, ps, first, m) {
      assert HeldAt(held, ps, first, m);
    }
  }

  lemma DatasFirst(ps: seq<Parcel>, i: nat, j: nat)
    requires i < j <= |ps|
    ensures Datas(ps[i..j]) == [ps[i].data] + Datas(ps[i + 1..j])
  {
  }

  lemma DatasJoin(ps: seq<Parcel>, i: nat, j: nat)
    requires i <= j <= |ps|
    ensures Datas(ps[..i]) + Datas(ps[i..j]) == Datas(ps[..j])
  {
  }

  /** What was had before a delivery is had after it. */
  lemma HasKept(r: nat, held: Held, r1: nat, held1: Held, ps: seq<Parcel>, done1: nat, n: nat)
    requires Has(r, held, ps, n) && r <= r1 && done1 <= |ps| && r1 == Before(ps, done1)
    requires forall m {:trigger m in held} :: m in held ==> m <= r1 || (m in held1 && held1[m] == held[m])
    ensures Has(r1, held1, ps, n)
  {
    hide Parts, HolderTo, Before;
    if n > r {
      var j := Holder(ps, n);
      var s := Start(ps, j);
      assert s in held;
      if s <= r1 {
        if done1 <= j {
          BeforeGrows(ps, done1, j);
        }
        BeforeGrows(ps, j + 1, done1);
      }
    }
  }
}
