/** Putting a packet together again from its fragments. */
module Reassembly {
  import opened Words
  import opened Fragmentation

  /** A packet being assembled: one bit per fragment, how many are clear, and the bytes so far. */
  datatype Assembly = Assembly(fragmentsRemaining: int, bits: seq<bool>, data: seq<uint8>)

  function Clear(bits: seq<bool>): nat
    decreases |bits|
  {
    if bits == [] then 0 else Clear(bits[..|bits| - 1]) + (if bits[|bits| - 1] then 0 else 1)
  }

  lemma {:induction false} ClearSet(bits: seq<bool>, i: nat)
    requires i < |bits| && !bits[i]
    ensures Clear(bits[i := true]) == Clear(bits) - 1
    decreases |bits|
  {
    var k := |bits| - 1;
    if i == k {
      assert bits[i := true][..k] == bits[..k];
    } else {
      ClearSet(bits[..k], i);
      assert bits[i := true][..k] == bits[..k][i := true];
    }
  }

  lemma {:induction false} ClearNone(bits: seq<bool>)
    ensures Clear(bits) == 0 <==> forall i {:trigger bits[i]} :: 0 <= i < |bits| ==> bits[i]
    decreases |bits|
  {
    if bits != [] {
      var k := |bits| - 1;
      ClearNone(bits[..k]);
      assert forall i {:trigger bits[i]} :: 0 <= i < k ==> bits[..k][i] == bits[i];
    }
  }

  lemma {:induction false} ClearAll(n: nat)
    ensures Clear(seq(n, i => false)) == n
    decreases n
  {
    if n > 0 {
      assert seq(n, i => false)[..n - 1] == seq(n - 1, i => false);
      ClearAll(n - 1);
    }
  }

  /** A packet of which nothing has come; `space` is what its memory held before. */
  function Blank(count: nat, space: seq<uint8>): Assembly { Assembly(count, seq(count, i => false), space) }

  /** A fragment the receiver refuses. */
  predicate Malformed(f: Fragment, maximumPacketSize: nat) {
    || f.fragmentCount > MAXIMUM_FRAGMENT_COUNT
    || f.fragmentNumber >= f.fragmentCount
    || f.totalLength > maximumPacketSize
    || f.fragmentOffset >= f.totalLength
    || |f.data| > f.totalLength - f.fragmentOffset
  }

  /** What is not refused is one of at most 1048576 fragments of a packet that is not too large, and
      lies inside it. */
  lemma WellFormedIs(f: Fragment, maximumPacketSize: nat)
    ensures !Malformed(f, maximumPacketSize) <==>
      && f.fragmentNumber < f.fragmentCount <= 1_048_576 && f.totalLength <= maximumPacketSize
      && f.fragmentOffset < f.totalLength && f.fragmentOffset + |f.data| <= f.totalLength
  {
  }

  /** A fragment that belongs to another packet than the one being assembled. */
  predicate Foreign(a: Assembly, f: Fragment) { f.totalLength != |a.data| || f.fragmentCount != |a.bits| }

  function Overwritten(data: seq<uint8>, offset: nat, bytes: seq<uint8>): (r: seq<uint8>)
    requires offset + |bytes| <= |data|
    ensures |r| == |data|
  {
    data[..offset] + bytes + data[offset + |bytes|..]
  }

  lemma OverwrittenAt(data: seq<uint8>, offset: nat, bytes: seq<uint8>, p: nat)
    requires offset + |bytes| <= |data| && p < |data|
    ensures Overwritten(data, offset, bytes)[p] == if offset <= p < offset + |bytes| then bytes[p - offset] else data[p]
  {
  }

  /** The assembly after a fragment. */
  function Added(a: Assembly, f: Fragment): Assembly
    requires f.fragmentNumber < |a.bits| && f.fragmentOffset + |f.data| <= |a.data|
  {
    if a.bits[f.fragmentNumber] then a
    else Assembly(a.fragmentsRemaining - 1, a.bits[f.fragmentNumber := true],
                  Overwritten(a.data, f.fragmentOffset, f.data))
  }

  /** An incoming command with fragments. */
  class IncomingCommand {
    var fragmentsRemaining: int
    const fragments: array<bool>
    const packet: array<uint8>

    ghost function Value(): Assembly
      reads this, fragments, packet
    {
      Assembly(fragmentsRemaining, fragments[..], packet[..])
    }

    constructor (fragmentCount: nat, totalLength: nat)
      ensures Value().fragmentsRemaining == fragmentCount && Value().bits == seq(fragmentCount, i => false)
      ensures |Value().data| == totalLength && fresh(fragments) && fresh(packet)
    {
      fragmentsRemaining := fragmentCount;
      fragments := new bool[fragmentCount](i => false);
      packet := new uint8[totalLength];
    }

    /** Adds a fragment to the packet; true when it is now complete. */
    method HandleFragment(f: Fragment, maximumPacketSize: nat) returns (ok: bool, complete: bool)
      modifies this`fragmentsRemaining, fragments, packet
      ensures ok == !(Malformed(f, maximumPacketSize) || Foreign(old(Value()), f))
      ensures !ok ==> Value() == old(Value()) && !complete
      ensures ok ==>
        && f.fragmentNumber < |old(Value()).bits| && f.fragmentOffset + |f.data| <= |old(Value()).data|
        && Value() == Added(old(Value()), f)
        && complete == (!old(Value()).bits[f.fragmentNumber] && Value().fragmentsRemaining <= 0)
    {
      if Malformed(f, maximumPacketSize) {
        return false, false;
      }
      if f.totalLength != packet.Length || f.fragmentCount != fragments.Length {
        return false, false;
      }
      ok, complete := true, false;
      if !fragments[f.fragmentNumber] {
        ghost var bits, data := fragments[..], packet[..];
        fragmentsRemaining := fragmentsRemaining - 1;
        fragments[f.fragmentNumber] := true;
        assert fragments[..] == bits[f.fragmentNumber := true];
        Copy(f.data, f.fragmentOffset);
        complete := fragmentsRemaining <= 0;
      }
    }

    method Copy(bytes: seq<uint8>, offset: nat)
      requires offset + |bytes| <= packet.Length
      modifies packet
      ensures packet[..] == Overwritten(old(packet[..]), offset, bytes)
    {
      ghost var data := packet[..];
      for i := 0 to |bytes|
        invariant packet[..] == Overwritten(data, offset, bytes[..i])
      {
        packet[offset + i] := bytes[i];
        assert bytes[..i + 1] == bytes[..i] + [bytes[i]];
      }
      assert bytes[..|bytes|] == bytes;
    }
  }

  // ----- any order, any duplicates -----

  /** Which fragment a byte of the packet belongs to. */
  function Owner(p: nat, length: nat): nat
    requires length > 0
  {
    p / length
  }

  lemma OwnerIs(p: nat, i: nat, length: nat)
    requires length > 0
    ensures Owner(p, length) == i <==> Offset(i, length) <= p < Offset(i, length) + length
  {
    var q := p / length;
    assert p == q * length + p % length;
    if i < q {
      OffsetGrows(i, q, length);
    } else if q < i {
      OffsetGrows(q, i, length);
    }
  }

  /** Every byte of an arrived fragment is in place, and the clear bits are counted. */
  ghost predicate AssemblyOk(a: Assembly, packet: seq<uint8>, length: nat)
    requires length > 0
  {
    && |a.bits| == FragmentCount(|packet|, length) && |a.data| == |packet|
    && a.fragmentsRemaining == Clear(a.bits)
    && (forall p {:trigger Owner(p, length)} :: 0 <= p < |packet| ==>
          Owner(p, length) < |a.bits| && (a.bits[Owner(p, length)] ==> a.data[p] == packet[p]))
  }

  lemma OwnerInside(p: nat, length: nat, dataLength: nat)
    requires length > 0 && p < dataLength
    ensures Owner(p, length) < FragmentCount(dataLength, length)
  {
    Bounds(dataLength, length);
    OwnerIs(p, Owner(p, length), length);
    var n := FragmentCount(dataLength, length);
    if n <= Owner(p, length) {
      OffsetGrows(n, Owner(p, length), length);
    }
    hide FragmentCount, Owner, Offset;
  }

  lemma StartsOk(packet: seq<uint8>, length: nat, data: seq<uint8>)
    requires length > 0 && |data| == |packet|
    ensures var n := FragmentCount(|packet|, length);
      AssemblyOk(Assembly(n, seq(n, i => false), data), packet, length)
  {
    ClearAll(FragmentCount(|packet|, length));
    forall p | 0 <= p < |packet| ensures Owner(p, length) < FragmentCount(|packet|, length) {
      OwnerInside(p, length, |packet|);
    }
    hide FragmentCount, Owner;
  }

  /** A fragment of the packet, new or a duplicate, keeps the assembly well. */
  lemma AddedOk(a: Assembly, packet: seq<uint8>, length: nat, start: uint16, i: nat)
    requires length > 0 && AssemblyOk(a, packet, length) && i < FragmentCount(|packet|, length)
    ensures var f := FragmentOf(packet, length, start, i);
      && f.fragmentNumber < |a.bits| && f.fragmentOffset + |f.data| <= |a.data| && !Foreign(a, f)
      && AssemblyOk(Added(a, f), packet, length) && Added(a, f).bits == a.bits[i := true]
  {
    hide FragmentCount, Owner, Offset, Clear;
    Inside(i, length, |packet|);
    OffsetGrows(i, i, length);
    var f := FragmentOf(packet, length, start, i);
    if a.bits[i] {
      assert a.bits[i := true] == a.bits;
    } else {
      ClearSet(a.bits, i);
      var a1 := Added(a, f);
      forall p {:trigger Owner(p, length)} | 0 <= p < |packet|
        ensures Owner(p, length) < |a1.bits| && (a1.bits[Owner(p, length)] ==> a1.data[p] == packet[p])
      {
        OwnerIs(p, i, length);
        OverwrittenAt(a.data, f.fragmentOffset, f.data, p);
      }
    }
  }

  /** When no bit is clear the packet is whole. */
  lemma CompleteIs(a: Assembly, packet: seq<uint8>, length: nat)
    requires length > 0 && AssemblyOk(a, packet, length) && a.fragmentsRemaining <= 0
    ensures a.data == packet
  {
    hide FragmentCount, Owner, Clear;
    ClearNone(a.bits);
    forall p | 0 <= p < |packet| ensures a.data[p] == packet[p] {
      assert Owner(p, length) < |a.bits|;
    }
  }

  /** What the sender makes of a packet the receiver allows is never malformed. */
  lemma FragmentsWellFormed(packet: seq<uint8>, length: nat, start: uint16, i: nat, maximumPacketSize: nat)
    requires length > 0 && i < FragmentCount(|packet|, length) <= MAXIMUM_FRAGMENT_COUNT
    requires |packet| <= maximumPacketSize
    ensures !Malformed(FragmentOf(packet, length, start, i), maximumPacketSize)
  {
    Inside(i, length, |packet|);
    hide FragmentCount, Offset;
  }
}
