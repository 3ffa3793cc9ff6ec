/** Packets too large for a datagram are sent as fragments and put together again from
    fragments that may arrive in any order and more than once. */
module Fragmentation {
  import opened Words

  const MAXIMUM_FRAGMENT_COUNT := 0x10_0000
  const HEADER_SIZE := 4
  const FRAGMENT_HEADER_SIZE := 24
  const CHECKSUM_SIZE := 4

  /** A fragment on the wire. */
  datatype Fragment = Fragment(
    startSequenceNumber: uint16, fragmentCount: nat, fragmentNumber: nat, totalLength: nat, fragmentOffset: nat,
    data: seq<uint8>)

  /** What a reliable command carries: a packet, or one of its fragments. */
  datatype Content = Entire(packet: seq<uint8>) | Part(fragment: Fragment)

  function Bytes(c: Content): seq<uint8> { if c.Entire? then c.packet else c.fragment.data }

  // ----- sending -----

  /** How much of a packet fits one datagram. */
  function FragmentLength(mtu: nat, checksum: bool): int {
    mtu - HEADER_SIZE - FRAGMENT_HEADER_SIZE - (if checksum then CHECKSUM_SIZE else 0)
  }

  function FragmentCount(dataLength: nat, length: nat): nat
    requires length > 0
  {
    (dataLength + length - 1) / length
  }

  /** Where fragment `i` begins. */
  function Offset(i: nat, length: nat): nat { i * length }

  function End(i: nat, length: nat, dataLength: nat): nat {
    if Offset(i + 1, length) < dataLength then Offset(i + 1, length) else dataLength
  }

  lemma Bounds(dataLength: nat, length: nat)
    requires length > 0
    ensures var n := FragmentCount(dataLength, length);
      && dataLength <= Offset(n, length) < dataLength + length
      && (n == 0 <==> dataLength == 0)
  {
    var m := dataLength + length - 1;
    var n := m / length;
    assert m == n * length + m % length;
    if n == 0 {
      assert Offset(n, length) == 0;
    } else {
      OffsetGrows(1, n, length);
    }
  }

  lemma OffsetGrows(i: nat, j: nat, length: nat)
    requires i <= j
    ensures Offset(i, length) <= Offset(j, length)
    ensures Offset(i + 1, length) == Offset(i, length) + length
    ensures i < j ==> Offset(i, length) + length <= Offset(j, length)
  {
    assert (j - i) * length == j * length - i * length;
    if i < j {
      assert (j - i) * length >= length by { AtLeast(j - i, length); }
    }
  }

  lemma AtLeast(k: nat, length: nat)
    requires k >= 1
    ensures k * length >= length
  {
    assert k * length == (k - 1) * length + length;
  }

  /** Fragment `i` lies inside the packet and is not empty. */
  lemma Inside(i: nat, length: nat, dataLength: nat)
    requires length > 0 && i < FragmentCount(dataLength, length)
    ensures Offset(i, length) < End(i, length, dataLength) <= dataLength
    ensures i + 1 < FragmentCount(dataLength, length) ==> End(i, length, dataLength) == Offset(i + 1, length)
    ensures i + 1 == FragmentCount(dataLength, length) ==> End(i, length, dataLength) == dataLength
  {
    var n := FragmentCount(dataLength, length);
    Bounds(dataLength, length);
    OffsetGrows(i, n - 1, length);
    OffsetGrows(n - 1, n, length);
    if i + 1 < n {
      OffsetGrows(i + 1, n - 1, length);
    }
    hide FragmentCount, Offset;
  }

  function FragmentOf(packet: seq<uint8>, length: nat, start: uint16, i: nat): Fragment
    requires length > 0 && i < FragmentCount(|packet|, length)
  {
    Inside(i, length, |packet|);
    Fragment(start, FragmentCount(|packet|, length), i, |packet|, Offset(i, length),
             packet[Offset(i, length)..End(i, length, |packet|)])
  }

  /** The fragments of a packet, in order. */
  function FragmentsOf(packet: seq<uint8>, length: nat, start: uint16): (fragments: seq<Fragment>)
    requires length > 0
    ensures |fragments| == FragmentCount(|packet|, length)
    ensures forall i {:trigger fragments[i]} :: 0 <= i < |fragments| ==>
      fragments[i] == FragmentOf(packet, length, start, i)
  {
    seq(FragmentCount(|packet|, length),
        i requires 0 <= i < FragmentCount(|packet|, length) => FragmentOf(packet, length, start, i))
  }

  function Joined(fragments: seq<Fragment>): seq<uint8>
    decreases |fragments|
  {
    if fragments == [] then [] else Joined(fragments[..|fragments| - 1]) + fragments[|fragments| - 1].data
  }

  /** The fragments partition the packet: joined in order they are the packet, none is empty,
      and all but the last are as long as a datagram allows. */
  lemma Partitioned(packet: seq<uint8>, length: nat, start: uint16)
    requires length > 0
    ensures Joined(FragmentsOf(packet, length, start)) == packet
    ensures forall i {:trigger FragmentsOf(packet, length, start)[i]} :: 0 <= i < FragmentCount(|packet|, length) ==>
      && 0 < |FragmentsOf(packet, length, start)[i].data| <= length
      && (i + 1 < FragmentCount(|packet|, length) ==> |FragmentsOf(packet, length, start)[i].data| == length)
  {
    var fs, n := FragmentsOf(packet, length, start), FragmentCount(|packet|, length);
    hide FragmentCount, FragmentsOf, Joined, Offset;
    Bounds(|packet|, length);
    JoinedTo(packet, length, start, n);
    assert fs[..n] == fs;
    if n > 0 {
      Inside(n - 1, length, |packet|);
    }
    assert packet[..|packet|] == packet;
    forall i {:trigger fs[i]} | 0 <= i < n
      ensures 0 < |fs[i].data| <= length && (i + 1 < n ==> |fs[i].data| == length)
    {
      Inside(i, length, |packet|);
      OffsetGrows(i, i, length);
    }
  }

  lemma {:induction false} JoinedTo(packet: seq<uint8>, length: nat, start: uint16, k: nat)
    requires length > 0 && k <= FragmentCount(|packet|, length)
    ensures k == 0 || End(k - 1, length, |packet|) <= |packet|
    ensures Joined(FragmentsOf(packet, length, start)[..k])
      == packet[..if k == 0 then 0 else End(k - 1, length, |packet|)]
    decreases k
  {
    var fs := FragmentsOf(packet, length, start);
    hide FragmentCount, FragmentsOf, Offset, Joined;
    JoinedStep(fs, k);
    if k > 0 {
      Inside(k - 1, length, |packet|);
      if k > 1 { Inside(k - 2, length, |packet|); }
      JoinedTo(packet, length, start, k - 1);
      OffsetZero(length);
      assert packet[..Offset(k - 1, length)] + packet[Offset(k - 1, length)..End(k - 1, length, |packet|)]
          == packet[..End(k - 1, length, |packet|)];
    }
  }

  lemma JoinedStep(fragments: seq<Fragment>, k: nat)
    requires k <= |fragments|
    ensures Joined(fragments[..k]) == if k == 0 then [] else Joined(fragments[..k - 1]) + fragments[k - 1].data
  {
    if k > 0 {
      assert fragments[..k][..k - 1] == fragments[..k - 1];
    }
  }

  lemma OffsetZero(length: nat)
    ensures Offset(0, length) == 0
  {
  }

  datatype Sent = TooMany | Whole | Fragments(fragments: seq<Fragment>)

  /** A packet that does not fit a datagram is cut, unless into too many. */
  function Cut(packet: seq<uint8>, mtu: nat, checksum: bool, start: uint16): Sent
    requires FragmentLength(mtu, checksum) > 0
  {
    var length := FragmentLength(mtu, checksum);
    if |packet| <= length then Whole
    else if FragmentCount(|packet|, length) > MAXIMUM_FRAGMENT_COUNT then TooMany
    else Fragments(FragmentsOf(packet, length, start))
  }

  /** Splits a packet that does not fit a datagram. */
  method Split(packet: seq<uint8>, mtu: nat, checksum: bool,
               outgoingReliableSequenceNumber: uint16) returns (sent: Sent)
    requires FragmentLength(mtu, checksum) > 0
    ensures sent == Cut(packet, mtu, checksum, (outgoingReliableSequenceNumber + 1) % 0x1_0000)
  {
    hide FragmentCount, Offset, FragmentsOf;
    var length := FragmentLength(mtu, checksum);
    if |packet| <= length {
      return Whole;
    }
    var fragmentCount := FragmentCount(|packet|, length);
    if fragmentCount > MAXIMUM_FRAGMENT_COUNT {
      return TooMany;
    }
    var startSequenceNumber: uint16 := (outgoingReliableSequenceNumber + 1) % 0x1_0000;
    ghost var all := FragmentsOf(packet, length, startSequenceNumber);
    var fragments: seq<Fragment> := [];
    var fragmentNumber, fragmentOffset, fragmentLength: nat := 0, 0, length;
    Bounds(|packet|, length);
    OffsetZero(length);
    while fragmentOffset < |packet|
      invariant fragmentNumber <= fragmentCount && fragments == all[..fragmentNumber]
      invariant fragmentOffset == if fragmentNumber < fragmentCount then Offset(fragmentNumber, length) else |packet|
      invariant fragmentNumber < fragmentCount ==> fragmentLength == length
      decreases |packet| - fragmentOffset
    {
      Inside(fragmentNumber, length, |packet|);
      OffsetGrows(fragmentNumber, fragmentNumber, length);
      if |packet| - fragmentOffset < fragmentLength {
        fragmentLength := |packet| - fragmentOffset;
      }
      var fragment := Fragment(startSequenceNumber, fragmentCount, fragmentNumber, |packet|, fragmentOffset,
                               packet[fragmentOffset..fragmentOffset + fragmentLength]);
      assert fragment == all[fragmentNumber];
      fragments := fragments + [fragment];
      fragmentNumber := fragmentNumber + 1;
      fragmentOffset := fragmentOffset + fragmentLength;
    }
    if fragmentNumber < fragmentCount { Inside(fragmentNumber, length, |packet|); }
    assert all[..fragmentCount] == all;
    return Fragments(fragments);
  }
}
