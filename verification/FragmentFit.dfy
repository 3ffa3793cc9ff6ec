/** What is sent of a packet fits a datagram: whole packets and fragments, with the datagram's
    header and, if there is one, its checksum. */
module FragmentFit {
  import opened Fragmentation
  import opened Parcels
  import opened Sending
  import Windows
  import opened WireSizes
  import opened Words

  /** The bytes of a datagram that carries a command of the given size and data alone. */
  function Alone(checksum: bool, size: nat, data: seq<uint8>): nat {
    PROTOCOL_HEADER + (if checksum then CHECKSUM else 0) + size + |data|
  }

  function CommandSize(c: Content): nat { if c.Entire? then SEND_RELIABLE else SEND_FRAGMENT }

  /** Every fragment fits a datagram alone, and with one byte more all but the last would not. */
  lemma FragmentsFit(packet: seq<uint8>, mtu: nat, checksum: bool, start: uint16, i: nat)
    requires FragmentLength(mtu, checksum) > 0 && Cut(packet, mtu, checksum, start).Fragments?
    requires i < |Cut(packet, mtu, checksum, start).fragments|
    ensures var fragments := Cut(packet, mtu, checksum, start).fragments;
      && 0 < |fragments[i].data| && Alone(checksum, SEND_FRAGMENT, fragments[i].data) <= mtu
      && (i + 1 < |fragments| ==> Alone(checksum, SEND_FRAGMENT, fragments[i].data) + 1 > mtu)
  {
    Partitioned(packet, FragmentLength(mtu, checksum), start);
    var _ := FragmentsOf(packet, FragmentLength(mtu, checksum), start)[i];
    hide FragmentsOf, FragmentCount, Joined;
  }

  /** A packet that goes whole fits under any of the commands that carry one, and even under the
      longest; one that is cut would not fit under that. */
  lemma WholeFits(packet: seq<uint8>, mtu: nat, checksum: bool, start: uint16)
    requires FragmentLength(mtu, checksum) > 0
    ensures Cut(packet, mtu, checksum, start).Whole? <==> Alone(checksum, SEND_FRAGMENT, packet) <= mtu
    ensures Cut(packet, mtu, checksum, start).Whole? ==>
      Alone(checksum, SEND_RELIABLE, packet) <= mtu && Alone(checksum, SEND_UNRELIABLE, packet) <= mtu
      && Alone(checksum, SEND_UNSEQUENCED, packet) <= mtu
  {
    hide FragmentsOf, FragmentCount;
  }

  /** A packet is refused just when it needs more than 1048576 fragments of what a datagram has room
      for, which is its size less the header, the command and the checksum. */
  lemma TooManyExactly(packet: seq<uint8>, mtu: nat, checksum: bool, start: uint16)
    requires FragmentLength(mtu, checksum) > 0
    ensures Cut(packet, mtu, checksum, start).TooMany? <==>
      |packet| > 1_048_576 * (mtu - (if checksum then 32 else 28))
  {
    hide FragmentsOf;
    var length := FragmentLength(mtu, checksum);
    Bounds(|packet|, length);
    hide FragmentCount;
    if FragmentCount(|packet|, length) <= 0x10_0000 {
      OffsetGrows(FragmentCount(|packet|, length), 0x10_0000, length);
    } else {
      OffsetGrows(0x10_0001, FragmentCount(|packet|, length), length);
      OffsetGrows(0x10_0000, 0x10_0001, length);
    }
  }

  // ----- in terms of commands -----

  /** The packet as it is sent: whole, or in fragments of the length that a datagram has room for. */
  function Packed(data: seq<uint8>, mtu: nat, checksum: bool): Parcel
    requires FragmentLength(mtu, checksum) > 0
  {
    Parcel(data, if |data| <= FragmentLength(mtu, checksum) then 0 else FragmentLength(mtu, checksum))
  }

  /** Which is what `Cut` makes of it. */
  lemma PackedIsCut(data: seq<uint8>, mtu: nat, checksum: bool, start: nat)
    requires FragmentLength(mtu, checksum) > 0
    ensures var p, cut := Packed(data, mtu, checksum), Cut(data, mtu, checksum, Windows.Seq(start));
      && (cut.TooMany? <==> !ParcelOk(p))
      && (cut.Whole? ==> ContentsOf(p, start) == [Entire(data)])
      && (cut.Fragments? ==>
            |cut.fragments| == Parts(p)
            && forall i {:trigger ContentsOf(p, start)[i]} :: 0 <= i < Parts(p) ==>
                 ContentsOf(p, start)[i] == Part(cut.fragments[i]))
  {
    hide FragmentCount, FragmentOf;
  }

  /** Every command of it fits, with the checksum. */
  lemma CommandsFit(data: seq<uint8>, mtu: nat, checksum: bool, start: nat, i: nat)
    requires FragmentLength(mtu, checksum) > 0 && ParcelOk(Packed(data, mtu, checksum))
    requires i < Parts(Packed(data, mtu, checksum))
    ensures var c := ContentsOf(Packed(data, mtu, checksum), start)[i];
      Alone(checksum, CommandSize(c), Bytes(c)) <= mtu
  {
    PackedIsCut(data, mtu, checksum, start);
    WholeFits(data, mtu, checksum, Windows.Seq(start));
    if Cut(data, mtu, checksum, Windows.Seq(start)).Fragments? {
      FragmentsFit(data, mtu, checksum, Windows.Seq(start), i);
      var _ := ContentsOf(Packed(data, mtu, checksum), start)[i];
    }
    hide Cut, FragmentCount, ContentsOf, ParcelOk;
  }

  /** All commands of a packet are of one kind. */
  function PartSize(p: Parcel): nat { if p.length == 0 then SEND_RELIABLE else SEND_FRAGMENT }

  lemma PartsFit(data: seq<uint8>, mtu: nat, checksum: bool, start: nat)
    requires FragmentLength(mtu, checksum) > 0 && ParcelOk(Packed(data, mtu, checksum))
    ensures var p := Packed(data, mtu, checksum);
      forall i {:trigger ContentsOf(p, start)[i]} :: 0 <= i < Parts(p) ==>
        && CommandSize(ContentsOf(p, start)[i]) == PartSize(p)
        && PROTOCOL_HEADER + PartSize(p) + |Bytes(ContentsOf(p, start)[i])| <= mtu
  {
    var p := Packed(data, mtu, checksum);
    forall i {:trigger ContentsOf(p, start)[i]} | 0 <= i < Parts(p)
      ensures CommandSize(ContentsOf(p, start)[i]) == PartSize(p)
      ensures PROTOCOL_HEADER + PartSize(p) + |Bytes(ContentsOf(p, start)[i])| <= mtu
    {
      CommandsFit(data, mtu, checksum, start, i);
    }
    hide Packed, FragmentCount, ParcelOk;
  }

  /** So a command that carries it fits the datagrams of `SendLoop`, with room for the checksum:
      a reliable one, or one of the two others that carry a whole packet. */
  lemma QueuedFits(c: Command, content: Content, mtu: nat, checksum: bool)
    requires mtu <= MAXIMUM_MTU && c.packet == Data(content)
    requires Alone(checksum, c.commandSize, Bytes(content)) <= mtu
    ensures Fits(c, mtu) && (checksum ==> PROTOCOL_HEADER + c.commandSize + Length(c.packet) <= mtu - CHECKSUM)
  {
  }
}
