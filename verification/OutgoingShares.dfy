/** What the throttle limits come to: no peer is sent more than it can take, all together no more
    than the host can send, and no limit is lower than that asks for. */
module OutgoingShares {
  import opened Bandwidth
  import opened Sums
  import opened Words

  /** The bytes of `bandwidth` bytes a second that fit `elapsed` milliseconds. */
  function BytesIn(bandwidth: nat, elapsed: nat): nat { bandwidth * elapsed / 1000 }

  /** The largest number of 32ths of `data` bytes that fit `own` bytes, but at least one. */
  ghost predicate LargestShare(limit: nat, data: nat, own: nat) {
    || (limit >= 1 && limit * data <= 32 * own < (limit + 1) * data)
    || (limit == 1 && 32 * own < data)
  }

  /** A peer whose part at the common limit is more than it can take gets the largest limit at which
      it is not; any other peer gets what is left for all of them. */
  lemma OwnShare(peer: Peer, adjusts: bool, first: uint32, last: uint32, elapsed: uint32, now: uint32)
    requires FitsOne(peer, elapsed) && last <= first <= 32 && Active(peer, now)
    ensures var limit := Throttled(peer, adjusts, first, last, elapsed, now).packetThrottleLimit;
      var data, own := peer.outgoingDataTotal, BytesIn(peer.incomingBandwidth, elapsed);
      if adjusts && peer.incomingBandwidth != 0 && first * data >= 32 * (own + 1) then LargestShare(limit, data, own)
      else limit == last && (adjusts && peer.incomingBandwidth != 0 ==> limit * data < 32 * (own + 1))
  {
    NoWrap(peer, first, elapsed);
    OverIs(peer.incomingBandwidth, elapsed);
    var data, own := peer.outgoingDataTotal, BytesIn(peer.incomingBandwidth, elapsed);
    hide Over, Wrapped;
    Grows(last, first, data);
    if adjusts && Overrun(peer, first, elapsed, now) {
      OverrunHasData(peer, first, elapsed, now);
      ShareBounds(own * 32, data);
    }
  }

  lemma OverIs(bandwidth: uint32, elapsed: uint32)
    requires bandwidth * elapsed < TWO_32
    ensures Over(bandwidth, elapsed) == BytesIn(bandwidth, elapsed)
  {
    assert bandwidth * elapsed >= 0;
  }

  /** The common limit is 32, which lets everything through, when all the data fits; and otherwise the
      largest number of 32ths that fits. */
  lemma CommonShare(bandwidth: uint32, dataTotal: uint32)
    requires dataTotal > bandwidth ==> bandwidth * 32 < TWO_32
    ensures var t := ThrottleFor(bandwidth, dataTotal);
      if dataTotal <= bandwidth then t == 32 else t < 32 && t * dataTotal <= 32 * bandwidth < (t + 1) * dataTotal
  {
    ThrottleIs(bandwidth, dataTotal);
    if dataTotal > bandwidth {
      ShareBounds(32 * bandwidth, dataTotal);
      DivideLess(32 * bandwidth, dataTotal, 32);
    }
  }

  // ----- all peers together -----

  /** What a peer may be sent of its data, in 32ths; a limit of 1 that its own bandwidth does not
      cover is left out. */
  function ThirtySeconds(peer: Peer, adjusts: bool, first: uint32, last: uint32, elapsed: uint32, now: uint32): nat {
    var limit, data := Throttled(peer, adjusts, first, last, elapsed, now).packetThrottleLimit, peer.outgoingDataTotal;
    if !Active(peer, now) then 0
    else if adjusts && Overrun(peer, first, elapsed, now) && 32 * BytesIn(peer.incomingBandwidth, elapsed) < data then 0
    else limit * data
  }

  /** The data of the peers that are not overrun. */
  function CommonData(peer: Peer, adjusts: bool, first: uint32, elapsed: uint32, now: uint32): nat {
    if Active(peer, now) && !(adjusts && Overrun(peer, first, elapsed, now)) then peer.outgoingDataTotal else 0
  }

  function OverrunOwn(peer: Peer, adjusts: bool, first: uint32, elapsed: uint32, now: uint32): nat {
    if adjusts && Overrun(peer, first, elapsed, now) then Over(peer.incomingBandwidth, elapsed) else 0
  }

  lemma OneSplit(peer: Peer, adjusts: bool, first: uint32, last: uint32, elapsed: uint32, now: uint32)
    requires FitsOne(peer, elapsed) && last <= first <= 32
    ensures ThirtySeconds(peer, adjusts, first, last, elapsed, now)
         <= 32 * OverrunOwn(peer, adjusts, first, elapsed, now) + last * CommonData(peer, adjusts, first, elapsed, now)
    ensures OverrunOwn(peer, adjusts, first, elapsed, now) + CommonData(peer, adjusts, first, elapsed, now)
         <= Data(peer, now)
  {
    if Active(peer, now) {
      NoWrap(peer, first, elapsed);
      OverIs(peer.incomingBandwidth, elapsed);
      hide Over, Wrapped, BytesIn;
      OwnShare(peer, adjusts, first, last, elapsed, now);
      var data, own := peer.outgoingDataTotal, BytesIn(peer.incomingBandwidth, elapsed);
      if adjusts && Overrun(peer, first, elapsed, now) {
        Grows(first, 32, data);
        assert own < data;
      }
    }
  }

  lemma {:induction false} AllSplit(peers: seq<Peer>, adjusts: bool, first: uint32, last: uint32, elapsed: uint32,
                                    now: uint32)
    requires AllFit(peers, elapsed) && last <= first <= 32
    ensures Total(peers, p => ThirtySeconds(p, adjusts, first, last, elapsed, now))
         <= 32 * Total(peers, p => OverrunOwn(p, adjusts, first, elapsed, now))
            + last * Total(peers, p => CommonData(p, adjusts, first, elapsed, now))
    ensures Total(peers, p => OverrunOwn(p, adjusts, first, elapsed, now))
            + Total(peers, p => CommonData(p, adjusts, first, elapsed, now))
         <= AllData(peers, now)
    decreases |peers|
  {
    hide ThirtySeconds, OverrunOwn, CommonData, Data, FitsOne;
    if peers != [] {
      var k := |peers| - 1;
      var rest, p := peers[..k], peers[k];
      assert AllFit(rest, elapsed) by { assert forall i :: 0 <= i < k ==> rest[i] == peers[i]; }
      AllSplit(rest, adjusts, first, last, elapsed, now);
      OneSplit(p, adjusts, first, last, elapsed, now);
      var c := Total(rest, p => CommonData(p, adjusts, first, elapsed, now));
      var d := CommonData(p, adjusts, first, elapsed, now);
      assert last * (c + d) == last * c + last * d;
    }
  }

  lemma {:induction false} OverrunsAdd(peers: seq<Peer>, adjusts: bool, first: uint32, elapsed: uint32, now: uint32)
    ensures Total(peers, p => OverrunOwn(p, adjusts, first, elapsed, now))
         == if adjusts then OverrunBandwidth(peers, first, elapsed, now) else 0
    decreases |peers|
  {
    if peers != [] {
      var k := |peers| - 1;
      OverrunsAdd(peers[..k], adjusts, first, elapsed, now);
      OverrunMore(peers, k, first, elapsed, now);
      assert peers[..k + 1] == peers;
      hide OverrunBandwidth, Overrun, Over;
    }
  }

  /** All together, the peers are sent no more than the host can send. */
  lemma NoMoreThanSent(peers: seq<Peer>, adjusts: bool, outgoingBandwidth: uint32, elapsed: uint32, now: uint32,
                       first: uint32, last: uint32, x: nat)
    requires ProductsFit(peers, outgoingBandwidth, elapsed, now) && outgoingBandwidth > 0
    requires first == ThrottleFor(FirstBandwidth(outgoingBandwidth, elapsed), FirstTotal(peers, outgoingBandwidth, now))
    requires x == if adjusts then OverrunBandwidth(peers, first, elapsed, now) else 0
    requires x <= FirstBandwidth(outgoingBandwidth, elapsed) && x <= FirstTotal(peers, outgoingBandwidth, now)
    requires last == ThrottleFor(FirstBandwidth(outgoingBandwidth, elapsed) - x,
                                 FirstTotal(peers, outgoingBandwidth, now) - x)
    ensures Total(peers, p => ThirtySeconds(p, adjusts, first, last, elapsed, now))
         <= 32 * BytesIn(outgoingBandwidth, elapsed)
  {
    hide *;
    var b, d := FirstBandwidth(outgoingBandwidth, elapsed), FirstTotal(peers, outgoingBandwidth, now);
    FitsOut(peers, outgoingBandwidth, elapsed, now);
    FirstAndLast(peers, outgoingBandwidth, elapsed, now, x);
    OverrunsAdd(peers, adjusts, first, elapsed, now);
    AllSplit(peers, adjusts, first, last, elapsed, now);
    AddsUp(Total(peers, p => ThirtySeconds(p, adjusts, first, last, elapsed, now)),
           Total(peers, p => OverrunOwn(p, adjusts, first, elapsed, now)), last,
           Total(peers, p => CommonData(p, adjusts, first, elapsed, now)), b, d, x);
  }

  lemma AddsUp(total: nat, own: nat, last: nat, common: nat, b: nat, d: nat, x: nat)
    requires total <= 32 * own + last * common && own == x <= b && x <= d && common + own <= d
    requires last * (d - x) <= 32 * (b - x)
    ensures total <= 32 * b
  {
    Grows(common, d - x, last);
  }

  lemma FirstAndLast(peers: seq<Peer>, outgoingBandwidth: uint32, elapsed: uint32, now: uint32, x: nat)
    requires ProductsFit(peers, outgoingBandwidth, elapsed, now) && outgoingBandwidth > 0
    requires x <= FirstBandwidth(outgoingBandwidth, elapsed) && x <= FirstTotal(peers, outgoingBandwidth, now)
    ensures var b, d := FirstBandwidth(outgoingBandwidth, elapsed), FirstTotal(peers, outgoingBandwidth, now);
      && b == BytesIn(outgoingBandwidth, elapsed) && AllData(peers, now) <= d
      && ThrottleFor(b - x, d - x) <= ThrottleFor(b, d) <= 32
      && ThrottleFor(b - x, d - x) * (d - x) <= 32 * (b - x)
  {
    var b, d := FirstBandwidth(outgoingBandwidth, elapsed), FirstTotal(peers, outgoingBandwidth, now);
    FirstCarries(peers, outgoingBandwidth, elapsed, now);
    FirstFits(b, d, peers, elapsed, now);
    FirstAre(peers, outgoingBandwidth, elapsed, now);
    AtMostScale(b, d, peers, elapsed, now);
    FitsOut(peers, outgoingBandwidth, elapsed, now);
    OverIs(outgoingBandwidth, elapsed);
    hide ThrottleFor, FirstBandwidth, FirstTotal, AllData, ProductsFit, Over, BytesIn, AllFit, Carries;
    ThrottleFalls(b, d, x);
    ThrottleCarries(b - x, d - x);
  }

  lemma FitsOut(peers: seq<Peer>, outgoingBandwidth: uint32, elapsed: uint32, now: uint32)
    requires ProductsFit(peers, outgoingBandwidth, elapsed, now)
    ensures outgoingBandwidth * elapsed < TWO_32 && AllFit(peers, elapsed)
    ensures outgoingBandwidth > 0 ==> FirstBandwidth(outgoingBandwidth, elapsed) * 32 < TWO_32
  {
  }
}
