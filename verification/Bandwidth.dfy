/** How a host divides its bandwidth among its peers. */
module Bandwidth {
  import opened Sums
  import ThrottleClock
  import opened Words

  const SCALE := 32

  /** What the allocator reads and writes of a peer; `connected` covers the two states in
      which data flows. */
  datatype Peer = Peer(
    connected: bool, incomingBandwidth: uint32, outgoingBandwidth: uint32,
    incomingThrottleEpoch: uint32, outgoingThrottleEpoch: uint32,
    incomingDataTotal: uint32, outgoingDataTotal: uint32, packetThrottle: uint32, packetThrottleLimit: uint32)

  // ----- dividing the incoming bandwidth -----

  /** Still waiting for its share at time `now`. */
  predicate Waits(peer: Peer, now: uint32) { peer.connected && peer.incomingThrottleEpoch != now }

  /** Settled with its own outgoing bandwidth. */
  function Settled(peer: Peer, now: uint32): nat {
    if peer.connected && peer.incomingThrottleEpoch == now then peer.outgoingBandwidth else 0
  }

  function Waiting(peers: seq<Peer>, now: uint32): nat { Count(peers, p => Waits(p, now)) }

  function Given(peers: seq<Peer>, now: uint32): nat { Total(peers, p => Settled(p, now)) }

  function Settle(peer: Peer, now: uint32): Peer { peer.(incomingThrottleEpoch := now) }

  lemma SettleOne(peers: seq<Peer>, i: nat, now: uint32)
    requires i < |peers| && Waits(peers[i], now)
    ensures var peers1 := peers[i := Settle(peers[i], now)];
      && Waiting(peers1, now) == Waiting(peers, now) - 1
      && Given(peers1, now) == Given(peers, now) + peers[i].outgoingBandwidth
  {
    CountUpdate(peers, i, Settle(peers[i], now), p => Waits(p, now));
    TotalUpdate(peers, i, Settle(peers[i], now), p => Settled(p, now));
  }

  /** A peer asks for no more than less than `limit`. */
  predicate Modest(peer: Peer, limit: nat) { peer.outgoingBandwidth == 0 || peer.outgoingBandwidth < limit }

  /** The same peers, but for the time they were settled. */
  ghost predicate SamePeers(peers: seq<Peer>, peers1: seq<Peer>) {
    |peers1| == |peers| && forall i {:trigger peers1[i]} :: 0 <= i < |peers| ==>
      peers1[i].(incomingThrottleEpoch := 0) == peers[i].(incomingThrottleEpoch := 0)
  }

  /** The division is max-min fair: the settled peers are those that ask for less than the
      limit, everyone else gets the limit, and the limit could not be one byte larger. */
  ghost predicate Fair(peers: seq<Peer>, bandwidth: nat, limit: nat, now: uint32) {
    && (forall i {:trigger peers[i]} :: 0 <= i < |peers| && peers[i].connected ==>
          (peers[i].incomingThrottleEpoch == now <==> Modest(peers[i], limit)))
    && var n := Waiting(peers, now);
    Given(peers, now) + limit * n <= bandwidth && (n > 0 ==> bandwidth < Given(peers, now) + (limit + 1) * n)
  }

  /** What a peer is told it may receive; 0 means no limit. */
  function Told(peer: Peer, limit: nat, now: uint32): nat {
    if peer.incomingThrottleEpoch == now then peer.outgoingBandwidth else limit
  }

  /** Every connected peer reports an outgoing bandwidth, and there is a byte for each. */
  ghost predicate AllReport(peers: seq<Peer>, bandwidth: nat) {
    && (forall i {:trigger peers[i]} :: 0 <= i < |peers| && peers[i].connected ==> peers[i].outgoingBandwidth > 0)
    && Connected(peers) <= bandwidth
  }

  /** Every connected peer is told a limit, not that there is none. */
  ghost predicate AllLimited(peers: seq<Peer>, limit: nat, now: uint32) {
    forall i {:trigger peers[i]} :: 0 <= i < |peers| && peers[i].connected ==> Told(peers[i], limit, now) > 0
  }

  function ToldAll(peers: seq<Peer>, limit: nat, now: uint32): nat {
    Total(peers, (p: Peer) => if p.connected then Told(p, limit, now) else 0)
  }

  /** Every peer that reports an outgoing bandwidth is told the smaller of that and the limit.
      All are limited, and together to no more than the host's bandwidth, exactly when all
      report one and the bandwidth is a byte for each. */
  ghost predicate Shared(peers: seq<Peer>, bandwidth: nat, limit: nat, now: uint32) {
    && (forall i {:trigger peers[i]} :: 0 <= i < |peers| && peers[i].connected && peers[i].outgoingBandwidth > 0 ==>
          Told(peers[i], limit, now) == if peers[i].outgoingBandwidth < limit then peers[i].outgoingBandwidth
            else limit)
    && (AllLimited(peers, limit, now) && ToldAll(peers, limit, now) <= bandwidth <==> AllReport(peers, bandwidth))
  }

  function Connected(peers: seq<Peer>): nat { Count(peers, (p: Peer) => p.connected) }

  lemma FairShares(peers: seq<Peer>, bandwidth: nat, limit: nat, now: uint32)
    requires Fair(peers, bandwidth, limit, now)
    ensures Shared(peers, bandwidth, limit, now)
  {
    ToldTotal(peers, limit, now);
    if AllReport(peers, bandwidth) {
      ReportedLimited(peers, bandwidth, limit, now);
    }
    if AllLimited(peers, limit, now) {
      LimitedReported(peers, bandwidth, limit, now);
    }
  }

  /** When all report, a limit of 0 would leave a byte for each that nobody has. */
  lemma ReportedLimited(peers: seq<Peer>, bandwidth: nat, limit: nat, now: uint32)
    requires Fair(peers, bandwidth, limit, now) && AllReport(peers, bandwidth)
    ensures AllLimited(peers, limit, now)
  {
    if limit == 0 {
      forall i {:trigger peers[i]} | 0 <= i < |peers| ensures peers[i].connected == Waits(peers[i], now) {
      }
      CountSame(peers, peers, (p: Peer) => p.connected, p => Waits(p, now));
      assert Waiting(peers, now) <= bandwidth;
      NoneGiven(peers, now);
      if Waiting(peers, now) == 0 {
        CountNone(peers, p => Waits(p, now));
      }
    }
  }

  lemma {:induction false} NoneGiven(peers: seq<Peer>, now: uint32)
    requires forall i {:trigger peers[i]} :: 0 <= i < |peers| ==> Settled(peers[i], now) == 0
    ensures Given(peers, now) == 0
    decreases |peers|
  {
    if peers != [] {
      NoneGiven(peers[..|peers| - 1], now);
    }
  }

  /** When all are told a limit, each has at least a byte. */
  lemma LimitedReported(peers: seq<Peer>, bandwidth: nat, limit: nat, now: uint32)
    requires Fair(peers, bandwidth, limit, now) && AllLimited(peers, limit, now)
    ensures AllReport(peers, bandwidth)
  {
    ByteEach(peers, limit, now);
    ToldTotal(peers, limit, now);
  }

  lemma {:induction false} ByteEach(peers: seq<Peer>, limit: nat, now: uint32)
    requires AllLimited(peers, limit, now)
    ensures Connected(peers) <= ToldAll(peers, limit, now)
    decreases |peers|
  {
    if peers != [] {
      var k := |peers| - 1;
      assert forall i {:trigger peers[..k][i]} :: 0 <= i < k ==> peers[..k][i] == peers[i];
      ByteEach(peers[..k], limit, now);
    }
  }

  /** The input: a peer that reports no bandwidth is told that it has no limit. */
  lemma ToldUnlimited(now: uint32) returns (peers: seq<Peer>)
    requires now > 0
    ensures Fair(peers, 1000, 1000, now) && |peers| == 1 && peers[0].connected && Told(peers[0], 1000, now) == 0
  {
    var p := Peer(true, 0, 0, now, 0, 0, 0, 32, 32);
    peers := [p];
    assert peers[..0] == [];
    assert Waiting([], now) == 0 && Given([], now) == 0;
    assert Waiting(peers, now) == 0 && Given(peers, now) == 0;
  }

  lemma {:induction false} ToldTotal(peers: seq<Peer>, limit: nat, now: uint32)
    ensures ToldAll(peers, limit, now) == Given(peers, now) + limit * Waiting(peers, now)
    decreases |peers|
  {
    if peers != [] {
      ToldTotal(peers[..|peers| - 1], limit, now);
    }
  }

  /** Every settled peer asks for less than the limit. */
  ghost predicate SettledModest(peers: seq<Peer>, limit: nat, now: uint32) {
    forall i {:trigger peers[i]} :: 0 <= i < |peers| && peers[i].connected && peers[i].incomingThrottleEpoch == now ==>
      Modest(peers[i], limit)
  }

  /** No waiting peer among the first `n` does. */
  ghost predicate WaitingImmodest(peers: seq<Peer>, n: nat, limit: nat, now: uint32) {
    n <= |peers| && forall i {:trigger peers[i]} :: 0 <= i < n && Waits(peers[i], now) ==> !Modest(peers[i], limit)
  }

  /** What the bandwidth is spent on and what is left for whom. */
  ghost predicate Divided(peers: seq<Peer>, bandwidth: nat, remaining: nat, all: nat, limit: nat, now: uint32) {
    && remaining == Waiting(peers, now) && bandwidth + Given(peers, now) == all
    && limit * remaining <= bandwidth && SettledModest(peers, limit, now)
  }

  lemma SettledOne(peers: seq<Peer>, i: nat, bandwidth: nat, remaining: nat, all: nat, limit: nat, now: uint32)
    requires i < |peers| && Waits(peers[i], now) && Modest(peers[i], limit) && WaitingImmodest(peers, i, limit, now)
    requires Divided(peers, bandwidth, remaining, all, limit, now)
    ensures remaining > 0 && peers[i].outgoingBandwidth <= bandwidth
    ensures var peers1 := peers[i := Settle(peers[i], now)];
      Divided(peers1, bandwidth - peers[i].outgoingBandwidth, remaining - 1, all, limit, now)
      && WaitingImmodest(peers1, i + 1, limit, now)
  {
    CountUpdate(peers, i, Settle(peers[i], now), p => Waits(p, now));
    SettleOne(peers, i, now);
    hide Waiting, Given;
    TakeShare(bandwidth, limit, remaining, peers[i].outgoingBandwidth);
  }

  /** One round: settles every waiting peer that asks for less than the limit. */
  method SettleModest(peers: array<Peer>, limit: uint32, oldRemaining: nat, oldBandwidth: nat, now: uint32,
                      ghost all: nat)
    returns (needsAdjustment: bool, peersRemaining: nat, bandwidth: nat)
    requires Divided(peers[..], oldBandwidth, oldRemaining, all, limit, now)
    modifies peers
    ensures SamePeers(old(peers[..]), peers[..])
    ensures Divided(peers[..], bandwidth, peersRemaining, all, limit, now)
    ensures WaitingImmodest(peers[..], peers.Length, limit, now)
    ensures needsAdjustment <==> peersRemaining < oldRemaining
    ensures peersRemaining <= oldRemaining && (!needsAdjustment ==> bandwidth == oldBandwidth)
  {
    hide Divided, Waiting, Given, Modest;
    ghost var s0 := peers[..];
    needsAdjustment, peersRemaining, bandwidth := false, oldRemaining, oldBandwidth;
    var i := 0;
    while i < peers.Length
      invariant 0 <= i <= peers.Length && SamePeers(s0, peers[..]) && peersRemaining <= oldRemaining
      invariant Divided(peers[..], bandwidth, peersRemaining, all, limit, now)
      invariant WaitingImmodest(peers[..], i, limit, now)
      invariant needsAdjustment <==> peersRemaining < oldRemaining
      invariant !needsAdjustment ==> bandwidth == oldBandwidth
    {
      ModestIs(peers[i], limit);
      if !peers[i].connected || peers[i].incomingThrottleEpoch == now {
        i := i + 1;
        continue;
      }
      if peers[i].outgoingBandwidth > 0 && peers[i].outgoingBandwidth >= limit {
        i := i + 1;
        continue;
      }
      ghost var s := peers[..];
      SettledOne(s, i, bandwidth, peersRemaining, all, limit, now);
      peers[i] := Settle(peers[i], now);
      assert peers[..] == s[i := Settle(s[i], now)];
      needsAdjustment := true;
      peersRemaining := peersRemaining - 1;
      bandwidth := bandwidth - peers[i].outgoingBandwidth;
      i := i + 1;
    }
  }

  lemma ModestIs(peer: Peer, limit: nat)
    ensures Modest(peer, limit) <==> !(peer.outgoingBandwidth > 0 && peer.outgoingBandwidth >= limit)
  {
  }

  /** Divides the host's incoming bandwidth: round by round, the peers that ask for less than
      an equal share are settled with what they ask for. */
  method DivideIncoming(peers: array<Peer>, connectedPeers: uint32, incomingBandwidth: uint32, now: uint32)
    returns (bandwidthLimit: uint32)
    requires connectedPeers == Waiting(peers[..], now) > 0
    requires forall i {:trigger peers[i]} :: 0 <= i < peers.Length ==> peers[i].incomingThrottleEpoch != now
    modifies peers
    ensures SamePeers(old(peers[..]), peers[..])
    ensures incomingBandwidth == 0 ==> bandwidthLimit == 0 && peers[..] == old(peers[..])
    ensures incomingBandwidth > 0 ==> Fair(peers[..], incomingBandwidth, bandwidthLimit, now)
  {
    bandwidthLimit := 0;
    if incomingBandwidth == 0 {
      return;
    }
    hide Waiting, Given, Modest, Fair, SamePeers, Divided, WaitingImmodest;
    ghost var s0 := peers[..];
    var peersRemaining: nat, bandwidth: nat, needsAdjustment := connectedPeers, incomingBandwidth, true;
    NoneSettled(s0, now);
    DividedFirst(s0, bandwidth, peersRemaining, now);
    while peersRemaining > 0 && needsAdjustment
      invariant SamePeers(s0, peers[..]) && bandwidthLimit <= incomingBandwidth && bandwidth <= incomingBandwidth
      invariant Divided(peers[..], bandwidth, peersRemaining, incomingBandwidth, bandwidthLimit, now)
      invariant !needsAdjustment ==> peersRemaining > 0 && bandwidthLimit == bandwidth / peersRemaining
      invariant !needsAdjustment || peersRemaining == 0 ==>
        WaitingImmodest(peers[..], peers.Length, bandwidthLimit, now)
      decreases peersRemaining, needsAdjustment
    {
      ghost var s := peers[..];
      RaiseLimit(s, bandwidth, peersRemaining, incomingBandwidth, bandwidthLimit, now);
      bandwidthLimit := bandwidth / peersRemaining;
      needsAdjustment, peersRemaining, bandwidth :=
        SettleModest(peers, bandwidthLimit, peersRemaining, bandwidth, now, incomingBandwidth);
      StillDivided(peers[..], bandwidth, peersRemaining, incomingBandwidth, bandwidthLimit, now);
      SameTwice(s0, s, peers[..]);
    }
    DividedFairly(peers[..], bandwidth, peersRemaining, incomingBandwidth, bandwidthLimit, now);
  }

  lemma DividedFirst(peers: seq<Peer>, bandwidth: nat, remaining: nat, now: uint32)
    requires remaining == Waiting(peers, now) && Given(peers, now) == 0
    requires forall i {:trigger peers[i]} :: 0 <= i < |peers| ==> peers[i].incomingThrottleEpoch != now
    ensures Divided(peers, bandwidth, remaining, bandwidth, 0, now) && SamePeers(peers, peers)
  {
  }

  lemma RaiseLimit(peers: seq<Peer>, bandwidth: nat, remaining: nat, all: nat, limit: nat, now: uint32)
    requires Divided(peers, bandwidth, remaining, all, limit, now) && remaining > 0
    ensures limit <= bandwidth / remaining <= bandwidth <= all
    ensures Divided(peers, bandwidth, remaining, all, bandwidth / remaining, now)
  {
    LimitGrows(bandwidth, remaining, limit);
    hide Waiting, Given;
  }

  lemma StillDivided(peers: seq<Peer>, bandwidth: nat, remaining: nat, all: nat, limit: nat, now: uint32)
    requires Divided(peers, bandwidth, remaining, all, limit, now)
    ensures bandwidth <= all
  {
  }

  lemma SameTwice(a: seq<Peer>, b: seq<Peer>, c: seq<Peer>)
    requires SamePeers(a, b) && SamePeers(b, c)
    ensures SamePeers(a, c)
  {
    forall i {:trigger c[i]} | 0 <= i < |a|
      ensures c[i].(incomingThrottleEpoch := 0) == a[i].(incomingThrottleEpoch := 0)
    {
      var _ := b[i];
      assert b[i].(incomingThrottleEpoch := 0) == a[i].(incomingThrottleEpoch := 0);
    }
  }

  lemma DividedFairly(peers: seq<Peer>, bandwidth: nat, remaining: nat, all: nat, limit: nat, now: uint32)
    requires Divided(peers, bandwidth, remaining, all, limit, now) && WaitingImmodest(peers, |peers|, limit, now)
    requires remaining > 0 ==> limit == bandwidth / remaining
    ensures Fair(peers, all, limit, now)
  {
    if remaining > 0 {
      ShareBounds(bandwidth, remaining);
    }
    hide Waiting, Given;
  }

  lemma NoneSettled(peers: seq<Peer>, now: uint32)
    requires forall i {:trigger peers[i]} :: 0 <= i < |peers| ==> peers[i].incomingThrottleEpoch != now
    ensures Given(peers, now) == 0
  {
    NoneGiven(peers, now);
  }

  /** The limit never falls from one round to the next. */
  lemma LimitGrows(bandwidth: nat, n: nat, limit: nat)
    requires n > 0 && limit * n <= bandwidth
    ensures limit <= bandwidth / n <= bandwidth && bandwidth / n * n <= bandwidth
  {
    ShareBounds(bandwidth, n);
    var q := bandwidth / n;
    if q + 1 <= limit {
      Grows(q + 1, limit, n);
    }
    Grows(1, n, q);
  }

  lemma Grows(a: nat, b: nat, n: nat)
    requires a <= b
    ensures a * n <= b * n
  {
  }

  lemma ShareBounds(bandwidth: nat, n: nat)
    requires n > 0
    ensures bandwidth / n * n <= bandwidth < (bandwidth / n + 1) * n
  {
    assert bandwidth == bandwidth / n * n + bandwidth % n;
  }

  /** Settling a modest peer leaves an equal share at the limit for each of the others. */
  lemma TakeShare(bandwidth: nat, limit: nat, n: nat, amount: nat)
    requires limit * n <= bandwidth && n > 0 && amount <= limit
    ensures amount <= bandwidth && limit * (n - 1) <= bandwidth - amount
  {
    assert limit * n == limit * (n - 1) + limit;
  }

  // ----- throttling the outgoing data -----

  /** A product or sum of 32-bit words. */
  function Wrapped(n: int): uint32 { n % TWO_32 }

  /** A bandwidth over the elapsed milliseconds. */
  function Over(bandwidth: uint32, elapsed: uint32): uint32 { Wrapped(bandwidth * elapsed) / 1000 }

  function ThrottleFor(bandwidth: uint32, dataTotal: uint32): uint32 {
    if dataTotal <= bandwidth then SCALE else Wrapped(bandwidth * SCALE) / dataTotal
  }

  predicate Active(peer: Peer, now: uint32) { peer.connected && peer.outgoingThrottleEpoch != now }

  /** A peer whose throttled data would exceed what it can receive. */
  predicate Overrun(peer: Peer, throttle: uint32, elapsed: uint32, now: uint32) {
    && Active(peer, now) && peer.incomingBandwidth != 0
    && Wrapped(throttle * peer.outgoingDataTotal) / SCALE > Over(peer.incomingBandwidth, elapsed)
  }

  /** The peer under a new throttle limit, its totals cleared. */
  function Limited(peer: Peer, limit: uint32): Peer {
    peer.(packetThrottleLimit := limit, packetThrottle := if peer.packetThrottle > limit then limit
      else peer.packetThrottle,
          incomingDataTotal := 0, outgoingDataTotal := 0)
  }

  /** The limit that fits a peer's own bandwidth, but at least 1. */
  function OwnLimit(peer: Peer, elapsed: uint32): uint32
    requires peer.outgoingDataTotal > 0
  {
    var limit := Wrapped(Over(peer.incomingBandwidth, elapsed) * SCALE) / peer.outgoingDataTotal;
    if limit == 0 then 1 else limit
  }

  function Data(peer: Peer, now: uint32): nat { if Active(peer, now) then peer.outgoingDataTotal else 0 }

  function AllData(peers: seq<Peer>, now: uint32): nat { Total(peers, p => Data(p, now)) }

  function Actives(peers: seq<Peer>, now: uint32): nat { Count(peers, p => Active(p, now)) }

  /** The bandwidths of the peers that are overrun. */
  function OverrunBandwidth(peers: seq<Peer>, throttle: uint32, elapsed: uint32, now: uint32): nat {
    Total(peers, p => if Overrun(p, throttle, elapsed, now) then Over(p.incomingBandwidth, elapsed) else 0)
  }

  /** Nothing the allocator multiplies leaves 32 bits. */
  ghost predicate ProductsFit(peers: seq<Peer>, outgoingBandwidth: uint32, elapsed: uint32, now: uint32) {
    && outgoingBandwidth * elapsed < TWO_32
    && (outgoingBandwidth == 0 || Over(outgoingBandwidth, elapsed) * SCALE < TWO_32)
    && AllData(peers, now) * SCALE < TWO_32
    && (forall i {:trigger peers[i]} :: 0 <= i < |peers| ==> FitsOne(peers[i], elapsed))
  }

  predicate FitsOne(peer: Peer, elapsed: uint32) {
    && peer.incomingBandwidth * elapsed < TWO_32 && Over(peer.incomingBandwidth, elapsed) * SCALE < TWO_32
    && peer.outgoingDataTotal * SCALE < TWO_32
  }

  lemma {:induction false} FreezeOne(peers: seq<Peer>, i: nat, peer: Peer, now: uint32)
    requires i < |peers| && Active(peers[i], now) && !Active(peer, now)
    ensures AllData(peers[i := peer], now) == AllData(peers, now) - peers[i].outgoingDataTotal
    ensures peers[i].outgoingDataTotal <= AllData(peers, now)
    ensures Actives(peers[i := peer], now) == Actives(peers, now) - 1 && Actives(peers, now) > 0
  {
    CountUpdate(peers, i, peer, p => Active(p, now));
    TotalUpdate(peers, i, peer, p => Data(p, now));
  }

  // ----- the arithmetic of one peer -----

  /** Under a throttle that the bandwidth can carry for all the data, an overrun peer's own
      bandwidth fits both totals, and taking it off leaves room for the others. */
  lemma OverrunFits(throttle: nat, bandwidth: nat, dataTotal: nat, allData: nat, data: nat, own: nat)
    requires throttle <= SCALE && throttle * allData <= SCALE * bandwidth && allData <= dataTotal && data <= allData
    requires throttle * data / SCALE > own
    ensures own < data && own <= bandwidth && own <= dataTotal
    ensures throttle * (allData - data) <= SCALE * (bandwidth - own) && allData - data <= dataTotal - own
    ensures own * SCALE / data < throttle
  {
    var t := throttle * data;
    assert SCALE * (own + 1) <= t;
    Grows(throttle, SCALE, data);
    assert throttle * allData == throttle * (allData - data) + t;
    DivideLess(own * SCALE, data, throttle);
  }

  lemma DivideLess(n: nat, d: nat, q: nat)
    requires d > 0 && n < q * d
    ensures n / d < q
  {
    ShareBounds(n, d);
    if q <= n / d {
      Grows(q, n / d, d);
    }
  }

  /** The throttle is one that the bandwidth can carry for all the data. */
  lemma ThrottleCarries(bandwidth: uint32, dataTotal: uint32)
    requires dataTotal > bandwidth ==> bandwidth * SCALE < TWO_32
    ensures ThrottleFor(bandwidth, dataTotal) <= SCALE
    ensures ThrottleFor(bandwidth, dataTotal) * dataTotal <= SCALE * bandwidth
  {
    if dataTotal > bandwidth {
      ShareBounds(bandwidth * SCALE, dataTotal);
      DivideLess(bandwidth * SCALE, dataTotal, SCALE);
    } else {
      Grows(dataTotal, bandwidth, SCALE);
    }
  }

  lemma ThrottleIs(bandwidth: uint32, dataTotal: uint32)
    requires dataTotal > bandwidth ==> bandwidth * SCALE < TWO_32
    ensures ThrottleFor(bandwidth, dataTotal) == if dataTotal <= bandwidth then SCALE else SCALE * bandwidth / dataTotal
  {
  }

  /** Taking the same amount off both totals never raises the throttle. */
  lemma ThrottleFalls(bandwidth: uint32, dataTotal: uint32, x: nat)
    requires dataTotal > bandwidth ==> bandwidth * SCALE < TWO_32
    requires x <= bandwidth && x <= dataTotal
    ensures ThrottleFor(bandwidth - x, dataTotal - x) <= ThrottleFor(bandwidth, dataTotal)
  {
    hide ThrottleFor;
    ThrottleIs(bandwidth, dataTotal);
    ThrottleIs(bandwidth - x, dataTotal - x);
    if dataTotal > bandwidth {
      QuotientFalls(bandwidth, dataTotal, x);
    }
  }

  lemma QuotientFalls(b: nat, d: nat, x: nat)
    requires x <= b < d
    ensures SCALE * (b - x) / (d - x) <= SCALE * b / d
  {
    var n, q := SCALE * b, SCALE * b / d;
    ShareBounds(n, d);
    DivideLess(n, d, SCALE);
    Grows(q + 1, SCALE, x);
    Minus(q + 1, d, x);
    DivideLess(SCALE * (b - x), d - x, q + 1);
  }

  lemma Minus(a: nat, b: nat, x: nat)
    requires x <= b
    ensures a * (b - x) == a * b - a * x
  {
  }

  // ----- one round -----

  /** A peer after a round at `throttle`: an overrun peer is settled with its own limit. */
  function AfterRound(peer: Peer, throttle: uint32, elapsed: uint32, now: uint32): Peer {
    if Overrun(peer, throttle, elapsed, now)
    then (OverrunHasData(peer, throttle, elapsed, now);
          Limited(peer.(outgoingThrottleEpoch := now), OwnLimit(peer, elapsed)))
    else peer
  }

  lemma OverrunHasData(peer: Peer, throttle: uint32, elapsed: uint32, now: uint32)
    requires Overrun(peer, throttle, elapsed, now)
    ensures peer.outgoingDataTotal > 0
  {
    assert peer.outgoingDataTotal == 0 ==> throttle * peer.outgoingDataTotal == 0;
  }

  ghost predicate AllFit(peers: seq<Peer>, elapsed: uint32) {
    forall i {:trigger peers[i]} :: 0 <= i < |peers| ==> FitsOne(peers[i], elapsed)
  }

  ghost predicate Rounded(peers: seq<Peer>, peers1: seq<Peer>, n: nat, throttle: uint32, elapsed: uint32, now: uint32) {
    && |peers1| == |peers| && n <= |peers|
    && (forall i {:trigger peers1[i]} :: 0 <= i < n ==> peers1[i] == AfterRound(peers[i], throttle, elapsed, now))
    && (forall i {:trigger peers1[i]} :: n <= i < |peers| ==> peers1[i] == peers[i])
  }

  /** The totals carry the throttled data of the active peers. */
  ghost predicate Carries(throttle: nat, bandwidth: nat, dataTotal: nat, allData: nat) {
    throttle <= SCALE && throttle * allData <= SCALE * bandwidth && allData <= dataTotal
  }

  /** What settling one overrun peer does to the totals. */
  lemma SettleOverrun(peers: seq<Peer>, i: nat, throttle: uint32, bandwidth: uint32, dataTotal: uint32,
                      elapsed: uint32, now: uint32)
    requires i < |peers| && Overrun(peers[i], throttle, elapsed, now) && FitsOne(peers[i], elapsed)
    requires Carries(throttle, bandwidth, dataTotal, AllData(peers, now))
    ensures var own, peer := Over(peers[i].incomingBandwidth, elapsed), AfterRound(peers[i], throttle, elapsed, now);
      && own <= bandwidth && own <= dataTotal
      && Carries(throttle, bandwidth - own, dataTotal - own, AllData(peers[i := peer], now))
      && Actives(peers[i := peer], now) == Actives(peers, now) - 1 && Actives(peers, now) > 0
      && FitsOne(peer, elapsed) && peer.packetThrottle <= peer.packetThrottleLimit <= 32
  {
    var p := peers[i];
    OverrunHasData(p, throttle, elapsed, now);
    NoWrap(p, throttle, elapsed);
    FreezeOne(peers, i, AfterRound(p, throttle, elapsed, now), now);
    hide AllData, Actives, Over, Wrapped;
    OverrunFits(throttle, bandwidth, dataTotal, AllData(peers, now), p.outgoingDataTotal,
                Over(p.incomingBandwidth, elapsed));
  }

  lemma NoWrap(peer: Peer, throttle: nat, elapsed: uint32)
    requires FitsOne(peer, elapsed) && throttle <= SCALE
    ensures 0 <= throttle * peer.outgoingDataTotal < TWO_32
    ensures Wrapped(throttle * peer.outgoingDataTotal) == throttle * peer.outgoingDataTotal
    ensures Wrapped(Over(peer.incomingBandwidth, elapsed) * SCALE) == Over(peer.incomingBandwidth, elapsed) * SCALE
  {
    Grows(throttle, SCALE, peer.outgoingDataTotal);
  }

  /** One pass over the peers at a given throttle. */
  method Round(peers: array<Peer>, throttle: uint32, oldRemaining: uint32, oldBandwidth: uint32, oldTotal: uint32,
               elapsed: uint32, now: uint32)
    returns (needsAdjustment: bool, peersRemaining: uint32, bandwidth: uint32, dataTotal: uint32)
    requires Carries(throttle, oldBandwidth, oldTotal, AllData(peers[..], now))
    requires oldRemaining == Actives(peers[..], now) && AllFit(peers[..], elapsed)
    modifies peers
    ensures Rounded(old(peers[..]), peers[..], peers.Length, throttle, elapsed, now)
    ensures peersRemaining == Actives(peers[..], now) && AllFit(peers[..], elapsed)
    ensures needsAdjustment ==> peersRemaining < oldRemaining
    ensures !needsAdjustment ==> peers[..] == old(peers[..]) && peersRemaining == oldRemaining
    ensures var x := OverrunBandwidth(old(peers[..]), throttle, elapsed, now);
      x <= oldBandwidth && x <= oldTotal && bandwidth == oldBandwidth - x && dataTotal == oldTotal - x
    ensures Carries(throttle, bandwidth, dataTotal, AllData(peers[..], now))
  {
    hide Count, Total, AllData, Actives, AfterRound, Overrun, Over, FitsOne, Carries, OverrunBandwidth;
    ghost var s0 := peers[..];
    needsAdjustment, peersRemaining, bandwidth, dataTotal := false, oldRemaining, oldBandwidth, oldTotal;
    var i := 0;
    OverrunNone(s0[..0], throttle, elapsed, now);
    while i < peers.Length
      invariant 0 <= i <= peers.Length && Rounded(s0, peers[..], i, throttle, elapsed, now)
      invariant peersRemaining == Actives(peers[..], now) <= oldRemaining && AllFit(peers[..], elapsed)
      invariant needsAdjustment <==> peersRemaining < oldRemaining
      invariant !needsAdjustment ==> peers[..] == s0
      invariant bandwidth + OverrunBandwidth(s0[..i], throttle, elapsed, now) == oldBandwidth
      invariant dataTotal + OverrunBandwidth(s0[..i], throttle, elapsed, now) == oldTotal
      invariant Carries(throttle, bandwidth, dataTotal, AllData(peers[..], now))
    {
      ghost var s := peers[..];
      OverrunMore(s0, i, throttle, elapsed, now);
      OverrunIs(s0[i], throttle, elapsed, now);
      if !peers[i].connected || peers[i].incomingBandwidth == 0 || peers[i].outgoingThrottleEpoch == now {
        i := i + 1;
        continue;
      }
      var peerBandwidth := Over(peers[i].incomingBandwidth, elapsed);
      if Wrapped(throttle * peers[i].outgoingDataTotal) / SCALE <= peerBandwidth {
        i := i + 1;
        continue;
      }
      SettleOverrun(s, i, throttle, bandwidth, dataTotal, elapsed, now);
      var peer := peers[i];
      var limit := OwnLimit(peer, elapsed);
      peer := peer.(packetThrottleLimit := limit);
      if peer.packetThrottle > peer.packetThrottleLimit {
        peer := peer.(packetThrottle := peer.packetThrottleLimit);
      }
      peer := peer.(outgoingThrottleEpoch := now);
      peer := peer.(incomingDataTotal := 0, outgoingDataTotal := 0);
      peers[i] := peer;
      assert peers[..] == s[i := peer];
      needsAdjustment := true;
      peersRemaining := peersRemaining - 1;
      bandwidth := bandwidth - peerBandwidth;
      dataTotal := dataTotal - peerBandwidth;
      i := i + 1;
    }
    assert s0[..peers.Length] == s0;
  }

  lemma OverrunIs(peer: Peer, throttle: uint32, elapsed: uint32, now: uint32)
    ensures Overrun(peer, throttle, elapsed, now) <==>
      !(!peer.connected || peer.incomingBandwidth == 0 || peer.outgoingThrottleEpoch == now)
      && Wrapped(throttle * peer.outgoingDataTotal) / SCALE > Over(peer.incomingBandwidth, elapsed)
    ensures Overrun(peer, throttle, elapsed, now) ==> peer.outgoingDataTotal > 0
    ensures AfterRound(peer, throttle, elapsed, now) ==
      if !Overrun(peer, throttle, elapsed, now) then peer
      else if peer.outgoingDataTotal > 0 then Limited(peer.(outgoingThrottleEpoch := now), OwnLimit(peer, elapsed))
        else peer
  {
    if Overrun(peer, throttle, elapsed, now) { OverrunHasData(peer, throttle, elapsed, now); }
  }

  lemma OverrunNone(peers: seq<Peer>, throttle: uint32, elapsed: uint32, now: uint32)
    requires peers == []
    ensures OverrunBandwidth(peers, throttle, elapsed, now) == 0
  {
  }

  lemma OverrunMore(peers: seq<Peer>, i: nat, throttle: uint32, elapsed: uint32, now: uint32)
    requires i < |peers|
    ensures OverrunBandwidth(peers[..i + 1], throttle, elapsed, now)
      == OverrunBandwidth(peers[..i], throttle, elapsed, now)
      + (if Overrun(peers[i], throttle, elapsed, now) then Over(peers[i].incomingBandwidth, elapsed) else 0)
  {
    assert peers[..i + 1][..i] == peers[..i];
  }

  // ----- all rounds -----

  /** A connected peer's new throttle: its own limit when its share of the data at the first
      throttle is more than it can receive, the common one otherwise. */
  function Throttled(peer: Peer, adjusts: bool, first: uint32, last: uint32, elapsed: uint32, now: uint32): Peer {
    if !peer.connected then peer
    else if adjusts && Overrun(peer, first, elapsed, now) then AfterRound(peer, first, elapsed, now)
    else Limited(peer, last)
  }

  /** A second round changes nothing: taking the overrun peers' bandwidth off both totals
      lowers the throttle, if anything. */
  lemma SecondRoundIdle(peers: seq<Peer>, peers1: seq<Peer>, throttle: uint32, throttle1: uint32, elapsed: uint32,
                        now: uint32)
    requires Rounded(peers, peers1, |peers|, throttle, elapsed, now) && AllFit(peers, elapsed)
    requires throttle1 <= throttle <= SCALE
    ensures forall i {:trigger peers1[i]} :: 0 <= i < |peers1| ==> !Overrun(peers1[i], throttle1, elapsed, now)
    ensures OverrunBandwidth(peers1, throttle1, elapsed, now) == 0
    ensures forall q {:trigger Rounded(peers1, q, |peers1|, throttle1, elapsed, now)} ::
      Rounded(peers1, q, |peers1|, throttle1, elapsed, now) ==> q == peers1
  {
    forall i | 0 <= i < |peers1| ensures !Overrun(peers1[i], throttle1, elapsed, now) {
      assert peers1[i] == AfterRound(peers[i], throttle, elapsed, now);
      NoWrap(peers[i], throttle, elapsed);
      NoWrap(peers[i], throttle1, elapsed);
      Grows(throttle1, throttle, peers[i].outgoingDataTotal);
      hide Wrapped, Over;
    }
    NoOverrun(peers1, throttle1, elapsed, now);
    forall q | Rounded(peers1, q, |peers1|, throttle1, elapsed, now) ensures q == peers1 {
      assert forall i :: 0 <= i < |q| ==> q[i] == peers1[i];
    }
  }

  lemma {:induction false} NoOverrun(peers: seq<Peer>, throttle: uint32, elapsed: uint32, now: uint32)
    requires forall i {:trigger peers[i]} :: 0 <= i < |peers| ==> !Overrun(peers[i], throttle, elapsed, now)
    ensures OverrunBandwidth(peers, throttle, elapsed, now) == 0
    decreases |peers|
  {
    if peers != [] {
      NoOverrun(peers[..|peers| - 1], throttle, elapsed, now);
    }
  }

  /** Where the totals start: unlimited when the host's outgoing bandwidth is. */
  function FirstBandwidth(outgoingBandwidth: uint32, elapsed: uint32): uint32 {
    if outgoingBandwidth == 0 then TWO_32 - 1 else Over(outgoingBandwidth, elapsed)
  }

  function FirstTotal(peers: seq<Peer>, outgoingBandwidth: uint32, now: uint32): uint32 {
    if outgoingBandwidth == 0 then TWO_32 - 1 else Wrapped(AllData(peers, now))
  }

  /** The sum of the connected peers' outgoing data. */
  method SumData(peers: array<Peer>, now: uint32) returns (dataTotal: uint32)
    requires forall i {:trigger peers[i]} :: 0 <= i < peers.Length ==> peers[i].outgoingThrottleEpoch != now
    ensures dataTotal == Wrapped(AllData(peers[..], now))
  {
    dataTotal := 0;
    hide Total;
    EmptyTotal(peers[..0], now);
    for i := 0 to peers.Length
      invariant dataTotal == Wrapped(AllData(peers[..i], now))
    {
      MoreData(peers[..], i, now);
      WrappedSum(AllData(peers[..i], now), Data(peers[i], now));
      assert peers[..][..i] == peers[..i] && peers[..][..i + 1] == peers[..i + 1];
      if !peers[i].connected {
        continue;
      }
      dataTotal := Wrapped(dataTotal + peers[i].outgoingDataTotal);
    }
    assert peers[..peers.Length] == peers[..];
  }

  lemma EmptyTotal(peers: seq<Peer>, now: uint32)
    requires peers == []
    ensures AllData(peers, now) == 0
  {
  }

  lemma MoreData(peers: seq<Peer>, i: nat, now: uint32)
    requires i < |peers|
    ensures AllData(peers[..i + 1], now) == AllData(peers[..i], now) + Data(peers[i], now)
  {
    assert peers[..i + 1][..i] == peers[..i];
  }

  lemma WrappedSum(a: nat, b: nat)
    ensures Wrapped(Wrapped(a) + b) == Wrapped(a + b)
  {
    assert a == a / TWO_32 * TWO_32 + Wrapped(a);
    var n := Wrapped(a) + b;
    assert n == n / TWO_32 * TWO_32 + n % TWO_32;
    assert a + b == (a / TWO_32 + n / TWO_32) * TWO_32 + n % TWO_32;
  }

  /** What the first throttle can rely on. */
  lemma FirstCarries(peers: seq<Peer>, outgoingBandwidth: uint32, elapsed: uint32, now: uint32)
    requires ProductsFit(peers, outgoingBandwidth, elapsed, now)
    ensures var b, d := FirstBandwidth(outgoingBandwidth, elapsed), FirstTotal(peers, outgoingBandwidth, now);
      && (d > b ==> b * SCALE < TWO_32)
      && Carries(ThrottleFor(b, d), b, d, AllData(peers, now))
    ensures AllFit(peers, elapsed)
  {
    var b, d := FirstBandwidth(outgoingBandwidth, elapsed), FirstTotal(peers, outgoingBandwidth, now);
    ThrottleCarries(b, d);
    hide ThrottleFor, Over, AllData;
    var t := ThrottleFor(b, d);
    Grows(AllData(peers, now), d, t);
    assert t * AllData(peers, now) == AllData(peers, now) * t && t * d == d * t;
  }

  /** The throttle after the first round still fits the totals left. */
  lemma LaterCarries(b: uint32, d: uint32, x: nat, allData: nat)
    requires (d > b ==> b * SCALE < TWO_32) && x <= b && x <= d && allData <= d - x
    ensures Carries(ThrottleFor(b - x, d - x), b - x, d - x, allData)
    ensures ThrottleFor(b - x, d - x) <= ThrottleFor(b, d) <= SCALE
    ensures d - x > b - x ==> (b - x) * SCALE < TWO_32
  {
    ThrottleFalls(b, d, x);
    ThrottleCarries(b, d);
    ThrottleCarries(b - x, d - x);
    var t := ThrottleFor(b - x, d - x);
    hide ThrottleFor;
    Grows(allData, d - x, t);
    assert t * allData == allData * t && t * (d - x) == (d - x) * t;
  }

  /** Throttles the peers' outgoing data. */
  method ThrottleOutgoing(peers: array<Peer>, connectedPeers: uint32, bandwidthLimitedPeers: nat,
                          outgoingBandwidth: uint32, elapsed: uint32, now: uint32)
    requires forall i {:trigger peers[i]} :: 0 <= i < peers.Length ==> peers[i].outgoingThrottleEpoch != now
    requires connectedPeers == Actives(peers[..], now) > 0
    requires ProductsFit(peers[..], outgoingBandwidth, elapsed, now)
    modifies peers
    ensures var s0, adjusts := old(peers[..]), bandwidthLimitedPeers > 0;
      var b, d := FirstBandwidth(outgoingBandwidth, elapsed), FirstTotal(s0, outgoingBandwidth, now);
      var first := ThrottleFor(b, d);
      var x := if adjusts then OverrunBandwidth(s0, first, elapsed, now) else 0;
      && x <= b && x <= d
      && forall i {:trigger peers[i]} :: 0 <= i < peers.Length ==>
           peers[i] == Throttled(s0[i], adjusts, first, ThrottleFor(b - x, d - x), elapsed, now)
  {
    hide Count, Total, AllData, Actives, Overrun, Over, FitsOne, Carries, OverrunBandwidth, ThrottleFor,
      FirstBandwidth, FirstTotal, ProductsFit, AfterRound, Limited, AllFit;
    ghost var s0, adjusts := peers[..], bandwidthLimitedPeers > 0;
    ghost var b, d := FirstBandwidth(outgoingBandwidth, elapsed), FirstTotal(s0, outgoingBandwidth, now);
    ghost var first, x := ThrottleFor(b, d), 0;
    FirstCarries(s0, outgoingBandwidth, elapsed, now);
    var peersRemaining, dataTotal: uint32, bandwidth: uint32, throttle: uint32 :=
      connectedPeers, 0xFFFF_FFFF, 0xFFFF_FFFF, 0;
    var needsAdjustment := bandwidthLimitedPeers > 0;
    if outgoingBandwidth != 0 {
      dataTotal := SumData(peers, now);
      bandwidth := Over(outgoingBandwidth, elapsed);
    }
    FirstAre(s0, outgoingBandwidth, elapsed, now);
    FirstFits(b, d, s0, elapsed, now);
    ghost var round := 0;
    while peersRemaining > 0 && needsAdjustment
      invariant x <= b && x <= d && bandwidth == b - x && dataTotal == d - x
      invariant peersRemaining == Actives(peers[..], now) && AllFit(peers[..], elapsed)
      invariant AllData(peers[..], now) <= dataTotal
      invariant round == 0 ==> peers[..] == s0 && x == 0 && needsAdjustment == adjusts
      invariant round > 0 ==> adjusts && Rounded(s0, peers[..], |s0|, first, elapsed, now)
      invariant round > 0 ==> x == OverrunBandwidth(s0, first, elapsed, now)
      decreases peersRemaining, needsAdjustment
    {
      ghost var s := peers[..];
      throttle := ThrottleFor(bandwidth, dataTotal);
      LaterCarries(b, d, x, AllData(s, now));
      if round > 0 { SecondRoundIdle(s0, s, first, throttle, elapsed, now); }
      needsAdjustment, peersRemaining, bandwidth, dataTotal :=
        Round(peers, throttle, peersRemaining, bandwidth, dataTotal, elapsed, now);
      CarriesData(throttle, bandwidth, dataTotal, AllData(peers[..], now));
      if round == 0 { x := OverrunBandwidth(s0, first, elapsed, now); }
      round := round + 1;
    }
    ghost var s1 := peers[..];
    throttle := ThrottleFor(bandwidth, dataTotal);
    if peersRemaining > 0 {
      for i := 0 to peers.Length
        invariant forall j {:trigger peers[j]} :: 0 <= j < i ==>
          peers[j] == if Active(s1[j], now) then Limited(s1[j], throttle) else s1[j]
        invariant forall j {:trigger peers[j]} :: i <= j < peers.Length ==> peers[j] == s1[j]
      {
        if !peers[i].connected || peers[i].outgoingThrottleEpoch == now {
          continue;
        }
        LimitedIs(peers[i], throttle);
        var peer := peers[i].(packetThrottleLimit := throttle);
        if peer.packetThrottle > peer.packetThrottleLimit {
          peer := peer.(packetThrottle := peer.packetThrottleLimit);
        }
        peers[i] := peer.(incomingDataTotal := 0, outgoingDataTotal := 0);
      }
    } else {
      NoneActive(s1, now);
    }
    forall i {:trigger peers[i]} | 0 <= i < peers.Length
      ensures peers[i] == Throttled(s0[i], adjusts, first, throttle, elapsed, now)
    {
      ThrottledIs(s0[i], s1[i], adjusts, first, throttle, elapsed, now);
    }
  }

  lemma FirstAre(peers: seq<Peer>, outgoingBandwidth: uint32, elapsed: uint32, now: uint32)
    ensures FirstBandwidth(outgoingBandwidth, elapsed) == if outgoingBandwidth == 0 then 0xFFFF_FFFF
      else Over(outgoingBandwidth, elapsed)
    ensures FirstTotal(peers, outgoingBandwidth, now) == if outgoingBandwidth == 0 then 0xFFFF_FFFF
      else Wrapped(AllData(peers, now))
  {
  }

  lemma FirstFits(b: uint32, d: uint32, peers: seq<Peer>, elapsed: uint32, now: uint32)
    requires Carries(ThrottleFor(b, d), b, d, AllData(peers, now))
    ensures AllData(peers, now) <= d
  {
  }

  lemma CarriesData(throttle: nat, bandwidth: nat, dataTotal: nat, allData: nat)
    requires Carries(throttle, bandwidth, dataTotal, allData)
    ensures allData <= dataTotal
  {
  }

  lemma LimitedIs(peer: Peer, limit: uint32)
    ensures Limited(peer, limit) == peer.(packetThrottleLimit := limit,
      packetThrottle := if peer.packetThrottle > limit then limit else peer.packetThrottle, incomingDataTotal :=
        0, outgoingDataTotal := 0)
  {
  }

  lemma NoneActive(peers: seq<Peer>, now: uint32)
    requires Actives(peers, now) == 0
    ensures forall i {:trigger peers[i]} :: 0 <= i < |peers| ==> !Active(peers[i], now)
  {
    CountNone(peers, p => Active(p, now));
  }

  lemma ThrottledIs(peer: Peer, peer1: Peer, adjusts: bool, first: uint32, last: uint32, elapsed: uint32, now: uint32)
    requires peer.outgoingThrottleEpoch != now
    requires peer1 == if adjusts then AfterRound(peer, first, elapsed, now) else peer
    ensures Throttled(peer, adjusts, first, last, elapsed, now) == if Active(peer1, now) then Limited(peer1, last)
      else peer1
  {
    hide Over, Wrapped;
    OverrunIs(peer, first, elapsed, now);
  }

  /** Every connected peer's throttle ends at or below its limit, and no limit is above 32. */
  lemma ThrottledBounded(peer: Peer, adjusts: bool, first: uint32, last: uint32, elapsed: uint32, now: uint32)
    requires FitsOne(peer, elapsed) && last <= first <= SCALE && peer.connected
    ensures var peer1 := Throttled(peer, adjusts, first, last, elapsed, now);
      && peer1.packetThrottle <= peer1.packetThrottleLimit <= 32
      && peer1.packetThrottle <= peer.packetThrottle
      && peer1.incomingDataTotal == peer1.outgoingDataTotal == 0
  {
    if adjusts && Overrun(peer, first, elapsed, now) {
      NoWrap(peer, first, elapsed);
      OverrunHasData(peer, first, elapsed, now);
      hide Over, Wrapped;
      var own := Over(peer.incomingBandwidth, elapsed);
      assert own * SCALE < first * peer.outgoingDataTotal;
      DivideLess(own * SCALE, peer.outgoingDataTotal, first);
    }
  }

  /** Every connected peer's throttle is at or below its limit, and that at or below 32. */
  ghost predicate AllBounded(peers: seq<Peer>) {
    forall i {:trigger peers[i]} :: 0 <= i < |peers| && peers[i].connected ==>
      peers[i].packetThrottle <= peers[i].packetThrottleLimit <= 32
  }

  lemma ThrottledAll(peers: seq<Peer>, peers1: seq<Peer>, adjusts: bool, outgoingBandwidth: uint32, elapsed: uint32,
                     now: uint32)
    requires |peers1| == |peers| && ProductsFit(peers, outgoingBandwidth, elapsed, now)
    requires var b, d := FirstBandwidth(outgoingBandwidth, elapsed), FirstTotal(peers, outgoingBandwidth, now);
      var first := ThrottleFor(b, d);
      var x := if adjusts then OverrunBandwidth(peers, first, elapsed, now) else 0;
      && x <= b && x <= d
      && forall i {:trigger peers1[i]} :: 0 <= i < |peers| ==>
           peers1[i] == Throttled(peers[i], adjusts, first, ThrottleFor(b - x, d - x), elapsed, now)
    ensures AllBounded(peers1)
  {
    var b, d := FirstBandwidth(outgoingBandwidth, elapsed), FirstTotal(peers, outgoingBandwidth, now);
    var first := ThrottleFor(b, d);
    var x := if adjusts then OverrunBandwidth(peers, first, elapsed, now) else 0;
    FirstAre(peers, outgoingBandwidth, elapsed, now);
    FirstCarries(peers, outgoingBandwidth, elapsed, now);
    AtMostScale(b, d, peers, elapsed, now);
    hide FirstBandwidth, FirstTotal, ThrottleFor, OverrunBandwidth, Throttled, Over, AllData, Carries, Wrapped;
    ThrottleFalls(b, d, x);
    forall i {:trigger peers1[i]} | 0 <= i < |peers1| && peers1[i].connected
      ensures peers1[i].packetThrottle <= peers1[i].packetThrottleLimit <= 32
    {
      var _ := peers[i];
      ConnectedSame(peers[i], adjusts, first, ThrottleFor(b - x, d - x), elapsed, now);
      ThrottledBounded(peers[i], adjusts, first, ThrottleFor(b - x, d - x), elapsed, now);
    }
  }

  lemma AtMostScale(b: uint32, d: uint32, peers: seq<Peer>, elapsed: uint32, now: uint32)
    requires Carries(ThrottleFor(b, d), b, d, AllData(peers, now))
    ensures ThrottleFor(b, d) <= SCALE
  {
  }

  lemma ConnectedSame(peer: Peer, adjusts: bool, first: uint32, last: uint32, elapsed: uint32, now: uint32)
    ensures Throttled(peer, adjusts, first, last, elapsed, now).connected == peer.connected
  {
  }

  lemma StillBounded(peers: seq<Peer>, peers1: seq<Peer>)
    requires AllBounded(peers) && SamePeers(peers, peers1)
    ensures AllBounded(peers1)
  {
    forall i {:trigger peers1[i]} | 0 <= i < |peers1| && peers1[i].connected
      ensures peers1[i].packetThrottle <= peers1[i].packetThrottleLimit <= 32
    {
      assert peers1[i].(incomingThrottleEpoch := 0) == peers[i].(incomingThrottleEpoch := 0);
    }
  }

  // ----- the host -----

  /** No peer was throttled at this very time before. */
  ghost predicate Untouched(peers: seq<Peer>, now: uint32) {
    forall i {:trigger peers[i]} :: 0 <= i < |peers| ==>
      peers[i].incomingThrottleEpoch != now && peers[i].outgoingThrottleEpoch != now
  }

  lemma AllWait(peers: seq<Peer>, now: uint32)
    requires Untouched(peers, now)
    ensures Actives(peers, now) == Connected(peers)
  {
    CountSame(peers, peers, p => Active(p, now), (p: Peer) => p.connected);
  }

  lemma StillWait(peers: seq<Peer>, peers1: seq<Peer>, now: uint32)
    requires Untouched(peers, now) && |peers1| == |peers|
    requires forall i {:trigger peers1[i]} :: 0 <= i < |peers| ==>
      peers1[i].connected == peers[i].connected && peers1[i].incomingThrottleEpoch == peers[i].incomingThrottleEpoch
    ensures Waiting(peers1, now) == Connected(peers)
  {
    CountSame(peers, peers1, (p: Peer) => p.connected, p => Waits(p, now));
  }

  datatype Announcement = Announcement(peer: nat, incomingBandwidth: uint32)

  /** The bandwidth limits announced to the connected peers, in their order. */
  function Announced(peers: seq<Peer>, limit: uint32, now: uint32): seq<Announcement>
    decreases |peers|
  {
    if peers == [] then [] else (
      var k := |peers| - 1;
      Announced(peers[..k], limit, now)
      + (if peers[k].connected then [Announcement(k, Told(peers[k], limit, now))] else []))
  }

  class Host {
    var peers: array<Peer>
    var bandwidthThrottleEpoch: uint32
    var connectedPeers: uint32
    var bandwidthLimitedPeers: nat
    var outgoingBandwidth: uint32
    var incomingBandwidth: uint32
    var recalculateBandwidthLimits: bool

    ghost function Clock(): ThrottleClock.Clock
      reads this
    {
      ThrottleClock.Clock(bandwidthThrottleEpoch, recalculateBandwidthLimits)
    }

    /** Once a second, throttles the outgoing data, and after a change divides the incoming
        bandwidth anew and announces it. */
    method BandwidthThrottle(timeCurrent: uint32) returns (announced: seq<Announcement>, bandwidthLimit: uint32)
      requires connectedPeers == Connected(peers[..]) && Untouched(peers[..], timeCurrent)
      requires var elapsed := Wrapped(timeCurrent - bandwidthThrottleEpoch);
        ProductsFit(peers[..], outgoingBandwidth, elapsed, timeCurrent)
      modifies this`bandwidthThrottleEpoch, this`recalculateBandwidthLimits, peers
      ensures peers == old(peers)
      ensures var elapsed := Wrapped(timeCurrent - old(bandwidthThrottleEpoch));
        var s0, adjusts := old(peers[..]), bandwidthLimitedPeers > 0;
        var (clock, call) := ThrottleClock.Called(old(Clock()), timeCurrent, connectedPeers > 0);
        && Clock() == clock
        && if !call.Throttles? then peers[..] == s0 && announced == []
        else (
          var b, d := FirstBandwidth(outgoingBandwidth, elapsed), FirstTotal(s0, outgoingBandwidth, timeCurrent);
          var first := ThrottleFor(b, d);
          var x := if adjusts then OverrunBandwidth(s0, first, elapsed, timeCurrent) else 0;
          && x <= b && x <= d
          && (forall i {:trigger peers[i]} :: 0 <= i < peers.Length ==>
                peers[i].(incomingThrottleEpoch := 0)
                == Throttled(s0[i], adjusts, first, ThrottleFor(b - x, d - x), elapsed,
                             timeCurrent).(incomingThrottleEpoch := 0))
          && (if !call.announces then announced == []
              else (
                && announced == Announced(peers[..], bandwidthLimit, timeCurrent)
                && (if incomingBandwidth == 0 then bandwidthLimit == 0
                    else Fair(peers[..], incomingBandwidth, bandwidthLimit, timeCurrent)
                         && Shared(peers[..], incomingBandwidth, bandwidthLimit, timeCurrent))))
          && AllBounded(peers[..]))
    {
      hide Count, Total, Actives, Overrun, Over, OverrunBandwidth, ThrottleFor, FirstBandwidth, FirstTotal,
        ProductsFit, Throttled, Fair, Connected, Shared, AllBounded;
      var elapsed := Wrapped(timeCurrent - bandwidthThrottleEpoch);
      announced, bandwidthLimit := [], 0;
      if elapsed < ThrottleClock.THROTTLE_INTERVAL {
        return;
      }
      bandwidthThrottleEpoch := timeCurrent;
      if connectedPeers == 0 {
        return;
      }
      ghost var s0 := peers[..];
      AllWait(s0, timeCurrent);
      ThrottleOutgoing(peers, connectedPeers, bandwidthLimitedPeers, outgoingBandwidth, elapsed, timeCurrent);
      ghost var s1 := peers[..];
      ThrottledAll(s0, s1, bandwidthLimitedPeers > 0, outgoingBandwidth, elapsed, timeCurrent);
      if recalculateBandwidthLimits {
        recalculateBandwidthLimits := false;
        ghost var adjusts := bandwidthLimitedPeers > 0;
        ghost var b, d := FirstBandwidth(outgoingBandwidth, elapsed), FirstTotal(s0, outgoingBandwidth, timeCurrent);
        ghost var x := if adjusts then OverrunBandwidth(s0, ThrottleFor(b, d), elapsed, timeCurrent) else 0;
        ThrottledKeeps(s0, s1, adjusts, ThrottleFor(b, d), ThrottleFor(b - x, d - x), elapsed, timeCurrent);
        StillWait(s0, s1, timeCurrent);
        bandwidthLimit := DivideIncoming(peers, connectedPeers, incomingBandwidth, timeCurrent);
        StillBounded(s1, peers[..]);
        if incomingBandwidth > 0 {
          FairShares(peers[..], incomingBandwidth, bandwidthLimit, timeCurrent);
        }
        announced := Announce(peers, bandwidthLimit, timeCurrent);
      }
    }

    /** Tells every connected peer what it may send. */
    method Announce(peers: array<Peer>, bandwidthLimit: uint32, now: uint32) returns (announced: seq<Announcement>)
      ensures announced == Announced(peers[..], bandwidthLimit, now)
    {
      announced := [];
      for i := 0 to peers.Length
        invariant announced == Announced(peers[..i], bandwidthLimit, now)
      {
        assert peers[..i + 1][..i] == peers[..i];
        if !peers[i].connected {
          continue;
        }
        if peers[i].incomingThrottleEpoch == now {
          announced := announced + [Announcement(i, peers[i].outgoingBandwidth)];
        } else {
          announced := announced + [Announcement(i, bandwidthLimit)];
        }
      }
      assert peers[..peers.Length] == peers[..];
    }
  }

  lemma ThrottledKeeps(peers: seq<Peer>, peers1: seq<Peer>, adjusts: bool, first: uint32, last: uint32, elapsed: uint32,
                       now: uint32)
    requires |peers1| == |peers|
    requires forall i {:trigger peers1[i]} :: 0 <= i < |peers| ==>
      peers1[i] == Throttled(peers[i], adjusts, first, last, elapsed, now)
    ensures forall i {:trigger peers1[i]} :: 0 <= i < |peers| ==>
      peers1[i].connected == peers[i].connected && peers1[i].incomingThrottleEpoch == peers[i].incomingThrottleEpoch
  {
  }
}
