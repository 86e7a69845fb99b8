/** The order-book reduction both engines share: up to 30 depth levels, split
    into a near tier (indices 0-4), a mid tier (5-14) and a far tier (15-29),
    one bid/ask imbalance per tier, and a weighted pressure score. The two
    engines differ only in the weights and in what else they report. */
module Depth {
  import opened Numeric

  /** One depth level as the feed reports it; each field is 0 when absent. */
  datatype Level = Level(bidQty: int, askQty: int, bidPrice: real, askPrice: real)

  function BidQty(l: Level): int { l.bidQty }
  function AskQty(l: Level): int { l.askQty }

  /** Only the first 30 levels are read. */
  const MaxLevels: nat := 30
  /** The near tier ends before index 5, the mid tier before index 15. */
  const NearEnd: nat := 5
  const MidEnd: nat := 15

  function Min(a: nat, b: nat): nat { if a < b then a else b }

  /** The eight accumulators of the depth loop. */
  datatype TierSums = TierSums(
    totalBid: int, totalAsk: int,
    nearBid: int, nearAsk: int,
    midBid: int, midAsk: int,
    farBid: int, farAsk: int)

  /** What the depth loop accumulates, as a function of the depth. */
  function TierSumsOf(depth: seq<Level>): (t: TierSums)
    ensures t.totalBid == t.nearBid + t.midBid + t.farBid
    ensures t.totalAsk == t.nearAsk + t.midAsk + t.farAsk
    ensures |depth| > MaxLevels ==> t == TierSumsOf(depth[..MaxLevels])
    ensures depth == [] ==> t == TierSums(0, 0, 0, 0, 0, 0, 0, 0)
  {
    var n := Min(MaxLevels, |depth|);
    var a := Min(n, NearEnd);
    var b := Min(n, MidEnd);
    TierSplit(depth, a, b, n, BidQty);
    TierSplit(depth, a, b, n, AskQty);
    TruncatedTiers(depth, a, b, n);
    TierSums(
      SumI(depth[0..n], BidQty), SumI(depth[0..n], AskQty),
      SumI(depth[0..a], BidQty), SumI(depth[0..a], AskQty),
      SumI(depth[a..b], BidQty), SumI(depth[a..b], AskQty),
      SumI(depth[b..n], BidQty), SumI(depth[b..n], AskQty))
  }

  /** The sum over the first n levels is the sum over the three tiers. */
  lemma TierSplit(depth: seq<Level>, a: nat, b: nat, n: nat, f: Level -> int)
    requires a <= b <= n <= |depth|
    ensures SumI(depth[0..n], f) == SumI(depth[0..a], f) + SumI(depth[a..b], f) + SumI(depth[b..n], f)
  {
    SumISliceSplit(depth, 0, a, n, f);
    SumISliceSplit(depth, a, b, n, f);
  }

  /** Beyond 30 levels, the tiers of the depth are those of its first 30
      levels. */
  lemma TruncatedTiers(depth: seq<Level>, a: nat, b: nat, n: nat)
    requires a <= b <= n <= |depth| && n <= MaxLevels
    ensures |depth| > MaxLevels ==>
      var head := depth[..MaxLevels];
      head[0..n] == depth[0..n] && head[0..a] == depth[0..a]
      && head[a..b] == depth[a..b] && head[b..n] == depth[b..n]
  {
  }

  /** The depth loop: one pass over the first 30 levels, adding each level's
      quantities to the totals and to the accumulators of its tier. */
  method AccumulateTiers(depth: seq<Level>) returns (t: TierSums)
    ensures t == TierSumsOf(depth)
  {
    var n := Min(MaxLevels, |depth|);
    var totalBid, totalAsk := 0, 0;
    var nearBid, nearAsk := 0, 0;
    var midBid, midAsk := 0, 0;
    var farBid, farAsk := 0, 0;
    var idx := 0;
    while idx < n
      invariant 0 <= idx <= n
      invariant totalBid == SumI(depth[0..idx], BidQty) && totalAsk == SumI(depth[0..idx], AskQty)
      invariant nearBid == SumI(depth[0..Min(idx, NearEnd)], BidQty)
      invariant nearAsk == SumI(depth[0..Min(idx, NearEnd)], AskQty)
      invariant midBid == SumI(depth[Min(idx, NearEnd)..Min(idx, MidEnd)], BidQty)
      invariant midAsk == SumI(depth[Min(idx, NearEnd)..Min(idx, MidEnd)], AskQty)
      invariant farBid == SumI(depth[Min(idx, MidEnd)..idx], BidQty)
      invariant farAsk == SumI(depth[Min(idx, MidEnd)..idx], AskQty)
    {
      var bidQ := depth[idx].bidQty;
      var askQ := depth[idx].askQty;
      SumISliceStep(depth, 0, idx, BidQty);
      SumISliceStep(depth, 0, idx, AskQty);
      totalBid := totalBid + bidQ;
      totalAsk := totalAsk + askQ;
      if idx < NearEnd {
        assert Min(idx + 1, NearEnd) == Min(idx + 1, MidEnd) == idx + 1;
        nearBid := nearBid + bidQ;
        nearAsk := nearAsk + askQ;
      } else if idx < MidEnd {
        assert Min(idx + 1, NearEnd) == NearEnd && Min(idx + 1, MidEnd) == idx + 1;
        SumISliceStep(depth, NearEnd, idx, BidQty);
        SumISliceStep(depth, NearEnd, idx, AskQty);
        midBid := midBid + bidQ;
        midAsk := midAsk + askQ;
      } else {
        assert Min(idx + 1, NearEnd) == NearEnd && Min(idx + 1, MidEnd) == MidEnd;
        SumISliceStep(depth, MidEnd, idx, BidQty);
        SumISliceStep(depth, MidEnd, idx, AskQty);
        farBid := farBid + bidQ;
        farAsk := farAsk + askQ;
      }
      idx := idx + 1;
    }
    t := TierSums(totalBid, totalAsk, nearBid, nearAsk, midBid, midAsk, farBid, farAsk);
  }

  /** `(bid - ask) / (bid + ask)`, or 0 when the total is not positive. */
  function Imbalance(bid: int, ask: int): (r: real)
    ensures bid + ask <= 0 ==> r == 0.0
    ensures bid >= 0 && ask >= 0 ==> -1.0 <= r <= 1.0
    ensures bid + ask > 0 ==> (r > 0.0 <==> bid > ask) && (r < 0.0 <==> bid < ask)
  {
    var total := bid + ask;
    if total > 0 then
      QuotientSign((bid - ask) as real, total as real);
      QuotientWithinOne(bid, ask);
      (bid - ask) as real / total as real
    else 0.0
  }

  /** With non-negative quantities the difference is at most the total. */
  lemma QuotientWithinOne(bid: int, ask: int)
    requires bid + ask > 0
    ensures bid >= 0 && ask >= 0 ==> -1.0 <= (bid - ask) as real / (bid + ask) as real <= 1.0
  {
    if bid >= 0 && ask >= 0 {
      DivBetween((bid - ask) as real, (bid + ask) as real, -1.0, 1.0);
    }
  }

  /** Dividing by a positive number keeps the sign. */
  lemma QuotientSign(x: real, n: real)
    requires n > 0.0
    ensures (x / n > 0.0 <==> x > 0.0) && (x / n < 0.0 <==> x < 0.0)
  {
    var q := x / n;
    assert q * n == x;
    if q > 0.0 { assert q * n > 0.0; }
    if q < 0.0 { assert (-q) * n > 0.0; }
    if q == 0.0 { assert q * n == 0.0; }
  }

  /** Every level reports non-negative quantities. */
  predicate NonNegativeQuantities(depth: seq<Level>)
  {
    forall k :: 0 <= k < |depth| ==> depth[k].bidQty >= 0 && depth[k].askQty >= 0
  }

  /** One tier's imbalance times its weight. */
  function WeightedImbalance(bid: int, ask: int, w: int): real
  {
    Imbalance(bid, ask) * w as real
  }

  /** The weighted pressure of the three tier imbalances. */
  function Pressure(t: TierSums, wNear: int, wMid: int, wFar: int): real
  {
    WeightedImbalance(t.nearBid, t.nearAsk, wNear)
      + WeightedImbalance(t.midBid, t.midAsk, wMid)
      + WeightedImbalance(t.farBid, t.farAsk, wFar)
  }

  /** With non-negative quantities every tier sum is non-negative. */
  lemma TierSumsNonNegative(depth: seq<Level>)
    requires NonNegativeQuantities(depth)
    ensures NonNegativeTiers(TierSumsOf(depth))
  {
    var n := Min(MaxLevels, |depth|);
    SlicedSumsNonNegative(depth, 0, Min(n, NearEnd));
    SlicedSumsNonNegative(depth, Min(n, NearEnd), Min(n, MidEnd));
    SlicedSumsNonNegative(depth, Min(n, MidEnd), n);
  }

  lemma SlicedSumsNonNegative(depth: seq<Level>, i: nat, j: nat)
    requires NonNegativeQuantities(depth) && i <= j <= |depth|
    ensures SumI(depth[i..j], BidQty) >= 0 && SumI(depth[i..j], AskQty) >= 0
  {
    var s := depth[i..j];
    assert forall k :: 0 <= k < |s| ==> s[k] == depth[i + k];
    SumINonNegative(s, BidQty);
    SumINonNegative(s, AskQty);
  }

  /** A weighted imbalance in [-1, 1] stays within its non-negative weight. */
  lemma ScaledWithin(imb: real, w: int)
    requires -1.0 <= imb <= 1.0 && w >= 0
    ensures -(w as real) <= imb * w as real <= w as real
  {
    assert (imb + 1.0) * w as real >= 0.0;
    assert (1.0 - imb) * w as real >= 0.0;
  }

  /** Tier sums that are all non-negative. */
  predicate NonNegativeTiers(t: TierSums)
  {
    t.nearBid >= 0 && t.nearAsk >= 0 && t.midBid >= 0 && t.midAsk >= 0
      && t.farBid >= 0 && t.farAsk >= 0
  }

  /** With non-negative tier sums and weights the pressure lies within the
      sum of the weights. */
  lemma PressureBounded(t: TierSums, wNear: int, wMid: int, wFar: int)
    requires NonNegativeTiers(t)
    requires wNear >= 0 && wMid >= 0 && wFar >= 0
    ensures -((wNear + wMid + wFar) as real) <= Pressure(t, wNear, wMid, wFar)
    ensures Pressure(t, wNear, wMid, wFar) <= (wNear + wMid + wFar) as real
  {
    WeightedImbalanceWithin(t.nearBid, t.nearAsk, wNear);
    WeightedImbalanceWithin(t.midBid, t.midAsk, wMid);
    WeightedImbalanceWithin(t.farBid, t.farAsk, wFar);
  }

  /** One weighted tier imbalance lies within its non-negative weight. */
  lemma WeightedImbalanceWithin(bid: int, ask: int, w: int)
    requires bid >= 0 && ask >= 0 && w >= 0
    ensures -(w as real) <= WeightedImbalance(bid, ask, w) <= w as real
  {
    ScaledWithin(Imbalance(bid, ask), w);
  }

  /** With non-negative quantities and weights the pressure of a depth
      snapshot lies within the sum of the weights. */
  lemma PressureWithinWeights(depth: seq<Level>, wNear: int, wMid: int, wFar: int)
    requires NonNegativeQuantities(depth)
    requires wNear >= 0 && wMid >= 0 && wFar >= 0
    ensures -((wNear + wMid + wFar) as real) <= Pressure(TierSumsOf(depth), wNear, wMid, wFar)
    ensures Pressure(TierSumsOf(depth), wNear, wMid, wFar) <= (wNear + wMid + wFar) as real
  {
    TierSumsNonNegative(depth);
    PressureBounded(TierSumsOf(depth), wNear, wMid, wFar);
  }
}
