/** The futures strategy engine: ticks are reduced to order-book metrics,
    folded into one-minute bars kept in bounded histories, and the bars drive
    a four-factor entry score that yields WAIT, BUY, SELL or NO_SIGNAL. */
module FuturesEngine {
  import opened Numeric
  import opened Depth

  // ----- Order book (50/30/20 weights) -----

  datatype OrderBook = OrderBook(
    pressureScore: real, totalBidQty: int, totalAskQty: int, bestBid: real, bestAsk: real)

  const NearWeight: int := 50
  const MidWeight: int := 30
  const FarWeight: int := 20

  /** The order-book metrics of a depth snapshot. */
  function OrderBookOf(depth: seq<Level>): (ob: OrderBook)
    ensures depth == [] ==> ob == OrderBook(0.0, 0, 0, 0.0, 0.0)
    ensures depth != [] ==> ob.bestBid == depth[0].bidPrice && ob.bestAsk == depth[0].askPrice
    ensures ob.totalBidQty == TierSumsOf(depth).nearBid + TierSumsOf(depth).midBid + TierSumsOf(depth).farBid
    ensures ob.totalAskQty == TierSumsOf(depth).nearAsk + TierSumsOf(depth).midAsk + TierSumsOf(depth).farAsk
    ensures |depth| > MaxLevels ==> ob == OrderBookOf(depth[..MaxLevels])
  {
    if depth == [] then OrderBook(0.0, 0, 0, 0.0, 0.0)
    else
      var t := TierSumsOf(depth);
      OrderBook(Pressure(t, NearWeight, MidWeight, FarWeight), t.totalBid, t.totalAsk,
                depth[0].bidPrice, depth[0].askPrice)
  }

  /** With non-negative quantities the pressure score lies in [-100, 100]. */
  lemma PressureInRange(depth: seq<Level>)
    requires NonNegativeQuantities(depth)
    ensures -100.0 <= OrderBookOf(depth).pressureScore <= 100.0
  {
    if depth != [] {
      PressureWithinWeights(depth, NearWeight, MidWeight, FarWeight);
    }
  }

  /** The depth loop followed by the tier imbalances and the weighted score. */
  method ExtractOrderBook(depth: seq<Level>) returns (ob: OrderBook)
    ensures ob == OrderBookOf(depth)
  {
    if depth == [] {
      return OrderBook(0.0, 0, 0, 0.0, 0.0);
    }
    var t := AccumulateTiers(depth);
    var top5Imb := Imbalance(t.nearBid, t.nearAsk);
    var mid10Imb := Imbalance(t.midBid, t.midAsk);
    var deep15Imb := Imbalance(t.farBid, t.farAsk);
    var pressureScore := top5Imb * NearWeight as real + mid10Imb * MidWeight as real + deep15Imb * FarWeight as real;
    ob := OrderBook(pressureScore, t.totalBid, t.totalAsk, depth[0].bidPrice, depth[0].askPrice);
  }

  // ----- Ticks and bars -----

  /** A feed update after parsing: the depth is still the raw level list. */
  datatype RawTick = RawTick(
    timestamp: int, ltp: real, ltq: int, depth: seq<Level>,
    gamma: real, delta: real, oi: int, iv: real)

  datatype Tick = Tick(
    timestamp: int, ltp: real, ltq: int, orderBook: OrderBook,
    gamma: real, delta: real, oi: int, iv: real)

  function TickOf(raw: RawTick): Tick
  {
    Tick(raw.timestamp, raw.ltp, raw.ltq, OrderBookOf(raw.depth), raw.gamma, raw.delta, raw.oi, raw.iv)
  }

  function Price(t: Tick): real { t.ltp }
  function Qty(t: Tick): int { t.ltq }
  function TradedValue(t: Tick): real { t.ltp * t.ltq as real }
  function TickPressure(t: Tick): real { t.orderBook.pressureScore }
  function TickGamma(t: Tick): real { t.gamma }
  function Stamp(t: Tick): int { t.timestamp }

  datatype Bar = Bar(
    timestamp: int, open: real, high: real, low: real, close: real,
    volume: int, vwap: real, avgPressure: real, avgGamma: real)

  function Volume(b: Bar): int { b.volume }
  function BarVwap(b: Bar): real { b.vwap }
  function BarValue(b: Bar): real { b.vwap * b.volume as real }
  function BarGamma(b: Bar): real { b.avgGamma }

  const MaxTicks: nat := 10000
  const MaxBars: nat := 500

  /** Volume-weighted average price of a non-empty tick list, falling back to
      the first tick's price when the total quantity is not positive. */
  function Vwap(ticks: seq<Tick>): (r: real)
    requires |ticks| > 0
    ensures SumI(ticks, Qty) <= 0 ==> r == ticks[0].ltp
  {
    var totalVolume := SumI(ticks, Qty);
    if totalVolume > 0 then SumR(ticks, TradedValue) / totalVolume as real else ticks[0].ltp
  }

  predicate NonNegativeQtys(ticks: seq<Tick>)
  {
    forall k :: 0 <= k < |ticks| ==> ticks[k].ltq >= 0
  }

  /** With non-negative quantities the VWAP lies between the lowest and the
      highest traded price. */
  lemma VwapWithinPrices(ticks: seq<Tick>)
    requires |ticks| > 0 && NonNegativeQtys(ticks)
    ensures MinR(ticks, Price) <= Vwap(ticks) <= MaxR(ticks, Price)
  {
    VwapBetween(ticks, MinR(ticks, Price), MaxR(ticks, Price));
  }

  lemma VwapBetween(ticks: seq<Tick>, lo: real, hi: real)
    requires |ticks| > 0 && NonNegativeQtys(ticks)
    requires forall k :: 0 <= k < |ticks| ==> lo <= ticks[k].ltp <= hi
    ensures lo <= Vwap(ticks) <= hi
  {
    var vol := SumI(ticks, Qty);
    if vol > 0 {
      TradedValueBounds(ticks, lo, hi);
      DivBetween(SumR(ticks, TradedValue), vol as real, lo, hi);
      VwapIsQuotient(ticks);
    } else {
      assert lo <= ticks[0].ltp <= hi;
    }
  }

  lemma TradedValueBounds(ticks: seq<Tick>, lo: real, hi: real)
    requires NonNegativeQtys(ticks)
    requires forall k :: 0 <= k < |ticks| ==> lo <= ticks[k].ltp <= hi
    ensures SumI(ticks, Qty) as real * lo <= SumR(ticks, TradedValue) <= SumI(ticks, Qty) as real * hi
  {
    forall k | 0 <= k < |ticks|
      ensures WeightedTerm(ticks[k], Price, Qty, TradedValue, lo, hi)
    {
    }
    WeightedSumBounds(ticks, Price, Qty, TradedValue, lo, hi);
  }

  lemma VwapIsQuotient(ticks: seq<Tick>)
    requires |ticks| > 0 && SumI(ticks, Qty) > 0
    ensures Vwap(ticks) == SumR(ticks, TradedValue) / SumI(ticks, Qty) as real
  {
  }

  /** When every quantity is 1 the VWAP is the arithmetic mean of the prices. */
  lemma {:induction false} VwapOfUnitQuantities(ticks: seq<Tick>)
    requires |ticks| > 0
    requires forall k :: 0 <= k < |ticks| ==> ticks[k].ltq == 1
    ensures Vwap(ticks) == MeanR(ticks, Price)
  {
    UnitQuantitySums(ticks);
  }

  lemma {:induction false} UnitQuantitySums(ticks: seq<Tick>)
    requires forall k :: 0 <= k < |ticks| ==> ticks[k].ltq == 1
    ensures SumI(ticks, Qty) == |ticks|
    ensures SumR(ticks, TradedValue) == SumR(ticks, Price)
  {
    if ticks != [] {
      var p := ticks[..|ticks| - 1];
      assert forall k :: 0 <= k < |p| ==> p[k] == ticks[k];
      UnitQuantitySums(p);
    }
  }

  /** A bar whose low and high bracket its open and its close. */
  predicate WellFormedBar(b: Bar)
  {
    b.low <= b.open <= b.high && b.low <= b.close <= b.high
  }

  /** The bar built from the ticks of one minute. */
  function MakeBar(minuteTicks: seq<Tick>, minute: int): (b: Bar)
    requires |minuteTicks| > 0
    ensures WellFormedBar(b)
    ensures b.timestamp == minute * MinuteMs && MinuteOf(b.timestamp) == minute
    ensures b.low == MinR(minuteTicks, Price) && b.high == MaxR(minuteTicks, Price)
    ensures b.open == minuteTicks[0].ltp && b.close == minuteTicks[|minuteTicks| - 1].ltp
  {
    MinuteOfBucketStart(minute);
    var n := |minuteTicks| as real;
    Bar(minute * MinuteMs,
        minuteTicks[0].ltp,
        MaxR(minuteTicks, Price),
        MinR(minuteTicks, Price),
        minuteTicks[|minuteTicks| - 1].ltp,
        SumI(minuteTicks, Qty),
        Vwap(minuteTicks),
        SumR(minuteTicks, TickPressure) / n,
        SumR(minuteTicks, TickGamma) / n)
  }

  /** No two adjacent bars share a minute, and every bar is well formed. */
  predicate BarsWellFormed(bars: seq<Bar>)
  {
    (forall k :: 0 <= k < |bars| ==> WellFormedBar(bars[k]))
    && (forall k :: 0 < k < |bars| ==> MinuteOf(bars[k - 1].timestamp) != MinuteOf(bars[k].timestamp))
  }

  /** The bar list after `create_one_minute_bar` ran on the given ticks: a bar
      is opened only when the newest tick's minute differs from the last bar's
      minute, from the ticks of that minute present at that moment. */
  function NextBars(bars: seq<Bar>, ticks: seq<Tick>): seq<Bar>
  {
    if |ticks| < 2 then bars
    else
      var currentMinute := MinuteOf(ticks[|ticks| - 1].timestamp);
      if bars != [] && MinuteOf(bars[|bars| - 1].timestamp) == currentMinute then bars
      else
        var minuteTicks := MinuteTicks(ticks, Stamp, currentMinute);
        if minuteTicks == [] then bars
        else Evict(bars + [MakeBar(minuteTicks, currentMinute)], MaxBars)
  }

  /** Appending a well-formed bar of a new minute keeps the bars well formed. */
  lemma AppendKeepsWellFormed(bars: seq<Bar>, b: Bar)
    requires BarsWellFormed(bars) && WellFormedBar(b)
    requires bars != [] ==> MinuteOf(bars[|bars| - 1].timestamp) != MinuteOf(b.timestamp)
    ensures BarsWellFormed(bars + [b])
  {
    var s := bars + [b];
    assert forall k :: 0 <= k < |bars| ==> s[k] == bars[k];
  }

  /** Evicting the oldest bar keeps the bars well formed. */
  lemma EvictKeepsWellFormed(bars: seq<Bar>, cap: nat)
    requires bars != [] && BarsWellFormed(bars)
    ensures BarsWellFormed(Evict(bars, cap))
  {
    var r := Evict(bars, cap);
    if r != bars {
      assert forall k :: 0 <= k < |r| ==> r[k] == bars[k + 1];
    }
  }

  /** The bar step keeps the history bounded and well formed, and either
      leaves it alone or appends one bar for the newest tick's minute,
      evicting at most the oldest bar. */
  lemma NextBarsProperties(bars: seq<Bar>, ticks: seq<Tick>)
    requires |bars| <= MaxBars && BarsWellFormed(bars)
    ensures |NextBars(bars, ticks)| <= MaxBars && BarsWellFormed(NextBars(bars, ticks))
  {
    if |ticks| >= 2 {
      var m := MinuteOf(ticks[|ticks| - 1].timestamp);
      if !(bars != [] && MinuteOf(bars[|bars| - 1].timestamp) == m) {
        var mt := MinuteTicks(ticks, Stamp, m);
        if mt != [] {
          var b := MakeBar(mt, m);
          AppendKeepsWellFormed(bars, b);
          EvictKeepsWellFormed(bars + [b], MaxBars);
        }
      }
    }
  }

  /** When the bar step changes anything, it appends one bar for the newest
      tick's minute, which differs from the previous last bar's minute, and
      drops the oldest bar only when the cap is exceeded. */
  lemma NextBarsAppendsNewestMinute(bars: seq<Bar>, ticks: seq<Tick>)
    requires NextBars(bars, ticks) != bars
    ensures |ticks| >= 2
    ensures bars != [] ==> MinuteOf(bars[|bars| - 1].timestamp) != MinuteOf(ticks[|ticks| - 1].timestamp)
    ensures var r := NextBars(bars, ticks);
      |r| > 0 && MinuteOf(r[|r| - 1].timestamp) == MinuteOf(ticks[|ticks| - 1].timestamp)
      && r[..|r| - 1] == (if |bars| + 1 > MaxBars then bars[1..] else bars)
  {
    var m := MinuteOf(ticks[|ticks| - 1].timestamp);
    var mt := MinuteTicks(ticks, Stamp, m);
    var b := MakeBar(mt, m);
    EvictAppend(bars, b, MaxBars);
  }

  /** Later ticks in the minute of the last bar never change the bars. */
  lemma SameMinuteLeavesBars(bars: seq<Bar>, ticks: seq<Tick>)
    requires bars != [] && ticks != []
    requires MinuteOf(bars[|bars| - 1].timestamp) == MinuteOf(ticks[|ticks| - 1].timestamp)
    ensures NextBars(bars, ticks) == bars
  {
  }

  /** Ticks at 0, 30000, 59999 and 61000 ms yield exactly two bars. The first
      is built when the second tick arrives and is not updated by the tick at
      59999, so its close is the price of the tick at 30000; the second bar
      opens with the tick at 61000. */
  lemma FourTickBars(t0: Tick, t1: Tick, t2: Tick, t3: Tick)
    requires t0.timestamp == 0 && t1.timestamp == 30000
    requires t2.timestamp == 59999 && t3.timestamp == 61000
    ensures NextBars([], [t0]) == []
    ensures NextBars([], [t0, t1]) == [MakeBar([t0, t1], 0)]
    ensures NextBars([MakeBar([t0, t1], 0)], [t0, t1, t2]) == [MakeBar([t0, t1], 0)]
    ensures NextBars([MakeBar([t0, t1], 0)], [t0, t1, t2, t3]) == [MakeBar([t0, t1], 0), MakeBar([t3], 1)]
    ensures MakeBar([t0, t1], 0).close == t1.ltp && MakeBar([t3], 1).open == t3.ltp
  {
    var b := MakeBar([t0, t1], 0);
    FirstBar(t0, t1);
    assert MinuteOf(59999) == 0;
    SameMinuteLeavesBars([b], [t0, t1, t2]);
    SecondBar(t0, t1, t2, t3);
  }

  lemma FirstBar(t0: Tick, t1: Tick)
    requires t0.timestamp == 0 && t1.timestamp == 30000
    ensures NextBars([], [t0, t1]) == [MakeBar([t0, t1], 0)]
  {
    FirstMinuteTicks(t0, t1);
    NewMinuteBar([], [t0, t1]);
    assert [] + [MakeBar([t0, t1], 0)] == [MakeBar([t0, t1], 0)];
  }

  lemma SecondBar(t0: Tick, t1: Tick, t2: Tick, t3: Tick)
    requires t0.timestamp == 0 && t1.timestamp == 30000
    requires t2.timestamp == 59999 && t3.timestamp == 61000
    ensures NextBars([MakeBar([t0, t1], 0)], [t0, t1, t2, t3]) == [MakeBar([t0, t1], 0), MakeBar([t3], 1)]
  {
    var b := MakeBar([t0, t1], 0);
    var c := MakeBar([t3], 1);
    SecondMinuteTicks(t0, t1, t2, t3);
    assert MinuteOf(61000) == 1;
    NewMinuteBar([b], [t0, t1, t2, t3]);
    assert [b] + [c] == [b, c];
  }

  lemma FirstMinuteTicks(t0: Tick, t1: Tick)
    requires t0.timestamp == 0 && t1.timestamp == 30000
    ensures MinuteTicks([t0, t1], Stamp, 0) == [t0, t1]
  {
    assert MinuteOf(0) == 0 && MinuteOf(30000) == 0;
    assert [t0, t1][..1] == [t0];
    assert [t0][..0] == [];
  }

  lemma SecondMinuteTicks(t0: Tick, t1: Tick, t2: Tick, t3: Tick)
    requires t0.timestamp == 0 && t1.timestamp == 30000
    requires t2.timestamp == 59999 && t3.timestamp == 61000
    ensures MinuteTicks([t0, t1, t2, t3], Stamp, 1) == [t3]
  {
    assert MinuteOf(0) == 0 && MinuteOf(30000) == 0 && MinuteOf(59999) == 0 && MinuteOf(61000) == 1;
    assert [t0, t1, t2, t3][..3] == [t0, t1, t2];
    assert [t0, t1, t2][..2] == [t0, t1];
    assert [t0, t1][..1] == [t0];
    assert [t0][..0] == [];
    assert MinuteTicks([t0], Stamp, 1) == [];
    assert MinuteTicks([t0, t1], Stamp, 1) == [];
    assert MinuteTicks([t0, t1, t2], Stamp, 1) == [];
  }

  // ----- Session VWAP and ATR -----

  /** Volume-weighted average of the bars' VWAPs: 0 for no bars, the first
      bar's close when the total volume is not positive. */
  function SessionVwap(bars: seq<Bar>): (r: real)
    ensures bars == [] ==> r == 0.0
    ensures bars != [] && SumI(bars, Volume) <= 0 ==> r == bars[0].close
  {
    if bars == [] then 0.0
    else
      var totalVolume := SumI(bars, Volume);
      if totalVolume > 0 then SumR(bars, BarValue) / totalVolume as real else bars[0].close
  }

  /** With non-negative volumes and some volume, the session VWAP lies
      between the lowest and the highest bar VWAP. */
  lemma SessionVwapWithinBarVwaps(bars: seq<Bar>)
    requires bars != [] && SumI(bars, Volume) > 0
    requires forall k :: 0 <= k < |bars| ==> bars[k].volume >= 0
    ensures MinR(bars, BarVwap) <= SessionVwap(bars) <= MaxR(bars, BarVwap)
  {
    SessionVwapBetween(bars, MinR(bars, BarVwap), MaxR(bars, BarVwap));
  }

  /** Any bounds on all bar VWAPs also bound the session VWAP. */
  lemma SessionVwapBetween(bars: seq<Bar>, lo: real, hi: real)
    requires bars != [] && SumI(bars, Volume) > 0
    requires forall k :: 0 <= k < |bars| ==> bars[k].volume >= 0 && lo <= bars[k].vwap <= hi
    ensures lo <= SessionVwap(bars) <= hi
  {
    BarValueBounds(bars, lo, hi);
    DivBetween(SumR(bars, BarValue), SumI(bars, Volume) as real, lo, hi);
    SessionVwapIsQuotient(bars);
  }

  lemma BarValueBounds(bars: seq<Bar>, lo: real, hi: real)
    requires forall k :: 0 <= k < |bars| ==> bars[k].volume >= 0 && lo <= bars[k].vwap <= hi
    ensures SumI(bars, Volume) as real * lo <= SumR(bars, BarValue) <= SumI(bars, Volume) as real * hi
  {
    forall k | 0 <= k < |bars|
      ensures WeightedTerm(bars[k], BarVwap, Volume, BarValue, lo, hi)
    {
    }
    WeightedSumBounds(bars, BarVwap, Volume, BarValue, lo, hi);
  }

  lemma SessionVwapIsQuotient(bars: seq<Bar>)
    requires bars != [] && SumI(bars, Volume) > 0
    ensures SessionVwap(bars) == SumR(bars, BarValue) / SumI(bars, Volume) as real
  {
  }

  function Max3(a: real, b: real, c: real): real
  {
    if a >= b && a >= c then a else if b >= c then b else c
  }

  function AbsR(x: real): real { if x < 0.0 then -x else x }

  /** `max(high - low, |high - prev_close|, |low - prev_close|)`. */
  function TrueRange(prev: Bar, cur: Bar): (tr: real)
    ensures tr >= cur.high - cur.low
    ensures tr >= AbsR(cur.high - prev.close) && tr >= AbsR(cur.low - prev.close)
    ensures tr == cur.high - cur.low || tr == AbsR(cur.high - prev.close) || tr == AbsR(cur.low - prev.close)
  {
    Max3(cur.high - cur.low, AbsR(cur.high - prev.close), AbsR(cur.low - prev.close))
  }

  /** The true ranges of consecutive pairs of a bar window. */
  function TrueRanges(recent: seq<Bar>): (trs: seq<real>)
    requires |recent| > 0
    ensures |trs| == |recent| - 1
    ensures forall k :: 0 <= k < |trs| ==> trs[k] == TrueRange(recent[k], recent[k + 1])
  {
    seq(|recent| - 1, k requires 0 <= k < |recent| - 1 => TrueRange(recent[k], recent[k + 1]))
  }

  function Id(x: real): real { x }

  /** Average true range over the last `period` bar pairs, or the sentinel 1
      when fewer than `period + 1` bars exist: `period` times the ATR is the
      sum of the true ranges, so it lies between the smallest and the largest. */
  function Atr(bars: seq<Bar>, period: nat): (r: real)
    requires period >= 1
    ensures |bars| < period + 1 ==> r == 1.0
    ensures |bars| >= period + 1 ==>
              var trs := TrueRanges(bars[|bars| - (period + 1)..]);
              |trs| == period && r == SumR(trs, Id) / period as real
              && MinR(trs, Id) <= r <= MaxR(trs, Id)
  {
    if |bars| < period + 1 then 1.0
    else
      var trs := TrueRanges(bars[|bars| - (period + 1)..]);
      assert |trs| == period;
      MeanR(trs, Id)
  }

  /** With bars whose high is at least their low, the ATR is non-negative and
      no smaller than the smallest high-low range of the window's last
      `period` bars. */
  lemma AtrAtLeastSmallestRange(bars: seq<Bar>, period: nat, floor: real)
    requires period >= 1 && |bars| >= period + 1
    requires forall k :: |bars| - period <= k < |bars| ==> bars[k].high - bars[k].low >= floor
    ensures Atr(bars, period) >= floor
  {
    var start := |bars| - (period + 1);
    var recent := bars[start..];
    var trs := TrueRanges(recent);
    forall k | 0 <= k < |trs| ensures Id(trs[k]) >= floor {
      assert recent[k + 1] == bars[start + k + 1];
    }
    SumRAtLeast(trs, Id, floor);
    DivAtLeast(SumR(trs, Id), |trs| as real, floor);
  }

  lemma AtrNonNegative(bars: seq<Bar>, period: nat)
    requires period >= 1 && BarsWellFormed(bars)
    ensures Atr(bars, period) >= 0.0
  {
    if |bars| >= period + 1 {
      assert forall k :: 0 <= k < |bars| ==> bars[k].high - bars[k].low >= 0.0 by {
        forall k | 0 <= k < |bars| ensures bars[k].high - bars[k].low >= 0.0 {
          assert WellFormedBar(bars[k]);
        }
      }
      AtrAtLeastSmallestRange(bars, period, 0.0);
    }
  }

  /** The ATR loop: one true range per consecutive pair of the last
      `period + 1` bars, then their mean. */
  method CalculateAtr(bars: seq<Bar>, period: nat) returns (atr: real)
    requires period >= 1
    ensures atr == Atr(bars, period)
  {
    if |bars| < period + 1 {
      return 1.0;
    }
    var recentBars := bars[|bars| - (period + 1)..];
    var trValues := TrueRangeValues(recentBars);
    atr := SumR(trValues, Id) / |trValues| as real;
  }

  /** The loop body of the ATR: the true range of each bar against the
      previous close. */
  method TrueRangeValues(recentBars: seq<Bar>) returns (trValues: seq<real>)
    requires |recentBars| > 0
    ensures trValues == TrueRanges(recentBars)
  {
    trValues := [];
    var i := 1;
    while i < |recentBars|
      invariant 1 <= i <= |recentBars|
      invariant |trValues| == i - 1
      invariant forall k :: 0 <= k < i - 1 ==> trValues[k] == TrueRange(recentBars[k], recentBars[k + 1])
    {
      var hl := recentBars[i].high - recentBars[i].low;
      var hc := AbsR(recentBars[i].high - recentBars[i - 1].close);
      var lc := AbsR(recentBars[i].low - recentBars[i - 1].close);
      trValues := trValues + [Max3(hl, hc, lc)];
      i := i + 1;
    }
  }

  // ----- Entry decision -----

  const DecisionBars: nat := 50
  const AtrPeriod: nat := 14
  const VolumeWindow: nat := 20
  const OrderQuantity: int := 75
  const Symbol: string := "NSE_FO|61755"

  datatype Side = Long | Short

  datatype Decision =
    | Wait(message: string)
    | Buy(symbol: string, side: Side, entry: real, stopLoss: real, target: real,
          quantity: int, confidence: int, score: int)
    | Sell(symbol: string, side: Side, entry: real, stopLoss: real, target: real,
           quantity: int, confidence: int, score: int)
    | NoSignal(score: int, confidence: int)

  /** The four inputs of the entry score, read off the bars and the newest tick. */
  datatype Signals = Signals(
    close: real, sessionVwap: real, pressure: real, priceChange: real,
    volumeRatio: real, tickGamma: real, avgGamma: real)

  /** What the decision reads, when at least 50 bars exist: the previous
      close must be non-zero (the source divides by it unguarded). */
  predicate DecisionReady(bars: seq<Bar>, ticks: seq<Tick>)
  {
    |bars| >= DecisionBars ==> |ticks| > 0 && bars[|bars| - 2].close != 0.0
  }

  function SignalsOf(bars: seq<Bar>, ticks: seq<Tick>): Signals
    requires |bars| >= DecisionBars && DecisionReady(bars, ticks)
  {
    var currentBar := bars[|bars| - 1];
    var previousBar := bars[|bars| - 2];
    var currentTick := ticks[|ticks| - 1];
    var recent := LastN(bars, VolumeWindow);
    var avgVolume := SumI(recent, Volume) as real / VolumeWindow as real;
    var volumeRatio := if avgVolume > 0.0 then currentBar.volume as real / avgVolume else 1.0;
    Signals(
      currentBar.close,
      SessionVwap(LastN(bars, DecisionBars)),
      currentTick.orderBook.pressureScore,
      (currentBar.close - previousBar.close) / previousBar.close * 100.0,
      volumeRatio,
      currentTick.gamma,
      SumR(recent, BarGamma) / VolumeWindow as real)
  }

  /** The composite score: +-25 for close vs session VWAP, +-35 for strong
      pressure, +-25 for a price move confirmed by volume, +15 for a gamma
      spike. */
  function Score(s: Signals): (score: int)
    ensures -85 <= score <= 100
  {
    var vwapPoints := if s.close > s.sessionVwap then 25 else -25;
    var pressurePoints := if s.pressure > 40.0 then 35 else if s.pressure < -40.0 then -35 else 0;
    var movePoints :=
      if s.priceChange > 0.3 && s.volumeRatio > 1.2 then 25
      else if s.priceChange < -0.3 && s.volumeRatio > 1.2 then -25
      else 0;
    var gammaPoints := if s.tickGamma > s.avgGamma * 1.5 then 15 else 0;
    vwapPoints + pressurePoints + movePoints + gammaPoints
  }

  /** The entry decision. BUY needs score > 50 and confidence > 60, which
      together mean score > 60; SELL is the mirror image. */
  function Decide(bars: seq<Bar>, ticks: seq<Tick>): (d: Decision)
    requires DecisionReady(bars, ticks)
    ensures d.Wait? <==> |bars| < DecisionBars
    ensures d.Buy? <==> |bars| >= DecisionBars && Score(SignalsOf(bars, ticks)) > 60
    ensures d.Sell? <==> |bars| >= DecisionBars && Score(SignalsOf(bars, ticks)) < -60
    ensures (d.Buy? || d.Sell? || d.NoSignal?) ==>
              d.score == Score(SignalsOf(bars, ticks)) && d.confidence == Confidence(d.score)
    ensures (d.Buy? || d.Sell?) ==>
              d.entry == bars[|bars| - 1].close && d.quantity == OrderQuantity && d.symbol == Symbol
    ensures d.Buy? ==> (d.side == Long && d.stopLoss == d.entry - 1.5 * Atr(bars, AtrPeriod)
                        && d.target == d.entry + 3.0 * Atr(bars, AtrPeriod))
    ensures d.Sell? ==> (d.side == Short && d.stopLoss == d.entry + 1.5 * Atr(bars, AtrPeriod)
                         && d.target == d.entry - 3.0 * Atr(bars, AtrPeriod))
  {
    if |bars| < DecisionBars then Wait("Collecting data...")
    else
      var close := bars[|bars| - 1].close;
      var atr := Atr(bars, AtrPeriod);
      var score := Score(SignalsOf(bars, ticks));
      var confidence := Confidence(score);
      if score > 50 && confidence > 60 then
        Buy(Symbol, Long, close, close - atr * 1.5, close + atr * 3.0, OrderQuantity, confidence, score)
      else if score < -50 && confidence > 60 then
        Sell(Symbol, Short, close, close + atr * 1.5, close - atr * 3.0, OrderQuantity, confidence, score)
      else NoSignal(score, confidence)
  }

  /** On well-formed bars the ATR is non-negative, so a BUY's stop is at or
      below its entry and its target at or above; a SELL the other way round. */
  lemma EntryBracketsPrice(bars: seq<Bar>, ticks: seq<Tick>)
    requires DecisionReady(bars, ticks) && BarsWellFormed(bars)
    ensures var d := Decide(bars, ticks);
      (d.Buy? ==> d.stopLoss <= d.entry <= d.target)
      && (d.Sell? ==> d.target <= d.entry <= d.stopLoss)
  {
    AtrNonNegative(bars, AtrPeriod);
  }

  // ----- The engine object -----

  /** What the engine keeps true of its lists: both are capped, bars exist
      only once two ticks have arrived, and the bars are well formed. */
  predicate EngineState(ticks: seq<Tick>, bars: seq<Bar>)
  {
    |ticks| <= MaxTicks && |bars| <= MaxBars
    && (bars != [] ==> |ticks| >= 2)
    && BarsWellFormed(bars)
  }

  /** Appending a tick to the capped tick list preserves the invariant. */
  lemma AppendTickKeepsState(ticks: seq<Tick>, bars: seq<Bar>, t: Tick)
    requires EngineState(ticks, bars)
    ensures EngineState(Evict(ticks + [t], MaxTicks), bars)
  {
  }

  /** The bar step preserves the invariant. */
  lemma NextBarsKeepsState(ticks: seq<Tick>, bars: seq<Bar>)
    requires EngineState(ticks, bars)
    ensures EngineState(ticks, NextBars(bars, ticks))
  {
    NextBarsProperties(bars, ticks);
  }

  /** Both lists of the engine at once. */
  datatype History = History(ticks: seq<Tick>, bars: seq<Bar>)

  /** One feed entry: its tick is appended under the cap, then the bar step
      runs over the new tick list. */
  function TickStep(h: History, raw: RawTick): (r: History)
    ensures |r.ticks| > 0 && r.ticks[|r.ticks| - 1] == TickOf(raw)
    ensures |h.ticks| <= MaxTicks ==> |r.ticks| <= MaxTicks
  {
    var ticks := Evict(h.ticks + [TickOf(raw)], MaxTicks);
    History(ticks, NextBars(h.bars, ticks))
  }

  /** The entries of one feed message processed in order. */
  function Feed(h: History, raws: seq<RawTick>): (r: History)
    ensures raws == [] ==> r == h
    ensures raws != [] ==> |r.ticks| > 0 && r.ticks[|r.ticks| - 1] == TickOf(raws[|raws| - 1])
  {
    Fold(h, raws, TickStep)
  }

  /** Every feed message preserves the engine's invariant. */
  lemma {:induction false} FeedKeepsState(h: History, raws: seq<RawTick>)
    requires EngineState(h.ticks, h.bars)
    ensures var r := Feed(h, raws); EngineState(r.ticks, r.bars)
  {
    if raws != [] {
      var p := Feed(h, raws[..|raws| - 1]);
      FeedKeepsState(h, raws[..|raws| - 1]);
      assert Feed(h, raws) == TickStep(p, raws[|raws| - 1]);
      AppendTickKeepsState(p.ticks, p.bars, TickOf(raws[|raws| - 1]));
      NextBarsKeepsState(Evict(p.ticks + [TickOf(raws[|raws| - 1])], MaxTicks), p.bars);
    }
  }

  /** The bar step in the case where it builds a bar. */
  lemma NewMinuteBar(bars: seq<Bar>, ticks: seq<Tick>)
    requires |ticks| >= 2
    requires var m := MinuteOf(ticks[|ticks| - 1].timestamp);
      (bars == [] || MinuteOf(bars[|bars| - 1].timestamp) != m) && MinuteTicks(ticks, Stamp, m) != []
    ensures var m := MinuteOf(ticks[|ticks| - 1].timestamp);
      var b := MakeBar(MinuteTicks(ticks, Stamp, m), m);
      NextBars(bars, ticks) == (if |bars + [b]| > MaxBars then (bars + [b])[1..] else bars + [b])
  {
  }

  class TradingEngine {
    var tickData: seq<Tick>
    var oneMinuteBars: seq<Bar>

    ghost predicate Valid()
      reads this
    {
      EngineState(tickData, oneMinuteBars)
    }

    constructor ()
      ensures Valid() && tickData == [] && oneMinuteBars == []
    {
      tickData := [];
      oneMinuteBars := [];
    }

    /** Appends the parsed tick to the capped tick list, then runs the bar step. */
    method ProcessTick(raw: RawTick)
      requires Valid()
      modifies this
      ensures Valid()
      ensures tickData == Evict(old(tickData) + [TickOf(raw)], MaxTicks)
      ensures |tickData| > 0 && tickData[|tickData| - 1] == TickOf(raw)
      ensures oneMinuteBars == NextBars(old(oneMinuteBars), tickData)
    {
      AppendTickKeepsState(tickData, oneMinuteBars, TickOf(raw));
      tickData := AppendTick(tickData, raw);
      CreateOneMinuteBar();
    }

    /** Parses one feed entry into a tick and appends it to the tick list,
        dropping the oldest tick beyond the cap. */
    static method AppendTick(ticks: seq<Tick>, raw: RawTick) returns (r: seq<Tick>)
      ensures r == Evict(ticks + [TickOf(raw)], MaxTicks)
    {
      var orderBook := ExtractOrderBook(raw.depth);
      var tick := Tick(raw.timestamp, raw.ltp, raw.ltq, orderBook, raw.gamma, raw.delta, raw.oi, raw.iv);
      r := ticks + [tick];
      if |r| > MaxTicks {
        r := r[1..];
      }
    }

    /** One feed message may carry several instruments; each is processed
        in turn. */
    method ProcessFeed(raws: seq<RawTick>)
      requires Valid()
      modifies this
      ensures Valid()
      ensures |raws| > 0 ==> |tickData| > 0 && tickData[|tickData| - 1] == TickOf(raws[|raws| - 1])
      ensures |raws| == 0 ==> tickData == old(tickData) && oneMinuteBars == old(oneMinuteBars)
      ensures History(tickData, oneMinuteBars) == Feed(History(old(tickData), old(oneMinuteBars)), raws)
    {
      for i := 0 to |raws|
        invariant Valid()
        invariant History(tickData, oneMinuteBars) == Feed(History(old(tickData), old(oneMinuteBars)), raws[..i])
      {
        ProcessTick(raws[i]);
        FoldStep(History(old(tickData), old(oneMinuteBars)), raws, i, TickStep);
      }
      assert raws[..|raws|] == raws;
    }

    method CreateOneMinuteBar()
      requires Valid()
      modifies this`oneMinuteBars
      ensures Valid()
      ensures oneMinuteBars == NextBars(old(oneMinuteBars), tickData)
    {
      NextBarsKeepsState(tickData, oneMinuteBars);
      oneMinuteBars := BarStep(oneMinuteBars, tickData);
    }

    /** The body of the bar step, on the current bars and ticks. */
    static method BarStep(bars: seq<Bar>, ticks: seq<Tick>) returns (r: seq<Bar>)
      ensures r == NextBars(bars, ticks)
    {
      r := bars;
      if |ticks| < 2 {
        return;
      }
      var currentTick := ticks[|ticks| - 1];
      var currentMinute := MinuteOf(currentTick.timestamp);
      if bars == [] || MinuteOf(bars[|bars| - 1].timestamp) != currentMinute {
        var minuteTicks := MinuteTicks(ticks, Stamp, currentMinute);
        if minuteTicks != [] {
          NewMinuteBar(bars, ticks);
          var bar := MakeBar(minuteTicks, currentMinute);
          r := bars + [bar];
          if |r| > MaxBars {
            r := r[1..];
          }
        }
      }
    }

    /** The latest tick's pressure, or 0 before the first tick. */
    function GetOrderBookPressure(): (p: real)
      reads this
      ensures tickData == [] ==> p == 0.0
      ensures tickData != [] ==> p == TickPressure(tickData[|tickData| - 1])
    {
      if tickData != [] then tickData[|tickData| - 1].orderBook.pressureScore else 0.0
    }

    /** The session VWAP of the last 50 bars, or 0 before the first bar. */
    function GetVwap(): (v: real)
      reads this
      ensures oneMinuteBars == [] ==> v == 0.0
      ensures (oneMinuteBars != [] && SumI(LastN(oneMinuteBars, DecisionBars), Volume) <= 0)
                ==> v == LastN(oneMinuteBars, DecisionBars)[0].close
      ensures oneMinuteBars != [] ==> v == SessionVwap(LastN(oneMinuteBars, DecisionBars))
    {
      if oneMinuteBars != [] then SessionVwap(LastN(oneMinuteBars, DecisionBars)) else 0.0
    }

    function GetTradingDecision(): (d: Decision)
      reads this
      requires Valid() && DecisionReady(oneMinuteBars, tickData)
      ensures d == Decide(oneMinuteBars, tickData)
    {
      Decide(oneMinuteBars, tickData)
    }
  }
}
