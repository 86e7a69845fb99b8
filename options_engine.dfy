/** The Nifty options buying strategy: the same tick and bar machinery as the
    futures engine with 30/30/40 tier weights, the bid-ask spread, Greek
    averages and the open-interest change; an eight-factor entry score that
    only ever buys a call (CE) or a put (PE); and a fixed-priority exit check
    that replaces the entry search while a position is open. */
module OptionsEngine {
  import opened Numeric
  import opened Depth

  // ----- Order book (30/30/40 weights, spread) -----

  datatype OrderBook = OrderBook(
    pressureScore: real, totalBidQty: int, totalAskQty: int,
    bestBid: real, bestAsk: real, spreadPercent: real)

  const NearWeight: int := 30
  const MidWeight: int := 30
  const FarWeight: int := 40

  const EmptyBook: OrderBook := OrderBook(0.0, 0, 0, 0.0, 0.0, 0.0)

  /** The spread as a percentage of the mid price, or 0 when the mid price
      is not positive. */
  function SpreadPercent(bestBid: real, bestAsk: real): (r: real)
    ensures bestBid + bestAsk <= 0.0 ==> r == 0.0
    ensures bestBid >= 0.0 && bestAsk >= 0.0 ==> -200.0 <= r <= 200.0
    ensures bestBid + bestAsk > 0.0 ==> (r > 0.0 <==> bestAsk > bestBid) && (r < 0.0 <==> bestAsk < bestBid)
  {
    var midPrice := (bestBid + bestAsk) / 2.0;
    if midPrice > 0.0 then
      var q := (bestAsk - bestBid) / midPrice;
      assert q * midPrice == bestAsk - bestBid;
      SpreadRatioBounded(bestBid, bestAsk);
      q * 100.0
    else 0.0
  }

  /** With non-negative prices the spread is at most twice the mid price. */
  lemma SpreadRatioBounded(bestBid: real, bestAsk: real)
    requires bestBid + bestAsk > 0.0
    ensures bestBid >= 0.0 && bestAsk >= 0.0 ==>
              -2.0 <= (bestAsk - bestBid) / ((bestBid + bestAsk) / 2.0) <= 2.0
  {
    if bestBid >= 0.0 && bestAsk >= 0.0 {
      DivBetween(bestAsk - bestBid, (bestBid + bestAsk) / 2.0, -2.0, 2.0);
    }
  }

  /** The order-book metrics of a depth snapshot, with the tier imbalance of
      trading_engine.py (see ExtractOrderBookAsWritten for the code as it
      stands in this file). */
  function OrderBookOf(depth: seq<Level>): (ob: OrderBook)
    ensures depth == [] ==> ob == EmptyBook
    ensures depth != [] ==> ob.bestBid == depth[0].bidPrice && ob.bestAsk == depth[0].askPrice
                            && ob.spreadPercent == SpreadPercent(depth[0].bidPrice, depth[0].askPrice)
    ensures ob.totalBidQty == TierSumsOf(depth).nearBid + TierSumsOf(depth).midBid + TierSumsOf(depth).farBid
    ensures ob.totalAskQty == TierSumsOf(depth).nearAsk + TierSumsOf(depth).midAsk + TierSumsOf(depth).farAsk
    ensures |depth| > MaxLevels ==> ob == OrderBookOf(depth[..MaxLevels])
  {
    if depth == [] then EmptyBook
    else
      var t := TierSumsOf(depth);
      OrderBook(Pressure(t, NearWeight, MidWeight, FarWeight), t.totalBid, t.totalAsk,
                depth[0].bidPrice, depth[0].askPrice,
                SpreadPercent(depth[0].bidPrice, depth[0].askPrice))
  }

  /** With non-negative quantities the pressure score lies in [-100, 100]. */
  lemma PressureInRange(depth: seq<Level>)
    requires NonNegativeQuantities(depth)
    ensures -100.0 <= OrderBookOf(depth).pressureScore <= 100.0
  {
    if depth != [] {
      PressureWithinWeights(depth, NearWeight, MidWeight, FarWeight);
    }
  }

  /** The depth loop, the tier imbalances, the weighted score and the spread. */
  method ExtractOrderBook(depth: seq<Level>) returns (ob: OrderBook)
    ensures ob == OrderBookOf(depth)
  {
    if depth == [] {
      return EmptyBook;
    }
    var t := AccumulateTiers(depth);
    var top5Imb := Imbalance(t.nearBid, t.nearAsk);
    var mid10Imb := Imbalance(t.midBid, t.midAsk);
    var deep15Imb := Imbalance(t.farBid, t.farAsk);
    var pressureScore := top5Imb * NearWeight as real + mid10Imb * MidWeight as real + deep15Imb * FarWeight as real;
    var bestBid := depth[0].bidPrice;
    var bestAsk := depth[0].askPrice;
    var midPrice := (bestBid + bestAsk) / 2.0;
    var spreadPercent := if midPrice > 0.0 then (bestAsk - bestBid) / midPrice * 100.0 else 0.0;
    assert pressureScore == Pressure(t, NearWeight, MidWeight, FarWeight);
    assert spreadPercent == SpreadPercent(bestBid, bestAsk);
    ob := OrderBook(pressureScore, t.totalBid, t.totalAsk, bestBid, bestAsk, spreadPercent);
  }

  // ----- The order book as written -----

  /** A computation that either yields a value or raises Python's NameError. */
  datatype Outcome<T> = Ok(value: T) | NameError(name: string)

  /** The order-book function as it stands: the imbalance helper it calls is
      defined only inside the futures engine's method, so every non-empty
      depth raises NameError before anything is returned. */
  function ExtractOrderBookAsWritten(depth: seq<Level>): (r: Outcome<OrderBook>)
    ensures depth == [] ==> r == Ok(EmptyBook)
    ensures depth != [] ==> r == NameError("calc_imb")
  {
    if depth == [] then Ok(EmptyBook) else NameError("calc_imb")
  }

  /** The tick list after the tick handler as it stands: the error escapes
      the tick construction and is caught around the whole feed loop, so the
      tick is never appended. */
  function TicksAfterAsWritten(ticks: seq<Tick>, raw: RawTick): (r: seq<Tick>)
    ensures raw.depth != [] ==> r == ticks
    ensures raw.depth == [] ==> |r| > 0 && r[|r| - 1] == TickWithBook(raw, EmptyBook)
  {
    match ExtractOrderBookAsWritten(raw.depth)
    case NameError(_) => ticks
    case Ok(ob) => Evict(ticks + [TickWithBook(raw, ob)], MaxTicks)
  }

  /** As written, a tick that carries any depth is dropped, and every tick
      that is kept has pressure 0: the order book never reaches a decision. */
  lemma AsWrittenDropsDepthTicks(ticks: seq<Tick>, raw: RawTick)
    requires forall k :: 0 <= k < |ticks| ==> ticks[k].orderBook.pressureScore == 0.0
    ensures raw.depth != [] ==> TicksAfterAsWritten(ticks, raw) == ticks
    ensures var r := TicksAfterAsWritten(ticks, raw);
      forall k :: 0 <= k < |r| ==> r[k].orderBook.pressureScore == 0.0
  {
    var r := TicksAfterAsWritten(ticks, raw);
    if raw.depth == [] {
      var s := ticks + [TickWithBook(raw, EmptyBook)];
      assert forall k :: 0 <= k < |s| ==> s[k].orderBook.pressureScore == 0.0;
      assert forall k :: 0 <= k < |r| ==> r[k] == s[|s| - |r| + k];
    }
  }

  /** The tick list after one whole message as it stands: the `try` wraps
      the loop over the message's instruments, so the first entry with depth
      ends the loop and the entries after it are never looked at. */
  function TicksAfterMessageAsWritten(ticks: seq<Tick>, raws: seq<RawTick>): (r: seq<Tick>)
    decreases |raws|
    ensures |ticks| <= MaxTicks ==> |r| <= MaxTicks
    ensures raws != [] && raws[0].depth != [] ==> r == ticks
  {
    if raws == [] then ticks
    else
      match ExtractOrderBookAsWritten(raws[0].depth)
      case NameError(_) => ticks
      case Ok(ob) => TicksAfterMessageAsWritten(Evict(ticks + [TickWithBook(raws[0], ob)], MaxTicks), raws[1..])
  }

  /** As written, an entry with depth drops itself and every later entry of
      its message: the result is what the entries before it alone give. */
  lemma {:induction false} AsWrittenDropsRestOfMessage(ticks: seq<Tick>, raws: seq<RawTick>, i: nat)
    requires i < |raws| && raws[i].depth != []
    decreases i
    ensures TicksAfterMessageAsWritten(ticks, raws) == TicksAfterMessageAsWritten(ticks, raws[..i])
  {
    if i > 0 && raws[0].depth == [] {
      var next := Evict(ticks + [TickWithBook(raws[0], EmptyBook)], MaxTicks);
      AsWrittenDropsRestOfMessage(next, raws[1..], i - 1);
      assert raws[..i][1..] == raws[1..][..i - 1];
    }
  }

  /** With the intended imbalance one level with bids and no asks gives the
      near tier full weight. */
  lemma CorrectedSeesPressure(raw: RawTick)
    requires raw.depth == [Level(10, 0, 100.0, 101.0)]
    ensures TickOf(raw).orderBook.pressureScore == 30.0
    ensures ExtractOrderBookAsWritten(raw.depth).NameError?
  {
    var t := TierSumsOf(raw.depth);
    assert raw.depth[..1] == raw.depth;
    assert t.nearBid == 10 && t.nearAsk == 0;
    assert raw.depth[1..1] == [];
    assert t.midBid == 0 && t.midAsk == 0 && t.farBid == 0 && t.farAsk == 0;
  }

  // ----- Ticks and bars -----

  /** A feed update after parsing. */
  datatype RawTick = RawTick(
    timestamp: int, ltp: real, ltq: int, depth: seq<Level>,
    delta: real, gamma: real, theta: real, vega: real, rho: real,
    oi: int, iv: real, vtt: int, instrumentKey: string)

  datatype Tick = Tick(
    timestamp: int, ltp: real, ltq: int, orderBook: OrderBook,
    delta: real, gamma: real, theta: real, vega: real, rho: real,
    oi: int, iv: real, vtt: int, instrumentKey: string)

  function TickWithBook(raw: RawTick, ob: OrderBook): Tick
  {
    Tick(raw.timestamp, raw.ltp, raw.ltq, ob, raw.delta, raw.gamma, raw.theta, raw.vega, raw.rho,
         raw.oi, raw.iv, raw.vtt, raw.instrumentKey)
  }

  function TickOf(raw: RawTick): Tick
  {
    TickWithBook(raw, OrderBookOf(raw.depth))
  }

  function Price(t: Tick): real { t.ltp }
  function Qty(t: Tick): int { t.ltq }
  function Stamp(t: Tick): int { t.timestamp }
  function TickPressure(t: Tick): real { t.orderBook.pressureScore }
  function TickDelta(t: Tick): real { t.delta }
  function TickGamma(t: Tick): real { t.gamma }
  function TickTheta(t: Tick): real { t.theta }
  function TickVega(t: Tick): real { t.vega }
  function TickIv(t: Tick): real { t.iv }

  datatype Bar = Bar(
    timestamp: int, open: real, high: real, low: real, close: real, volume: int,
    avgPressure: real, avgDelta: real, avgGamma: real, avgTheta: real, avgVega: real, avgIv: real,
    oi: int, oiChange: real)

  function Close(b: Bar): real { b.close }
  function BarGamma(b: Bar): real { b.avgGamma }
  function BarIv(b: Bar): real { b.avgIv }

  const MaxTicks: nat := 10000
  const MaxBars: nat := 500

  /** The percentage change of open interest against the previous bar, or 0
      when there is no previous bar or its open interest is not positive. */
  function OiChange(prevBars: seq<Bar>, oi: int): (r: real)
    ensures (prevBars == [] || prevBars[|prevBars| - 1].oi <= 0) ==> r == 0.0
    ensures prevBars != [] && prevBars[|prevBars| - 1].oi > 0 ==>
              var prev := prevBars[|prevBars| - 1].oi;
              r * prev as real == (oi - prev) as real * 100.0
              && (r > 0.0 <==> oi > prev) && (r < 0.0 <==> oi < prev)
  {
    if prevBars == [] then 0.0
    else
      var prev := prevBars[|prevBars| - 1].oi;
      if prev > 0 then
        var q := (oi - prev) as real / prev as real;
        assert q * prev as real == (oi - prev) as real;
        assert (q * 100.0) * prev as real == (q * prev as real) * 100.0;
        q * 100.0
      else 0.0
  }

  /** A bar whose low and high bracket its open and its close. */
  predicate WellFormedBar(b: Bar)
  {
    b.low <= b.open <= b.high && b.low <= b.close <= b.high
  }

  /** The bar built from the ticks of one minute; its open-interest change is
      measured against the last bar already stored. */
  function MakeBar(minuteTicks: seq<Tick>, minute: int, prevBars: seq<Bar>): (b: Bar)
    requires |minuteTicks| > 0
    ensures WellFormedBar(b)
    ensures b.timestamp == minute * MinuteMs && MinuteOf(b.timestamp) == minute
    ensures b.low == MinR(minuteTicks, Price) && b.high == MaxR(minuteTicks, Price)
    ensures b.open == minuteTicks[0].ltp && b.close == minuteTicks[|minuteTicks| - 1].ltp
  {
    MinuteOfBucketStart(minute);
    var n := |minuteTicks| as real;
    var last := minuteTicks[|minuteTicks| - 1];
    Bar(minute * MinuteMs,
        minuteTicks[0].ltp,
        MaxR(minuteTicks, Price),
        MinR(minuteTicks, Price),
        last.ltp,
        SumI(minuteTicks, Qty),
        SumR(minuteTicks, TickPressure) / n,
        SumR(minuteTicks, TickDelta) / n,
        SumR(minuteTicks, TickGamma) / n,
        SumR(minuteTicks, TickTheta) / n,
        SumR(minuteTicks, TickVega) / n,
        SumR(minuteTicks, TickIv) / n,
        last.oi,
        OiChange(prevBars, last.oi))
  }

  /** A bar's averages lie between the smallest and the largest value of
      their ticks; its open interest is the last tick's, and its change is
      measured against the last stored bar. */
  lemma BarAveragesWithinTicks(minuteTicks: seq<Tick>, minute: int, prevBars: seq<Bar>)
    requires |minuteTicks| > 0
    ensures var b := MakeBar(minuteTicks, minute, prevBars);
      MinR(minuteTicks, TickDelta) <= b.avgDelta <= MaxR(minuteTicks, TickDelta)
      && MinR(minuteTicks, TickIv) <= b.avgIv <= MaxR(minuteTicks, TickIv)
      && MinR(minuteTicks, TickPressure) <= b.avgPressure <= MaxR(minuteTicks, TickPressure)
      && b.oi == minuteTicks[|minuteTicks| - 1].oi && b.oiChange == OiChange(prevBars, b.oi)
  {
    var b := MakeBar(minuteTicks, minute, prevBars);
    assert b.avgDelta == MeanR(minuteTicks, TickDelta);
    assert b.avgIv == MeanR(minuteTicks, TickIv);
    assert b.avgPressure == MeanR(minuteTicks, TickPressure);
  }

  /** No two adjacent bars share a minute, and every bar is well formed. */
  predicate BarsWellFormed(bars: seq<Bar>)
  {
    (forall k :: 0 <= k < |bars| ==> WellFormedBar(bars[k]))
    && (forall k :: 0 < k < |bars| ==> MinuteOf(bars[k - 1].timestamp) != MinuteOf(bars[k].timestamp))
  }

  /** The bar list after the bar step ran on the given ticks: a bar is opened
      only when the newest tick's minute differs from the last bar's minute,
      from the ticks of that minute present at that moment. */
  function NextBars(bars: seq<Bar>, ticks: seq<Tick>): seq<Bar>
  {
    if |ticks| < 2 then bars
    else
      var currentMinute := MinuteOf(ticks[|ticks| - 1].timestamp);
      if bars != [] && MinuteOf(bars[|bars| - 1].timestamp) == currentMinute then bars
      else
        var minuteTicks := MinuteTicks(ticks, Stamp, currentMinute);
        if minuteTicks == [] then bars
        else Evict(bars + [MakeBar(minuteTicks, currentMinute, bars)], MaxBars)
  }

  lemma AppendKeepsWellFormed(bars: seq<Bar>, b: Bar)
    requires BarsWellFormed(bars) && WellFormedBar(b)
    requires bars != [] ==> MinuteOf(bars[|bars| - 1].timestamp) != MinuteOf(b.timestamp)
    ensures BarsWellFormed(bars + [b])
  {
    var s := bars + [b];
    assert forall k :: 0 <= k < |bars| ==> s[k] == bars[k];
  }

  lemma EvictKeepsWellFormed(bars: seq<Bar>, cap: nat)
    requires bars != [] && BarsWellFormed(bars)
    ensures BarsWellFormed(Evict(bars, cap))
  {
    var r := Evict(bars, cap);
    if r != bars {
      assert forall k :: 0 <= k < |r| ==> r[k] == bars[k + 1];
    }
  }

  /** The bar step keeps the history bounded and well formed. */
  lemma NextBarsProperties(bars: seq<Bar>, ticks: seq<Tick>)
    requires |bars| <= MaxBars && BarsWellFormed(bars)
    ensures |NextBars(bars, ticks)| <= MaxBars && BarsWellFormed(NextBars(bars, ticks))
  {
    if |ticks| >= 2 {
      var m := MinuteOf(ticks[|ticks| - 1].timestamp);
      if !(bars != [] && MinuteOf(bars[|bars| - 1].timestamp) == m) {
        var mt := MinuteTicks(ticks, Stamp, m);
        if mt != [] {
          var b := MakeBar(mt, m, bars);
          AppendKeepsWellFormed(bars, b);
          EvictKeepsWellFormed(bars + [b], MaxBars);
        }
      }
    }
  }

  /** When the bar step changes anything, it appends one bar for the newest
      tick's minute, whose open interest is that of the newest tick and whose
      open-interest change is measured against the previous last bar; the
      oldest bar is dropped only when the cap is exceeded. */
  lemma NextBarsAppendsNewestMinute(bars: seq<Bar>, ticks: seq<Tick>)
    requires NextBars(bars, ticks) != bars
    ensures |ticks| >= 2
    ensures var r := NextBars(bars, ticks);
      |r| > 0 && MinuteOf(r[|r| - 1].timestamp) == MinuteOf(ticks[|ticks| - 1].timestamp)
      && r[|r| - 1].oi == ticks[|ticks| - 1].oi
      && r[|r| - 1].oiChange == OiChange(bars, ticks[|ticks| - 1].oi)
      && r[..|r| - 1] == (if |bars| + 1 > MaxBars then bars[1..] else bars)
  {
    var m := MinuteOf(ticks[|ticks| - 1].timestamp);
    var mt := MinuteTicks(ticks, Stamp, m);
    var b := MakeBar(mt, m, bars);
    EvictAppend(bars, b, MaxBars);
  }

  /** The bar step in the case where it builds a bar. */
  lemma NewMinuteBar(bars: seq<Bar>, ticks: seq<Tick>)
    requires |ticks| >= 2
    requires var m := MinuteOf(ticks[|ticks| - 1].timestamp);
      (bars == [] || MinuteOf(bars[|bars| - 1].timestamp) != m) && MinuteTicks(ticks, Stamp, m) != []
    ensures var m := MinuteOf(ticks[|ticks| - 1].timestamp);
      var b := MakeBar(MinuteTicks(ticks, Stamp, m), m, bars);
      NextBars(bars, ticks) == (if |bars + [b]| > MaxBars then (bars + [b])[1..] else bars + [b])
  {
  }

  /** Later ticks in the minute of the last bar never change the bars. */
  lemma SameMinuteLeavesBars(bars: seq<Bar>, ticks: seq<Tick>)
    requires bars != [] && ticks != []
    requires MinuteOf(bars[|bars| - 1].timestamp) == MinuteOf(ticks[|ticks| - 1].timestamp)
    ensures NextBars(bars, ticks) == bars
  {
  }

  // ----- Time of day -----

  /** A wall-clock time of day, compared field by field as Python compares
      `datetime.time` values. */
  datatype Time = Time(hour: nat, minute: nat, second: nat, microsecond: nat)

  predicate ValidTime(t: Time)
  {
    t.hour < 24 && t.minute < 60 && t.second < 60 && t.microsecond < 1000000
  }

  function TimeLe(a: Time, b: Time): bool
  {
    a.hour < b.hour
    || (a.hour == b.hour
        && (a.minute < b.minute
            || (a.minute == b.minute
                && (a.second < b.second || (a.second == b.second && a.microsecond <= b.microsecond)))))
  }

  /** Microseconds since midnight. */
  function Micros(t: Time): nat
  {
    ((t.hour * 60 + t.minute) * 60 + t.second) * 1000000 + t.microsecond
  }

  /** The field-by-field order is the order of the instants of the day. */
  lemma TimeLeIsClockOrder(a: Time, b: Time)
    requires ValidTime(a) && ValidTime(b)
    ensures TimeLe(a, b) <==> Micros(a) <= Micros(b)
  {
    var sa := (a.hour * 60 + a.minute) * 60 + a.second;
    var sb := (b.hour * 60 + b.minute) * 60 + b.second;
    assert Micros(a) == sa * 1000000 + a.microsecond && Micros(b) == sb * 1000000 + b.microsecond;
    assert TimeLe(a, b) <==> (sa < sb || (sa == sb && a.microsecond <= b.microsecond));
  }

  const MarketOpen: Time := Time(9, 15, 0, 0)
  const MarketClose: Time := Time(15, 30, 0, 0)
  const SquareOffTime: Time := Time(15, 15, 0, 0)

  /** Between 09:15 and 15:30, both ends included. */
  function IsMarketHours(now: Time): bool
  {
    TimeLe(MarketOpen, now) && TimeLe(now, MarketClose)
  }

  /** Market hours are the instants from 09:15:00 to 15:30:00 inclusive, and
      the square-off time lies inside them. */
  lemma MarketHoursByClock(now: Time)
    requires ValidTime(now)
    ensures IsMarketHours(now) <==> 33300000000 <= Micros(now) <= 55800000000
    ensures TimeLe(SquareOffTime, now) <==> 54900000000 <= Micros(now)
  {
    TimeLeIsClockOrder(MarketOpen, now);
    TimeLeIsClockOrder(now, MarketClose);
    TimeLeIsClockOrder(SquareOffTime, now);
  }

  // ----- Option type -----

  datatype OptionType = CE | PE

  function StartsWith(s: string, p: string): bool
  {
    |p| <= |s| && s[..|p|] == p
  }

  /** Python's `p in s` for strings, searched position by position. */
  function Contains(s: string, p: string): bool
    decreases |s|
  {
    StartsWith(s, p) || (s != [] && Contains(s[1..], p))
  }

  /** `p` occurs in `s` at position i. */
  predicate OccursAt(s: string, p: string, i: int)
  {
    0 <= i && i + |p| <= |s| && s[i..i + |p|] == p
  }

  /** The search finds `p` exactly when `p` occurs at some position of `s`. */
  lemma {:induction false} ContainsIsSubstring(s: string, p: string)
    ensures Contains(s, p) <==> exists i :: OccursAt(s, p, i)
    decreases |s|
  {
    if s == [] {
      if |p| == 0 {
        assert OccursAt(s, p, 0);
      }
    } else {
      var t := s[1..];
      ContainsIsSubstring(t, p);
      if StartsWith(s, p) {
        assert OccursAt(s, p, 0);
      }
      if exists i :: OccursAt(s, p, i) {
        var i :| OccursAt(s, p, i);
        if i > 0 {
          assert t[i - 1..i - 1 + |p|] == s[i..i + |p|];
          assert OccursAt(t, p, i - 1);
        } else {
          assert s[..|p|] == s[0..0 + |p|];
        }
      }
      if Contains(t, p) {
        var j :| OccursAt(t, p, j);
        assert s[j + 1..j + 1 + |p|] == t[j..j + |p|];
        assert OccursAt(s, p, j + 1);
      }
    }
  }

  /** CE when the key contains "CE" (even if it also contains "PE"), PE when
      it contains "PE" but not "CE", nothing otherwise. */
  function OptionTypeOf(instrumentKey: string): Option<OptionType>
  {
    if Contains(instrumentKey, "CE") then Some(CE)
    else if Contains(instrumentKey, "PE") then Some(PE)
    else None
  }

  /** For every key: a call exactly when "CE" occurs in it, a put exactly
      when "PE" occurs and "CE" does not, and no option otherwise. */
  lemma OptionTypeBySubstring(key: string)
    ensures OptionTypeOf(key) == Some(CE) <==> exists i :: OccursAt(key, "CE", i)
    ensures OptionTypeOf(key) == Some(PE) <==>
              (exists i :: OccursAt(key, "PE", i)) && !(exists i :: OccursAt(key, "CE", i))
    ensures OptionTypeOf(key) == None <==>
              !(exists i :: OccursAt(key, "PE", i)) && !(exists i :: OccursAt(key, "CE", i))
  {
    ContainsIsSubstring(key, "CE");
    ContainsIsSubstring(key, "PE");
  }

  /** A pattern is never found in a string without its first character. */
  lemma {:induction false} ContainsNeedsFirstChar(s: string, p: string)
    requires |p| > 0 && Contains(s, p)
    ensures p[0] in s
    decreases |s|
  {
    if StartsWith(s, p) {
      assert s[0] == p[0];
    } else {
      ContainsNeedsFirstChar(s[1..], p);
      assert p[0] in s[1..];
    }
  }

  lemma MissingFirstChar(s: string, p: string)
    requires |p| > 0 && p[0] !in s
    ensures !Contains(s, p)
  {
    if Contains(s, p) {
      ContainsNeedsFirstChar(s, p);
    }
  }

  /** An occurrence at a known position is found by the search. */
  lemma {:induction false} OccursThenContains(s: string, p: string, i: nat)
    requires OccursAt(s, p, i)
    ensures Contains(s, p)
    decreases i
  {
    if i == 0 {
      assert s[..|p|] == s[0..0 + |p|];
    } else {
      assert s[1..][i - 1..i - 1 + |p|] == s[i..i + |p|];
      OccursThenContains(s[1..], p, i - 1);
    }
  }

  /** A key with both "CE" and "PE" is a call. */
  lemma CallWinsOverPut()
    ensures OptionTypeOf("NIFTY25000PECE") == Some(CE)
  {
    var key := "NIFTY25000PECE";
    assert key[12..14] == "CE";
    OccursThenContains(key, "CE", 12);
  }

  /** A key with "PE" and no "CE" is a put. */
  lemma PutKey()
    ensures OptionTypeOf("NIFTY25000PE") == Some(PE)
  {
    var put := "NIFTY25000PE";
    assert put[10..12] == "PE";
    OccursThenContains(put, "PE", 10);
    assert 'C' !in put;
    MissingFirstChar(put, "CE");
  }

  /** The numeric futures instrument key is no option at all. */
  lemma NumericKeyIsNoOption()
    ensures OptionTypeOf("NSE_FO|61755") == None
  {
    var fut := "NSE_FO|61755";
    assert 'C' !in fut && 'P' !in fut;
    MissingFirstChar(fut, "CE");
    MissingFirstChar(fut, "PE");
  }

  // ----- Trend -----

  datatype Trend = Bullish | Bearish | Neutral

  const TrendBars: nat := 20

  /** The mean close of the last 5 bars. */
  function Last5Avg(bars: seq<Bar>): real
    requires |bars| >= TrendBars
  {
    SumR(bars[|bars| - 5..], Close) / 5.0
  }

  /** The mean close of the 15 bars before those. */
  function Prev15Avg(bars: seq<Bar>): real
    requires |bars| >= TrendBars
  {
    SumR(bars[|bars| - 20..|bars| - 5], Close) / 15.0
  }

  /** The trend divides by the previous average unguarded. */
  predicate TrendReady(bars: seq<Bar>)
  {
    |bars| >= TrendBars ==> Prev15Avg(bars) != 0.0
  }

  /** A change of more than 0.3% between the two averages is a trend. */
  function AnalyzeTrend(bars: seq<Bar>): (t: Trend)
    requires TrendReady(bars)
    ensures |bars| < TrendBars ==> t == Neutral
    ensures |bars| >= TrendBars && Prev15Avg(bars) > 0.0 ==>
              (t == Bullish <==> Last5Avg(bars) > Prev15Avg(bars) * 1.003)
              && (t == Bearish <==> Last5Avg(bars) < Prev15Avg(bars) * 0.997)
  {
    if |bars| < TrendBars then Neutral
    else
      var last5 := Last5Avg(bars);
      var prev15 := Prev15Avg(bars);
      var changePercent := (last5 - prev15) / prev15 * 100.0;
      ChangeThresholds(last5, prev15);
      if changePercent > 0.3 then Bullish
      else if changePercent < -0.3 then Bearish
      else Neutral
  }

  /** Against a positive previous average, a change above 0.3% (below
      -0.3%) means the last average exceeds 100.3% (is under 99.7%) of it. */
  lemma ChangeThresholds(last5: real, prev15: real)
    requires prev15 != 0.0
    ensures var c := (last5 - prev15) / prev15 * 100.0;
      prev15 > 0.0 ==>
        (c > 0.3 <==> last5 > prev15 * 1.003) && (c < -0.3 <==> last5 < prev15 * 0.997)
  {
    var q := (last5 - prev15) / prev15;
    assert q * prev15 == last5 - prev15;
    if prev15 > 0.0 {
      if q > 0.003 {
        assert (q - 0.003) * prev15 > 0.0;
      } else {
        assert (0.003 - q) * prev15 >= 0.0;
      }
      if q < -0.003 {
        assert (-0.003 - q) * prev15 > 0.0;
      } else {
        assert (q + 0.003) * prev15 >= 0.0;
      }
    }
  }

  /** Bars that all close at the same positive price show no trend. */
  lemma FlatClosesAreNeutral(bars: seq<Bar>, c: real)
    requires |bars| >= TrendBars && c > 0.0
    requires forall k :: 0 <= k < |bars| ==> bars[k].close == c
    ensures TrendReady(bars) && AnalyzeTrend(bars) == Neutral
  {
    var last := bars[|bars| - 5..];
    var prev := bars[|bars| - 20..|bars| - 5];
    assert forall k :: 0 <= k < |last| ==> last[k] == bars[|bars| - 5 + k];
    assert forall k :: 0 <= k < |prev| ==> prev[k] == bars[|bars| - 20 + k];
    SumRBounds(last, Close, c, c);
    SumRBounds(prev, Close, c, c);
    assert Last5Avg(bars) == c && Prev15Avg(bars) == c;
  }

  // ----- Lot size -----

  const MaxRiskPerTrade: real := 10000.0
  const NiftyLotUnits: real := 50.0
  const MaxLots: int := 3

  /** `max(1, min(int(10000 / (premium * 50)), 3))` for a positive premium,
      1 otherwise; `int` of a positive number is its floor. */
  function LotSize(premium: real): (lots: int)
    ensures 1 <= lots <= MaxLots
    ensures premium <= 0.0 ==> lots == 1
    ensures premium > 0.0 ==>
              (lots == 3 <==> premium <= 200.0 / 3.0)
              && (lots == 2 <==> 200.0 / 3.0 < premium <= 100.0)
              && (lots == 1 <==> premium > 100.0)
  {
    if premium > 0.0 then
      var x := MaxRiskPerTrade / (premium * NiftyLotUnits);
      LotThresholds(premium);
      var maxLots := x.Floor;
      var capped := if maxLots < MaxLots then maxLots else MaxLots;
      if capped > 1 then capped else 1
    else 1
  }

  lemma LotThresholds(premium: real)
    requires premium > 0.0
    ensures var x := MaxRiskPerTrade / (premium * NiftyLotUnits);
      (x >= 3.0 <==> premium <= 200.0 / 3.0) && (x >= 2.0 <==> premium <= 100.0)
  {
    var x := MaxRiskPerTrade / (premium * NiftyLotUnits);
    assert x * (premium * NiftyLotUnits) == 10000.0;
    assert x * premium == 200.0;
    assert x >= 3.0 <==> x * premium >= 3.0 * premium;
    assert x >= 2.0 <==> x * premium >= 2.0 * premium;
  }

  /** Among positive premiums a dearer option never gets more lots. */
  lemma LotSizeNonIncreasing(p: real, q: real)
    requires 0.0 < p <= q
    ensures LotSize(q) <= LotSize(p)
  {
  }

  /** A non-positive premium falls back to one lot, fewer than a cheap
      positive premium gets. */
  lemma LotSizeAtZeroPremium()
    ensures LotSize(0.0) == 1 && LotSize(1.0) == 3
  {
  }

  // ----- Entry score -----

  /** Why points were given or taken; the wording names the option type
      where the source's message does. */
  datatype Reason =
    | StrongPressure(t: OptionType)
    | ModeratePressure(t: OptionType)
    | DeltaIncreasing(t: OptionType)
    | GammaSpike
    | ElevatedGamma
    | IvReasonable
    | IvBelowAverage
    | FreshLongBuildup(t: OptionType)
    | HighThetaDecay
    | WideSpread
    | TrendSupports(t: OptionType)

  datatype Points = Points(score: int, reasons: seq<Reason>)

  /** The inputs of the entry score. */
  datatype Signals = Signals(
    optionType: OptionType, pressure: real, deltaTrend: real,
    tickGamma: real, avgGamma: real, ivPercentile: real,
    oiChange: real, priceChange: real, theta: real, spreadPercent: real, trend: Trend)

  /** Order-book pressure, up to 30 points; calls and puts are scored alike. */
  function PressurePoints(t: OptionType, pressure: real): (p: Points)
    ensures 0 <= p.score <= 30
  {
    if pressure > 50.0 then Points(30, [StrongPressure(t)])
    else if pressure > 30.0 then Points(20, [ModeratePressure(t)])
    else Points(0, [])
  }

  /** A rising delta for a call, a falling delta for a put, up to 20 points. */
  function DeltaPoints(t: OptionType, deltaTrend: real): (p: Points)
    ensures 0 <= p.score <= 20
  {
    match t
    case CE =>
      if deltaTrend > 0.05 then Points(20, [DeltaIncreasing(CE)])
      else if deltaTrend > 0.02 then Points(10, [])
      else Points(0, [])
    case PE =>
      if deltaTrend < -0.05 then Points(20, [DeltaIncreasing(PE)])
      else if deltaTrend < -0.02 then Points(10, [])
      else Points(0, [])
  }

  /** The tick's gamma against the 20-bar average, up to 20 points. */
  function GammaPoints(tickGamma: real, avgGamma: real): (p: Points)
    ensures 0 <= p.score <= 20
  {
    if tickGamma > avgGamma * 1.5 then Points(20, [GammaSpike])
    else if tickGamma > avgGamma * 1.2 then Points(10, [ElevatedGamma])
    else Points(0, [])
  }

  /** Implied volatility near or below its 30-bar average, up to 15 points;
      a percentile of exactly -10 scores nothing. */
  function IvPoints(ivPercentile: real): (p: Points)
    ensures 0 <= p.score <= 15
  {
    if -10.0 < ivPercentile < 10.0 then Points(15, [IvReasonable])
    else if ivPercentile < -10.0 then Points(10, [IvBelowAverage])
    else Points(0, [])
  }

  /** Open interest and price rising together, up to 15 points. */
  function OiPoints(t: OptionType, oiChange: real, priceChange: real): (p: Points)
    ensures 0 <= p.score <= 15
  {
    if oiChange > 5.0 && priceChange > 0.5 then Points(15, [FreshLongBuildup(t)])
    else if oiChange > 2.0 && priceChange > 0.2 then Points(8, [])
    else Points(0, [])
  }

  function AbsR(x: real): real { if x < 0.0 then -x else x }

  /** Fast time decay costs 10 points. */
  function ThetaPenalty(theta: real): (p: Points)
    ensures -10 <= p.score <= 0
  {
    if AbsR(theta) > 20.0 then Points(-10, [HighThetaDecay]) else Points(0, [])
  }

  /** A spread above 5% costs 10 points. */
  function SpreadPenalty(spreadPercent: real): (p: Points)
    ensures -10 <= p.score <= 0
  {
    if spreadPercent > 5.0 then Points(-10, [WideSpread]) else Points(0, [])
  }

  /** A market trend in the option's direction adds 10 points. */
  function TrendBonus(t: OptionType, trend: Trend): (p: Points)
    ensures 0 <= p.score <= 10
  {
    if (t == CE && trend == Bullish) || (t == PE && trend == Bearish) then Points(10, [TrendSupports(t)])
    else Points(0, [])
  }

  function Plus(a: Points, b: Points): Points
  {
    Points(a.score + b.score, a.reasons + b.reasons)
  }

  /** The eight factors in the order the source scores them. */
  function ScoreOf(s: Signals): (p: Points)
    ensures -20 <= p.score <= 110
  {
    var t := s.optionType;
    Plus(Plus(Plus(Plus(Plus(Plus(Plus(
      PressurePoints(t, s.pressure),
      DeltaPoints(t, s.deltaTrend)),
      GammaPoints(s.tickGamma, s.avgGamma)),
      IvPoints(s.ivPercentile)),
      OiPoints(t, s.oiChange, s.priceChange)),
      ThetaPenalty(s.theta)),
      SpreadPenalty(s.spreadPercent)),
      TrendBonus(t, s.trend))
  }

  function MirrorTrend(trend: Trend): Trend
  {
    match trend
    case Bullish => Bearish
    case Bearish => Bullish
    case Neutral => Neutral
  }

  /** Calls and puts are scored symmetrically: a put scores what a call
      scores when the delta trend is negated and the market trend mirrored. */
  lemma ScoreSymmetric(s: Signals)
    requires s.optionType == CE
    ensures ScoreOf(s).score
            == ScoreOf(s.(optionType := PE, deltaTrend := -s.deltaTrend, trend := MirrorTrend(s.trend))).score
  {
  }

  // ----- Entry decision -----

  const DecisionBars: nat := 50
  const GammaWindow: nat := 20
  const IvWindow: nat := 30
  const MaxLossPerTrade: real := 0.5
  const TargetProfit: real := 1.0

  datatype ExitReason = StopLossHit | TargetAchieved | DeltaReversal | OrderBookReversal | EndOfDaySquareoff

  datatype Decision =
    | Wait(message: string)
    | Buy(optionType: OptionType, symbol: string, entry: real, stopLoss: real, target: real,
          quantity: int, confidence: int, score: int, reasons: seq<Reason>,
          delta: real, gamma: real, iv: real, theta: real, oiChange: real)
    | NoSignal(score: int, confidence: int, reasons: seq<Reason>)
    | Exit(reason: ExitReason, exitPrice: real, pnlPercent: real)
    | Hold(currentPrice: real, pnlPercent: real)
    | HoldIdle

  /** The mean implied volatility of the last 30 bars. */
  function AvgIv(bars: seq<Bar>): real
    requires |bars| >= IvWindow
  {
    SumR(bars[|bars| - IvWindow..], BarIv) / IvWindow as real
  }

  /** Whether the scoring stage is reached: at least 50 bars, market hours
      and an option instrument. */
  predicate Scoring(bars: seq<Bar>, ticks: seq<Tick>, now: Time)
  {
    |bars| >= DecisionBars && IsMarketHours(now) && |ticks| > 0
    && OptionTypeOf(ticks[|ticks| - 1].instrumentKey).Some?
  }

  /** What the entry search reads: a tick once 50 bars exist in market
      hours, and, once scoring is reached, the three divisors the source
      uses unguarded (the IV average, the previous close, the trend's
      previous average) non-zero. */
  predicate SignalReady(bars: seq<Bar>, ticks: seq<Tick>, now: Time)
  {
    (|bars| >= DecisionBars && IsMarketHours(now) ==> |ticks| > 0)
    && (Scoring(bars, ticks, now) ==>
          AvgIv(bars) != 0.0 && bars[|bars| - 2].close != 0.0 && Prev15Avg(bars) != 0.0)
  }

  function SignalsOf(bars: seq<Bar>, ticks: seq<Tick>, now: Time): Signals
    requires Scoring(bars, ticks, now) && SignalReady(bars, ticks, now)
  {
    var currentBar := bars[|bars| - 1];
    var previousBar := bars[|bars| - 2];
    var currentTick := ticks[|ticks| - 1];
    var t := OptionTypeOf(currentTick.instrumentKey).value;
    Signals(
      t,
      currentTick.orderBook.pressureScore,
      currentBar.avgDelta - bars[|bars| - 5].avgDelta,
      currentTick.gamma,
      SumR(bars[|bars| - GammaWindow..], BarGamma) / GammaWindow as real,
      (currentTick.iv / AvgIv(bars) - 1.0) * 100.0,
      currentBar.oiChange,
      (currentBar.close - previousBar.close) / previousBar.close * 100.0,
      currentTick.theta,
      currentTick.orderBook.spreadPercent,
      AnalyzeTrend(bars))
  }

  /** The entry search. WAIT, in this order, for fewer than 50 bars, outside
      market hours and for an instrument that is no option; otherwise BUY
      when the score exceeds 60 (confidence then exceeds 60 too), with the
      stop at half and the target at twice the premium. */
  function BuyingSignal(bars: seq<Bar>, ticks: seq<Tick>, now: Time): (d: Decision)
    requires SignalReady(bars, ticks, now)
    ensures d.Wait? || d.Buy? || d.NoSignal?
    ensures d.Wait? <==> !Scoring(bars, ticks, now)
    ensures |bars| < DecisionBars ==> d == Wait("Collecting data...")
    ensures |bars| >= DecisionBars && !IsMarketHours(now) ==> d == Wait("Outside market hours")
    ensures (|bars| >= DecisionBars && IsMarketHours(now)
               && OptionTypeOf(ticks[|ticks| - 1].instrumentKey).None?) ==> d == Wait("Not an option instrument")
    ensures d.Buy? <==> Scoring(bars, ticks, now) && ScoreOf(SignalsOf(bars, ticks, now)).score > 60
    ensures (d.Buy? || d.NoSignal?) ==>
              d.score == ScoreOf(SignalsOf(bars, ticks, now)).score
              && d.reasons == ScoreOf(SignalsOf(bars, ticks, now)).reasons
              && d.confidence == Confidence(d.score)
    ensures d.Buy? ==>
              d.confidence > 60
              && d.entry == bars[|bars| - 1].close
              && d.stopLoss * 2.0 == d.entry && d.target == 2.0 * d.entry
              && d.quantity == LotSize(d.entry)
              && d.symbol == ticks[|ticks| - 1].instrumentKey
              && Some(d.optionType) == OptionTypeOf(d.symbol)
    ensures d.Buy? ==>
              d.delta == ticks[|ticks| - 1].delta && d.gamma == ticks[|ticks| - 1].gamma
              && d.iv == ticks[|ticks| - 1].iv && d.theta == ticks[|ticks| - 1].theta
              && d.oiChange == bars[|bars| - 1].oiChange
  {
    if |bars| < DecisionBars then Wait("Collecting data...")
    else if !IsMarketHours(now) then Wait("Outside market hours")
    else if OptionTypeOf(ticks[|ticks| - 1].instrumentKey).None? then Wait("Not an option instrument")
    else
      var s := SignalsOf(bars, ticks, now);
      var p := ScoreOf(s);
      var confidence := Confidence(p.score);
      var currentTick := ticks[|ticks| - 1];
      if p.score > 60 && confidence > 60 then
        var premium := bars[|bars| - 1].close;
        Buy(s.optionType, currentTick.instrumentKey, premium,
            premium * (1.0 - MaxLossPerTrade), premium * (1.0 + TargetProfit),
            LotSize(premium), confidence, p.score, p.reasons,
            currentTick.delta, currentTick.gamma, currentTick.iv, currentTick.theta,
            bars[|bars| - 1].oiChange)
      else NoSignal(p.score, confidence, p.reasons)
  }

  // ----- Exit check -----

  /** The open position, as the caller stores it from a BUY decision. */
  datatype Position = Position(optionType: OptionType, entry: real, stopLoss: real, target: real, delta: real)

  function PositionOf(d: Decision): (p: Position)
    requires d.Buy?
    ensures p.entry == d.entry && p.stopLoss == d.stopLoss && p.target == d.target
    ensures p.optionType == d.optionType && p.delta == d.delta
  {
    Position(d.optionType, d.entry, d.stopLoss, d.target, d.delta)
  }

  /** The delta has fallen to under 70% of the entry delta (for a put:
      risen above it). */
  predicate DeltaReversed(p: Position, t: Tick)
  {
    if p.optionType == CE then t.delta < p.delta * 0.7 else t.delta > p.delta * 0.7
  }

  /** Selling pressure beyond -40 against a call, buying pressure beyond 40
      against a put. */
  predicate PressureReversed(p: Position, t: Tick)
  {
    (p.optionType == CE && t.orderBook.pressureScore < -40.0)
    || (p.optionType == PE && t.orderBook.pressureScore > 40.0)
  }

  /** The first exit condition that holds, in the source's priority order. */
  function ExitReasonOf(p: Position, t: Tick, now: Time): (r: Option<ExitReason>)
    ensures r == Some(StopLossHit) <==> t.ltp <= p.stopLoss
    ensures r == Some(TargetAchieved) <==> t.ltp > p.stopLoss && t.ltp >= p.target
    ensures r == Some(DeltaReversal) <==> p.stopLoss < t.ltp < p.target && DeltaReversed(p, t)
    ensures r == Some(OrderBookReversal) <==>
              p.stopLoss < t.ltp < p.target && !DeltaReversed(p, t) && PressureReversed(p, t)
    ensures r == Some(EndOfDaySquareoff) <==>
              p.stopLoss < t.ltp < p.target && !DeltaReversed(p, t) && !PressureReversed(p, t)
              && TimeLe(SquareOffTime, now)
    ensures r == None <==>
              p.stopLoss < t.ltp < p.target && !DeltaReversed(p, t) && !PressureReversed(p, t)
              && !TimeLe(SquareOffTime, now)
  {
    if t.ltp <= p.stopLoss then Some(StopLossHit)
    else if t.ltp >= p.target then Some(TargetAchieved)
    else if DeltaReversed(p, t) then Some(DeltaReversal)
    else if PressureReversed(p, t) then Some(OrderBookReversal)
    else if TimeLe(SquareOffTime, now) then Some(EndOfDaySquareoff)
    else None
  }

  /** Profit or loss in percent of the entry price. */
  function PnlPercent(price: real, entry: real): real
    requires entry != 0.0
  {
    (price - entry) / entry * 100.0
  }

  /** The exit check divides by the entry price unguarded. */
  predicate ExitReady(position: Option<Position>, ticks: seq<Tick>)
  {
    position.Some? && ticks != [] ==> position.value.entry != 0.0
  }

  /** HOLD without detail when there is no position or no tick; otherwise
      the first exit that applies, or HOLD with the current price and P&L. */
  function CheckExit(position: Option<Position>, ticks: seq<Tick>, now: Time): (d: Decision)
    requires ExitReady(position, ticks)
    ensures d.Exit? || d.Hold? || d.HoldIdle?
    ensures d.HoldIdle? <==> position.None? || ticks == []
    ensures d.Exit? <==> position.Some? && ticks != []
                         && ExitReasonOf(position.value, ticks[|ticks| - 1], now).Some?
    ensures d.Exit? ==> d.reason == ExitReasonOf(position.value, ticks[|ticks| - 1], now).value
    ensures (d.Exit? || d.Hold?) ==>
              (d.Exit? ==> d.exitPrice == ticks[|ticks| - 1].ltp)
              && (d.Hold? ==> d.currentPrice == ticks[|ticks| - 1].ltp)
              && d.pnlPercent == PnlPercent(ticks[|ticks| - 1].ltp, position.value.entry)
  {
    if position.None? || ticks == [] then HoldIdle
    else
      var p := position.value;
      var currentTick := ticks[|ticks| - 1];
      var currentPrice := currentTick.ltp;
      var pnlPercent := PnlPercent(currentPrice, p.entry);
      match ExitReasonOf(p, currentTick, now)
      case Some(reason) => Exit(reason, currentPrice, pnlPercent)
      case None => Hold(currentPrice, pnlPercent)
  }

  /** For a position opened by a BUY at a positive premium, the stop fires
      exactly at a loss of 50% or more and the target exactly at a gain of
      100% or more; a held position is within those bounds. */
  lemma BoughtPositionExitBands(d: Decision, t: Tick, now: Time)
    requires d.Buy? && d.entry > 0.0 && d.stopLoss * 2.0 == d.entry && d.target == 2.0 * d.entry
    ensures var p := PositionOf(d);
      var pnl := PnlPercent(t.ltp, d.entry);
      (ExitReasonOf(p, t, now) == Some(StopLossHit) <==> pnl <= -50.0)
      && (ExitReasonOf(p, t, now) == Some(TargetAchieved) <==> -50.0 < pnl && pnl >= 100.0)
      && (ExitReasonOf(p, t, now) == None ==> -50.0 < pnl < 100.0)
  {
    PnlThresholds(t.ltp, d.entry);
  }

  lemma PnlThresholds(price: real, entry: real)
    requires entry > 0.0
    ensures (price <= entry * 0.5 <==> PnlPercent(price, entry) <= -50.0)
    ensures (price >= entry * 2.0 <==> PnlPercent(price, entry) >= 100.0)
  {
    var q := (price - entry) / entry;
    assert q * entry == price - entry;
    assert q * 100.0 <= -50.0 <==> q <= -0.5;
    assert q <= -0.5 <==> q * entry <= -0.5 * entry;
    assert q * 100.0 >= 100.0 <==> q >= 1.0;
    assert q >= 1.0 <==> q * entry >= entry;
  }

  /** With a stop below the target, a price between them, no reversal and a
      time before 15:15, the position is held. */
  lemma HoldBeforeSquareOff(p: Position, t: Tick, now: Time)
    requires ValidTime(now) && Micros(now) < 54900000000
    requires p.stopLoss < t.ltp < p.target && !DeltaReversed(p, t) && !PressureReversed(p, t)
    ensures ExitReasonOf(p, t, now) == None
  {
    MarketHoursByClock(now);
  }

  /** The top-level decision: the exit check while a position is open, the
      entry search otherwise. */
  function GetTradingDecision(position: Option<Position>, bars: seq<Bar>, ticks: seq<Tick>, now: Time): (d: Decision)
    requires ExitReady(position, ticks) && (position.None? ==> SignalReady(bars, ticks, now))
    ensures position.Some? ==> d.Exit? || d.Hold? || d.HoldIdle?
    ensures position.None? ==> d.Wait? || d.Buy? || d.NoSignal?
    ensures position.Some? ==> d == CheckExit(position, ticks, now)
    ensures position.None? ==> d == BuyingSignal(bars, ticks, now)
  {
    if position.Some? then CheckExit(position, ticks, now) else BuyingSignal(bars, ticks, now)
  }

  /** With a position open the bars are never read: any two bar histories,
      including ones whose IV average or previous close is zero, give the
      same decision. */
  lemma OpenPositionIgnoresBars(position: Option<Position>, bars: seq<Bar>, other: seq<Bar>, ticks: seq<Tick>, now: Time)
    requires position.Some? && ExitReady(position, ticks)
    ensures GetTradingDecision(position, bars, ticks, now) == GetTradingDecision(position, other, ticks, now)
  {
  }

  // ----- The engine object -----

  /** The invariant of the engine's two histories: both within their caps,
      bars only once two ticks have arrived, and the bars well formed. */
  predicate EngineState(ticks: seq<Tick>, bars: seq<Bar>)
  {
    |ticks| <= MaxTicks && |bars| <= MaxBars
    && (bars != [] ==> |ticks| >= 2)
    && BarsWellFormed(bars)
  }

  /** Appending a tick to the capped tick list preserves the invariant. */
  lemma AppendTickKeepsState(ticks: seq<Tick>, bars: seq<Bar>, t: Tick)
    requires EngineState(ticks, bars)
    ensures EngineState(Evict(ticks + [t], MaxTicks), bars)
  {
  }

  /** The bar step preserves the invariant. */
  lemma NextBarsKeepsState(ticks: seq<Tick>, bars: seq<Bar>)
    requires EngineState(ticks, bars)
    ensures EngineState(ticks, NextBars(bars, ticks))
  {
    NextBarsProperties(bars, ticks);
  }

  /** Both lists of the engine at once. */
  datatype History = History(ticks: seq<Tick>, bars: seq<Bar>)

  /** One feed entry: its tick, with the order book extracted, is appended
      under the cap, then the bar step runs over the new tick list. */
  function TickStep(h: History, raw: RawTick): (r: History)
    ensures |r.ticks| > 0 && r.ticks[|r.ticks| - 1] == TickOf(raw)
    ensures |h.ticks| <= MaxTicks ==> |r.ticks| <= MaxTicks
  {
    var ticks := Evict(h.ticks + [TickOf(raw)], MaxTicks);
    History(ticks, NextBars(h.bars, ticks))
  }

  /** The entries of one feed message processed in order. */
  function Feed(h: History, raws: seq<RawTick>): (r: History)
    ensures raws == [] ==> r == h
    ensures raws != [] ==> |r.ticks| > 0 && r.ticks[|r.ticks| - 1] == TickOf(raws[|raws| - 1])
  {
    Fold(h, raws, TickStep)
  }

  /** Every feed message preserves the engine's invariant. */
  lemma {:induction false} FeedKeepsState(h: History, raws: seq<RawTick>)
    requires EngineState(h.ticks, h.bars)
    ensures var r := Feed(h, raws); EngineState(r.ticks, r.bars)
  {
    if raws != [] {
      var p := Feed(h, raws[..|raws| - 1]);
      FeedKeepsState(h, raws[..|raws| - 1]);
      assert Feed(h, raws) == TickStep(p, raws[|raws| - 1]);
      AppendTickKeepsState(p.ticks, p.bars, TickOf(raws[|raws| - 1]));
      NextBarsKeepsState(Evict(p.ticks + [TickOf(raws[|raws| - 1])], MaxTicks), p.bars);
    }
  }

  class OptionsTradingEngine {
    var tickData: seq<Tick>
    var oneMinuteBars: seq<Bar>
    /** Set by the caller after a BUY has been filled. */
    var activePosition: Option<Position>

    ghost predicate Valid()
      reads this
    {
      EngineState(tickData, oneMinuteBars)
    }

    constructor ()
      ensures Valid() && tickData == [] && oneMinuteBars == [] && activePosition == None
    {
      tickData := [];
      oneMinuteBars := [];
      activePosition := None;
    }

    /** Appends the parsed tick to the capped tick list, then runs the bar step. */
    method ProcessTick(raw: RawTick)
      requires Valid()
      modifies this`tickData, this`oneMinuteBars
      ensures Valid()
      ensures tickData == Evict(old(tickData) + [TickOf(raw)], MaxTicks)
      ensures |tickData| > 0 && tickData[|tickData| - 1] == TickOf(raw)
      ensures oneMinuteBars == NextBars(old(oneMinuteBars), tickData)
    {
      AppendTickKeepsState(tickData, oneMinuteBars, TickOf(raw));
      tickData := AppendTick(tickData, raw);
      CreateOneMinuteBar();
    }

    /** Parses one feed entry into a tick and appends it to the tick list,
        dropping the oldest tick beyond the cap. */
    static method AppendTick(ticks: seq<Tick>, raw: RawTick) returns (r: seq<Tick>)
      ensures r == Evict(ticks + [TickOf(raw)], MaxTicks)
    {
      var orderBook := ExtractOrderBook(raw.depth);
      var tick := TickWithBook(raw, orderBook);
      r := ticks + [tick];
      if |r| > MaxTicks {
        r := r[1..];
      }
    }

    /** One feed message may carry several instruments; each is processed
        in turn. */
    method ProcessFeed(raws: seq<RawTick>)
      requires Valid()
      modifies this`tickData, this`oneMinuteBars
      ensures Valid()
      ensures |raws| > 0 ==> |tickData| > 0 && tickData[|tickData| - 1] == TickOf(raws[|raws| - 1])
      ensures |raws| == 0 ==> tickData == old(tickData) && oneMinuteBars == old(oneMinuteBars)
      ensures History(tickData, oneMinuteBars) == Feed(History(old(tickData), old(oneMinuteBars)), raws)
    {
      for i := 0 to |raws|
        invariant Valid()
        invariant History(tickData, oneMinuteBars) == Feed(History(old(tickData), old(oneMinuteBars)), raws[..i])
      {
        ProcessTick(raws[i]);
        FoldStep(History(old(tickData), old(oneMinuteBars)), raws, i, TickStep);
      }
      assert raws[..|raws|] == raws;
    }

    method CreateOneMinuteBar()
      requires Valid()
      modifies this`oneMinuteBars
      ensures Valid()
      ensures oneMinuteBars == NextBars(old(oneMinuteBars), tickData)
    {
      NextBarsKeepsState(tickData, oneMinuteBars);
      oneMinuteBars := BarStep(oneMinuteBars, tickData);
    }

    /** The body of the bar step, on the current bars and ticks. */
    static method BarStep(bars: seq<Bar>, ticks: seq<Tick>) returns (r: seq<Bar>)
      ensures r == NextBars(bars, ticks)
    {
      r := bars;
      if |ticks| < 2 {
        return;
      }
      var currentTick := ticks[|ticks| - 1];
      var currentMinute := MinuteOf(currentTick.timestamp);
      if bars == [] || MinuteOf(bars[|bars| - 1].timestamp) != currentMinute {
        var minuteTicks := MinuteTicks(ticks, Stamp, currentMinute);
        if minuteTicks != [] {
          NewMinuteBar(bars, ticks);
          var bar := MakeBar(minuteTicks, currentMinute, bars);
          r := bars + [bar];
          if |r| > MaxBars {
            r := r[1..];
          }
        }
      }
    }

    /** The latest tick's pressure, or 0 before the first tick. */
    function GetOrderBookPressure(): (p: real)
      reads this
      ensures tickData == [] ==> p == 0.0
      ensures tickData != [] ==> p == TickPressure(tickData[|tickData| - 1])
    {
      if tickData != [] then tickData[|tickData| - 1].orderBook.pressureScore else 0.0
    }

    /** No entry is ever proposed while a position is open. */
    function Decide(now: Time): (d: Decision)
      reads this
      requires Valid() && ExitReady(activePosition, tickData)
      requires activePosition.None? ==> SignalReady(oneMinuteBars, tickData, now)
      ensures d == GetTradingDecision(activePosition, oneMinuteBars, tickData, now)
      ensures activePosition.Some? ==> !d.Buy?
    {
      GetTradingDecision(activePosition, oneMinuteBars, tickData, now)
    }
  }
}
