# Nifty futures and options trading engines — a Dafny model

This project models the decision core of a small algorithmic trading system
for Nifty futures and options, fed by a streaming market-data client.

- **Futures engine** (`trading_engine.py`). It reduces up to 30 order-book
  depth levels to three tiers: near (levels 0–4), mid (5–14) and far (15–29).
  It computes one bid/ask imbalance per tier and combines them into a
  50/30/20 weighted pressure score. Ticks go into a list capped at 10,000.
  One-minute bars go into a list capped at 500. It computes VWAP, session
  VWAP and ATR. A four-factor score yields WAIT, BUY, SELL or NO_SIGNAL.
- **Options engine** (`trading_engine_options.py`). It uses the same tick and
  bar machinery with 30/30/40 weights, the bid-ask spread percentage, Greek
  averages and the open-interest change. It classifies the instrument as a
  call (CE) or a put (PE) by substring. It classifies the market trend and
  clamps the lot size to 1–3. An eight-factor entry score only ever buys.
  While a position is open, a fixed-priority exit check replaces the entry
  search.
- **Streaming client** (`upstox_ws_client.py`). Two parts are modelled: the
  order-parameter validator with the gate it puts in front of the broker, and
  the reconnect counter with its exponential backoff. The backoff is an
  abstract state machine driven by the events Connected, Failed and
  Disconnect.

Prices, Greeks and averages are `real`. Quantities, open interest and
timestamps are `int` (Python integers are unbounded). Python's `//` by 60000
is Dafny's `/`, because the divisor is positive. Wall-clock time is a
parameter (`OptionsEngine.Time`: hour, minute, second, microsecond). It is
compared field by field, as `datetime.time` values are. The engines' mutable
lists are `seq` fields of a class. Their methods reassign those fields and
are proved against pure functions (`Evict`, `NextBars`). The properties are
proved about those functions.

Files: `numeric.dfy` (sums, extremes, slices, the capped-append rule, minute
buckets, confidence), `depth.dfy` (the shared depth loop and tier imbalance),
`futures_engine.dfy`, `options_engine.dfy`, `feed_client.dfy`.

Behaviour of the code the model reproduces:
- A bar is built once, from the ticks of its minute present when the first
  tick after the previous bar's minute arrives (trading_engine.py:99).
  Later ticks of that minute never update it. The trailing minute is never
  flushed.
- The session VWAP falls back to the *first* bar's close, not the last.
- The code has no stale-tick filter, no risk gate and no trailing stop.
- A client that has never connected has `running` false, so its failed first
  attempt ends the loop instead of being retried
  (`FeedClient.FirstFailureStops`).
- The options engine's order-book function calls a helper that exists only
  inside the futures engine's method (see Findings).

## Model

| member | source | states |
|---|---|---|
| `Depth.TierSumsOf` | trading_engine.py:25-40 | Only the first 30 levels count. Each total is the sum of its three tier sums. Empty depth gives all-zero sums. |
| `Depth.AccumulateTiers` | trading_engine.py:20-40 | The accumulator loop over the first 30 levels computes exactly the tier sums of `TierSumsOf`. |
| `Depth.Imbalance` | trading_engine.py:42-44 | The imbalance is 0 when the tier total is not positive. With non-negative quantities it is in [-1, 1]. Its sign is the sign of bid minus ask. |
| `Depth.PressureWithinWeights` | trading_engine.py:42-50 | With non-negative quantities and weights, the pressure lies within plus or minus the sum of the weights. |
| `Depth.PressureBounded` | trading_engine.py:46-50 | With non-negative tier sums and weights, the weighted sum of the three tier imbalances lies within plus or minus the sum of the weights. |
| `Depth.TierSumsNonNegative` | trading_engine.py:25-40 | Non-negative level quantities give non-negative tier sums. |
| `Numeric.Evict` | trading_engine.py:82-85 | Append-then-pop(0) keeps at most `cap` elements. It keeps the newest element and drops only the oldest. |
| `Numeric.EvictAppend` | trading_engine.py:115-118 | After appending under the cap rule, the new element is last. Everything before it is the old list, minus its oldest element only when the cap was exceeded. |
| `Numeric.MinuteOf` | trading_engine.py:97 | `timestamp // 60000` is the minute whose 60000 ms span contains the timestamp. |
| `Numeric.MinuteOfBucketStart` | trading_engine.py:104 | A bar stamped `minute * 60000` falls back into that minute. |
| `Numeric.MinuteTicks` | trading_engine.py:100 | The minute filter never grows the list. It ends with the newest tick when that tick is of the minute. |
| `Numeric.MinuteTicksAppend` | trading_engine.py:100 | The filter distributes over concatenation, so the kept ticks stay in their original order. |
| `Numeric.MinuteTicksNone` | trading_engine.py:100 | A list with no tick of the minute filters to the empty list. |
| `Numeric.MinuteTicksFirst` | trading_engine.py:100 | The first kept tick is the earliest tick of that minute, the one whose price becomes the bar's open. |
| `Numeric.MinuteTicksMembers` | trading_engine.py:100 | The filter keeps exactly the ticks of that minute. |
| `Numeric.MaxR` | trading_engine.py:106 | The maximum bounds every price and is one of them. |
| `Numeric.MinR` | trading_engine.py:107 | The minimum bounds every price from below and is one of them. |
| `Numeric.MeanR` | trading_engine.py:111-112 | A per-bar average lies between the smallest and largest tick value. |
| `Numeric.LastN` | trading_engine.py:155 | For n > 0, the slice `s[-n:]` is the last n elements, or all of s when shorter. |
| `Numeric.Confidence` | trading_engine.py:185 | `min(abs(score), 100)` is in [0, 100]. It equals abs(score) when that is at most 100, and 100 otherwise. |
| `FuturesEngine.OrderBookOf` | trading_engine.py:10-58 | Empty depth gives pressure 0 and all-zero totals and best prices. Otherwise the best prices are the first level's. The totals are the tier sums. Levels past 30 are ignored. |
| `FuturesEngine.ExtractOrderBook` | trading_engine.py:10-58 | The loop-and-accumulator computation returns exactly `OrderBookOf`. |
| `FuturesEngine.PressureInRange` | trading_engine.py:42-50 | With non-negative quantities, the 50/30/20 pressure score is in [-100, 100]. |
| `FuturesEngine.Vwap` | trading_engine.py:120-123 | With zero total volume, the VWAP is the first tick's price. |
| `FuturesEngine.VwapWithinPrices` | trading_engine.py:120-123 | With non-negative quantities, the VWAP lies between the lowest and highest price. |
| `FuturesEngine.VwapBetween` | trading_engine.py:120-123 | Any bounds on all prices also bound the VWAP. |
| `FuturesEngine.VwapOfUnitQuantities` | trading_engine.py:120-123 | With every quantity equal to 1, the VWAP is the arithmetic mean of the prices. |
| `FuturesEngine.MakeBar` | trading_engine.py:102-113 | The bar is stamped minute×60000. Its low is at most its open and close, which are at most its high. Low and high are the min and max tick prices. Open is the first tick's price and close the last one's. |
| `FuturesEngine.NextBarsProperties` | trading_engine.py:92-118 | The bar step keeps the bar list at most 500 long, every bar well formed, and no two adjacent bars in the same minute. |
| `FuturesEngine.NextBars` | trading_engine.py:92-118 | Defines the bar step of `create_one_minute_bar` as a function of the bar and tick lists. Its properties are stated by `NextBarsProperties`, `NextBarsAppendsNewestMinute` and `SameMinuteLeavesBars`. |
| `FuturesEngine.NextBarsAppendsNewestMinute` | trading_engine.py:99-118 | The bar step changes the list only when there are at least 2 ticks and the newest tick's minute differs from the last bar's. It then appends one bar of that minute and drops the oldest bar only over the cap. |
| `FuturesEngine.SameMinuteLeavesBars` | trading_engine.py:99 | A tick in the last bar's minute never changes the bars. |
| `FuturesEngine.FourTickBars` | trading_engine.py:92-118 | Ticks at 0, 30000, 59999 and 61000 ms give exactly two bars. The first closes at the tick at 30000, because it is not updated at 59999. The second opens with the tick at 61000. |
| `FuturesEngine.SessionVwap` | trading_engine.py:125-130 | No bars give 0. Zero total volume gives the first bar's close. |
| `FuturesEngine.SessionVwapWithinBarVwaps` | trading_engine.py:125-130 | With non-negative volumes and some volume, the session VWAP lies between the lowest and highest bar VWAP. |
| `FuturesEngine.TrueRange` | trading_engine.py:140-143 | The true range is the largest of high−low, abs(high−prev close) and abs(low−prev close). So it is at least high−low. |
| `FuturesEngine.TrueRanges` | trading_engine.py:139-143 | One true range per consecutive pair of the window's bars, each against the previous bar's close. |
| `FuturesEngine.Atr` | trading_engine.py:132-145 | Fewer than period+1 bars give the sentinel 1. Otherwise the ATR is the sum of exactly `period` true ranges divided by `period`, and it lies between the smallest and the largest of them. |
| `FuturesEngine.AtrAtLeastSmallestRange` | trading_engine.py:132-145 | The ATR is at least any lower bound on the high−low range of the window's last `period` bars. |
| `FuturesEngine.AtrNonNegative` | trading_engine.py:132-145 | On well-formed bars the ATR is non-negative. |
| `FuturesEngine.CalculateAtr` | trading_engine.py:132-145 | The method returns exactly `Atr`. |
| `FuturesEngine.TrueRangeValues` | trading_engine.py:137-143 | The loop appending one true range per consecutive pair builds exactly `TrueRanges`. |
| `FuturesEngine.Score` | trading_engine.py:164-183 | The four-factor score is between -85 and 100. |
| `FuturesEngine.SignalsOf` | trading_engine.py:151-181 | Defines the values the decision reads: the last two bars, the newest tick, the session VWAP of 50 bars, the ATR, the price change, the 20-bar volume ratio and the 20-bar gamma average. They are stated through `Score` and `Decide`. |
| `FuturesEngine.Decide` | trading_engine.py:147-212 | WAIT iff there are fewer than 50 bars. Confidence is `min(abs(score), 100)`. BUY iff score > 60 (score > 50 and confidence > 60), with entry = close, stop = close − 1.5·ATR, target = close + 3·ATR and quantity 75. SELL is the mirror image for score < −60. Otherwise NO_SIGNAL. |
| `FuturesEngine.EntryBracketsPrice` | trading_engine.py:187-210 | On well-formed bars, a BUY has stop ≤ entry ≤ target, and a SELL has target ≤ entry ≤ stop. |
| `FuturesEngine.TradingEngine.constructor` | trading_engine.py:2-8 | A new engine has no ticks and no bars. |
| `FuturesEngine.TradingEngine.ProcessTick` | trading_engine.py:60-87 | The tick list becomes the old list plus the new tick under the 10,000 cap, and the new tick is last. The bars become one bar step of the old bars. Both caps and bar well-formedness are kept. |
| `FuturesEngine.TradingEngine.AppendTick` | trading_engine.py:71-85 | The parsed tick, with the order book of its depth, is appended and the oldest tick is dropped beyond the 10,000 cap. |
| `FuturesEngine.AppendTickKeepsState` | trading_engine.py:82-85 | Appending a tick under the cap keeps the engine invariant. |
| `FuturesEngine.TradingEngine.ProcessFeed` | trading_engine.py:64-87 | Both lists become `Feed` of their old values: each entry in turn is appended under the cap, then the bar step runs. The invariant is kept. The last tick processed is last in the list. An empty feed changes nothing. |
| `FuturesEngine.Feed` | trading_engine.py:64-87 | Processing no entries changes nothing. Otherwise the last entry's tick ends the tick list. |
| `FuturesEngine.TickStep` | trading_engine.py:64-87 | One iteration of the feeds loop: its tick ends the tick list, the list stays within 10,000, and the bar step runs. |
| `FuturesEngine.FeedKeepsState` | trading_engine.py:64-87 | Any sequence of feed entries keeps both lists capped and the bars well formed. |
| `Numeric.Fold` | trading_engine.py:64 | Helper: the loop over one message's entries as a fold. |
| `Numeric.FoldAppend` | trading_engine.py:64 | Processing a message in two parts gives the same state as processing it whole. |
| `Numeric.FoldStep` | trading_engine.py:64 | The fold over one more entry is one more step. |
| `FuturesEngine.TradingEngine.CreateOneMinuteBar` | trading_engine.py:92-118 | The in-place bar step equals `NextBars` and keeps the invariant. |
| `FuturesEngine.TradingEngine.BarStep` | trading_engine.py:92-118 | The branches of the bar step (fewer than two ticks, same minute as the last bar, no ticks of the minute, new bar with eviction) compute exactly `NextBars`. |
| `FuturesEngine.NextBarsKeepsState` | trading_engine.py:92-118 | The bar step preserves the engine invariant: both caps, bars only after two ticks, and well-formed bars. |
| `FuturesEngine.TradingEngine.GetOrderBookPressure` | trading_engine.py:214-217 | Returns the newest tick's pressure, or 0 with no ticks. |
| `FuturesEngine.TradingEngine.GetVwap` | trading_engine.py:219-222 | Returns 0 with no bars. Otherwise it is the session VWAP of the last 50 bars, which with zero volume is the first of those bars' close. |
| `FuturesEngine.TradingEngine.GetTradingDecision` | trading_engine.py:147-212 | The engine's decision is `Decide` on its current bars and ticks. |
| `OptionsEngine.SpreadPercent` | trading_engine_options.py:78-81 | The spread percentage is 0 when the mid price is not positive. It has the sign of ask − bid. With non-negative prices it is in [-200, 200]. |
| `OptionsEngine.OrderBookOf` | trading_engine_options.py:32-90 | Empty depth gives all-zero output, including the spread. Otherwise the best prices are the first level's and the totals are the tier sums. Levels past 30 are ignored. |
| `OptionsEngine.ExtractOrderBook` | trading_engine_options.py:32-90 | The loop-and-accumulator computation returns exactly `OrderBookOf`. |
| `OptionsEngine.PressureInRange` | trading_engine_options.py:71-76 | With non-negative quantities, the 30/30/40 pressure score is in [-100, 100]. |
| `OptionsEngine.ExtractOrderBookAsWritten` | trading_engine_options.py:71-73 | As written, empty depth gives the all-zero book and any other depth raises NameError. |
| `OptionsEngine.AsWrittenDropsDepthTicks` | trading_engine_options.py:92-139 | As written, a tick with depth is never appended, and every stored tick has pressure 0. |
| `OptionsEngine.TicksAfterAsWritten` | trading_engine_options.py:94-138 | As written, a tick with depth leaves the tick list unchanged. A tick without depth is appended with the zero order book. |
| `OptionsEngine.TicksAfterMessageAsWritten` | trading_engine_options.py:94-138 | As written, the tick list after a whole message stays within the cap. A message whose first entry has depth leaves it unchanged. |
| `OptionsEngine.AsWrittenDropsRestOfMessage` | trading_engine_options.py:94-138 | As written, the first entry of a message that carries depth ends the handler, so it and every later entry of that message add no tick. |
| `OptionsEngine.CorrectedSeesPressure` | trading_engine_options.py:71-76 | One level with bids and no asks gives pressure 30 with the intended imbalance. The code as written raises NameError on it. |
| `OptionsEngine.OiChange` | trading_engine_options.py:173-176 | Returns 0 with no previous bar or a previous OI ≤ 0. Otherwise it is (oi − prev)/prev × 100, positive iff OI rose and negative iff it fell. |
| `OptionsEngine.MakeBar` | trading_engine_options.py:152-176 | The bar is stamped minute×60000 and is well formed. Low and high are the min and max tick prices. Open and close are the first and last tick prices. |
| `OptionsEngine.BarAveragesWithinTicks` | trading_engine_options.py:160-176 | The average delta, IV and pressure each lie within their ticks' range. OI is the last tick's. The OI change is measured against the last stored bar. |
| `OptionsEngine.NextBarsProperties` | trading_engine_options.py:141-181 | The bar step keeps the list at most 500 long, the bars well formed, and adjacent minutes distinct. |
| `OptionsEngine.NextBars` | trading_engine_options.py:141-181 | Defines the bar step of `create_one_minute_bar`, with the OI change, as a function of the two lists. Its properties are stated by `NextBarsProperties`, `NextBarsAppendsNewestMinute` and `SameMinuteLeavesBars`. |
| `OptionsEngine.NextBarsAppendsNewestMinute` | trading_engine_options.py:149-181 | A changing bar step appends one bar of the newest tick's minute, with that tick's OI and the OI change against the previous last bar. It drops the oldest bar only over the cap. |
| `OptionsEngine.SameMinuteLeavesBars` | trading_engine_options.py:149 | A tick in the last bar's minute never changes the bars. |
| `OptionsEngine.NextBarsKeepsState` | trading_engine_options.py:141-181 | The bar step preserves the engine invariant: both caps, bars only after two ticks, and well-formed bars. |
| `OptionsEngine.TimeLeIsClockOrder` | trading_engine_options.py:186-188 | Comparing times field by field is the same as comparing microseconds since midnight. |
| `OptionsEngine.MarketHoursByClock` | trading_engine_options.py:183-188 | Market hours are exactly 09:15:00 to 15:30:00 inclusive. The square-off test is exactly "at or after 15:15". |
| `OptionsEngine.IsMarketHours` | trading_engine_options.py:183-188 | Defines `is_market_hours` as `09:15 <= now <= 15:30` in `datetime.time` order. `MarketHoursByClock` states it as a clock interval. |
| `OptionsEngine.ContainsIsSubstring` | trading_engine_options.py:192-194 | The `in` search on strings holds exactly when the pattern occurs at some position. |
| `OptionsEngine.OptionTypeBySubstring` | trading_engine_options.py:190-196 | CE iff "CE" occurs in the key, even when "PE" does too. PE iff "PE" occurs and "CE" does not. None iff neither occurs. |
| `OptionsEngine.OptionTypeOf` | trading_engine_options.py:190-196 | Defines `get_option_type`. `OptionTypeBySubstring`, `CallWinsOverPut`, `PutKey` and `NumericKeyIsNoOption` state what it returns. |
| `OptionsEngine.CallWinsOverPut` | trading_engine_options.py:192-193 | A key with both "PE" and "CE" is a call. |
| `OptionsEngine.PutKey` | trading_engine_options.py:194-195 | A key with "PE" and no "CE" is a put. |
| `OptionsEngine.NumericKeyIsNoOption` | trading_engine_options.py:196 | The numeric futures key is no option. |
| `OptionsEngine.AnalyzeTrend` | trading_engine_options.py:198-219 | Returns NEUTRAL with fewer than 20 bars. Otherwise, with a positive previous-15 average, BULLISH iff the last-5 average exceeds it by more than 0.3%, and BEARISH iff it falls short by more than 0.3%. |
| `OptionsEngine.ChangeThresholds` | trading_engine_options.py:212-219 | A change above 0.3% (below −0.3%) against a positive base means the last average is above 100.3% (below 99.7%) of it. |
| `OptionsEngine.FlatClosesAreNeutral` | trading_engine_options.py:198-219 | Bars that all close at one positive price show no trend. |
| `OptionsEngine.LotSize` | trading_engine_options.py:379-391 | The lot size is always in [1, 3], and 1 when premium ≤ 0. For a positive premium: 3 iff premium ≤ 200/3, 2 iff 200/3 < premium ≤ 100, and 1 iff premium > 100. |
| `OptionsEngine.LotSizeNonIncreasing` | trading_engine_options.py:386-389 | Among positive premiums, a dearer option never gets more lots. |
| `OptionsEngine.LotSizeAtZeroPremium` | trading_engine_options.py:386-391 | A zero premium gets one lot, while a premium of 1 gets three. |
| `OptionsEngine.PressurePoints` | trading_engine_options.py:246-261 | Order-book pressure contributes 0 to 30 points. |
| `OptionsEngine.DeltaPoints` | trading_engine_options.py:263-279 | The delta trend contributes 0 to 20 points. |
| `OptionsEngine.GammaPoints` | trading_engine_options.py:281-289 | A gamma spike contributes 0 to 20 points. |
| `OptionsEngine.IvPoints` | trading_engine_options.py:291-301 | The IV percentile contributes 0 to 15 points. |
| `OptionsEngine.OiPoints` | trading_engine_options.py:303-319 | OI buildup contributes 0 to 15 points. |
| `OptionsEngine.ThetaPenalty` | trading_engine_options.py:321-325 | High theta costs 0 to 10 points. |
| `OptionsEngine.SpreadPenalty` | trading_engine_options.py:327-331 | A wide spread costs 0 to 10 points. |
| `OptionsEngine.TrendBonus` | trading_engine_options.py:333-340 | A confirming market trend adds 0 to 10 points. |
| `OptionsEngine.ScoreOf` | trading_engine_options.py:241-340 | The eight-factor score is between -20 and 110. |
| `OptionsEngine.SignalsOf` | trading_engine_options.py:232-334 | Defines the values the entry search reads: the option type, pressure, 5-bar delta trend, gamma against its 20-bar average, IV against its 30-bar average, OI change, theta, spread and trend. They are stated through `ScoreOf` and `BuyingSignal`. |
| `OptionsEngine.ScoreSymmetric` | trading_engine_options.py:246-340 | A put scores what a call scores when the delta trend is negated and the market trend mirrored. |
| `OptionsEngine.BuyingSignal` | trading_engine_options.py:221-377 | Returns WAIT, in this order, for fewer than 50 bars, outside 09:15–15:30, and for a non-option instrument. Otherwise BUY iff score > 60, with confidence = min(abs(score), 100) > 60. The BUY has entry = the bar's close, stop = half the premium, target = twice the premium, lots = `LotSize`, the tick's option type and key, the tick's delta, gamma, IV and theta, and the last bar's OI change. Otherwise NO_SIGNAL with the score, confidence and reasons. |
| `OptionsEngine.PositionOf` | trading_engine_options.py:349-358 | A position opened from a BUY keeps its entry, stop, target, option type and delta; the exit rules read the last two. |
| `OptionsEngine.ExitReasonOf` | trading_engine_options.py:408-469 | The first matching exit wins, in this order: stop (price ≤ stop), target (price ≥ target), delta reversal, order-book reversal beyond ±40, and end of day at or after 15:15. Each reason is stated as an iff over all earlier conditions failing. None iff all fail. |
| `OptionsEngine.CheckExit` | trading_engine_options.py:393-476 | HOLD without detail iff there is no position or no tick. Otherwise EXIT with the first reason, or HOLD. Both carry the current price and the P&L percent against entry. |
| `OptionsEngine.BoughtPositionExitBands` | trading_engine_options.py:406-424 | For a position from a BUY at positive premium, the stop fires iff P&L ≤ −50%, and the target fires iff −50% < P&L and P&L ≥ 100%. A held position is strictly between those bounds. |
| `OptionsEngine.PnlThresholds` | trading_engine_options.py:406 | Price ≤ half the entry iff P&L ≤ −50%. Price ≥ twice the entry iff P&L ≥ 100%. |
| `OptionsEngine.HoldBeforeSquareOff` | trading_engine_options.py:461-476 | Before 15:15, with the price strictly between stop and target and no reversal, the position is held. |
| `OptionsEngine.GetTradingDecision` | trading_engine_options.py:478-485 | With a position open, the decision is the exit check, so only EXIT or HOLD, and the entry search's divisors need not be non-zero. Without one, it is the entry search, so only WAIT, BUY or NO_SIGNAL. |
| `OptionsEngine.OpenPositionIgnoresBars` | trading_engine_options.py:481-482 | With a position open, the decision is the same for any bar history. |
| `OptionsEngine.OptionsTradingEngine.constructor` | trading_engine_options.py:19-25 | A new engine has no ticks, no bars and no position. |
| `OptionsEngine.OptionsTradingEngine.ProcessTick` | trading_engine_options.py:92-139 | The tick list becomes the old list plus the new tick under the 10,000 cap, and the new tick is last. The bars become one bar step. The invariant is kept. |
| `OptionsEngine.OptionsTradingEngine.AppendTick` | trading_engine_options.py:105-134 | The parsed tick, with the order book of its depth, is appended and the oldest tick is dropped beyond the 10,000 cap. |
| `OptionsEngine.AppendTickKeepsState` | trading_engine_options.py:131-134 | Appending a tick under the cap keeps the engine invariant. |
| `OptionsEngine.OptionsTradingEngine.ProcessFeed` | trading_engine_options.py:97-136 | Both lists become `Feed` of their old values: each entry in turn is appended under the cap, then the bar step runs. The invariant is kept. The last tick is last in the list. An empty feed changes nothing. |
| `OptionsEngine.Feed` | trading_engine_options.py:97-136 | Processing no entries changes nothing. Otherwise the last entry's tick ends the tick list. |
| `OptionsEngine.TickStep` | trading_engine_options.py:97-136 | One iteration of the feeds loop: its tick ends the tick list, the list stays within 10,000, and the bar step runs. |
| `OptionsEngine.FeedKeepsState` | trading_engine_options.py:97-136 | Any sequence of feed entries keeps both lists capped and the bars well formed. |
| `OptionsEngine.OptionsTradingEngine.CreateOneMinuteBar` | trading_engine_options.py:141-181 | The in-place bar step equals `NextBars` and keeps the invariant. |
| `OptionsEngine.OptionsTradingEngine.BarStep` | trading_engine_options.py:141-181 | The branches of the bar step (fewer than two ticks, same minute as the last bar, no ticks of the minute, new bar with eviction) compute exactly `NextBars`. |
| `OptionsEngine.OptionsTradingEngine.GetOrderBookPressure` | trading_engine_options.py:487-491 | Returns the newest tick's pressure, or 0 with no ticks. |
| `OptionsEngine.OptionsTradingEngine.Decide` | trading_engine_options.py:478-485 | The engine's decision is `GetTradingDecision` on its fields. No entry is ever returned while `activePosition` is set, and then the entry search's divisors need not be non-zero. |
| `FeedClient.ValidateOrderParams` | upstox_ws_client.py:43-60 | The error list is empty iff the symbol is a non-empty string, the type is 'BUY' or 'SELL', the quantity is a positive int, and the price is None or positive. Each check's error is present iff that check fails. Errors are in the order symbol, type, quantity, price, so there are at most 4. |
| `FeedClient.RankedConcat` | upstox_ws_client.py:45-58 | Appending the four checks' errors in turn gives a list ordered by check. |
| `FeedClient.BoolPassesAsNumber` | upstox_ws_client.py:53-58 | `True` passes as quantity and as price, because bool is an int. `False` fails as quantity. |
| `FeedClient.AllInvalid` | upstox_ws_client.py:45-58 | All four parameters invalid give all four errors, in order. |
| `FeedClient.PlaceOrder` | upstox_ws_client.py:188-244 | Failed validation returns a validation error and sends nothing to the broker. Otherwise it sends the parameters, as LIMIT iff a price is given, and succeeds iff the broker accepts. |
| `FeedClient.GateIgnoresBroker` | upstox_ws_client.py:192-198 | When validation fails, the result is the same whatever the broker would answer. |
| `FeedClient.Pow2Monotone` | upstox_ws_client.py:164 | `2 ** n` never decreases in n. |
| `FeedClient.Backoff` | upstox_ws_client.py:164 | The delay `min(5·2^attempts, 300)` never exceeds 300. |
| `FeedClient.BackoffMonotone` | upstox_ws_client.py:164 | The delay never decreases as the counter grows. |
| `FeedClient.BackoffValues` | upstox_ws_client.py:162-164 | The first retry waits 10 s. From the sixth retry on, the delay is capped at 300. |
| `FeedClient.Step` | upstox_ws_client.py:91-186 | A successful connect sets running and resets the counter to 0. A failure while running counts first, then sleeps `Backoff` of the new count, and stops at 10. A failure while not running exits without sleeping. Disconnect clears running and keeps the counter. A stopped loop stays stopped. |
| `FeedClient.Retry` | upstox_ws_client.py:160-168 | The reconnect branch: while running it counts the failure and sleeps a backoff of at most 300 s, and the loop stops iff the counter reaches 10. When not running it leaves without sleeping. |
| `FeedClient.Run` | upstox_ws_client.py:91-172 | The `_async_connect` loop over a sequence of events sleeps at most once per event. No events leave the client unchanged. |
| `FeedClient.StepKeepsInv` | upstox_ws_client.py:94-172 | The counter stays ≤ 10. A loop still attempting has attempts left. An open connection has running set and counter 0. |
| `FeedClient.DisconnectIdempotent` | upstox_ws_client.py:183-186 | Disconnecting twice is the same as disconnecting once. |
| `FeedClient.FirstFailureStops` | upstox_ws_client.py:162-169 | A never-connected client's failed first attempt ends the loop without retrying. |
| `FeedClient.DisconnectLostOnConnect` | upstox_ws_client.py:104-107 | A disconnect during an attempt is overridden when that attempt connects. |
| `FeedClient.DelaysNonDecreasing` | upstox_ws_client.py:161-166 | Between connections the sleeps never get shorter, and each is at most the current count's backoff. The invariant holds throughout. |
| `FeedClient.FailuresUntilStop` | upstox_ws_client.py:94-172 | Consecutive failures while running count up by one each, sleep `Backoff` of each new count, and stop exactly when the counter reaches 10. |
| `FeedClient.TenFailuresAfterConnect` | upstox_ws_client.py:94-172 | After a dropped connection, ten failures sleep 10, 20, 40, 80, 160 and then 300 s five times, and end the loop. |
| `FeedClient.FeedConnection.constructor` | upstox_ws_client.py:30-33 | A new client is not running and has no failed attempts. |
| `FeedClient.FeedConnection.OnConnected` | upstox_ws_client.py:104-107 | The fields take the `Step` successor for Connected. |
| `FeedClient.FeedConnection.OnFailed` | upstox_ws_client.py:161-169 | The fields and the returned sleep are the `Step` result for Failed. |
| `FeedClient.FeedConnection.Disconnect` | upstox_ws_client.py:183-186 | The fields take the `Step` successor for Disconnect. |
| `FeedClient.FeedConnection.RunEvents` | upstox_ws_client.py:91-172 | Running an event script in place gives the state and sleeps of `Run`. |

## Left out

- Feed parsing: the `feed.get(...)` chains and `int(...)`/`float(...)` conversions in both `process_tick` functions. A tick is an already-parsed record (`RawTick`), and a feed message is a list of them.
- The `try`/`except` around `process_tick` in the futures engine: with parsed ticks nothing there can raise. The options engine's as-written failure is modelled separately (see Findings).
- Float rounding: all prices and averages are exact `real`s.
- Non-finite prices: a price is an exact `real`, so NaN and infinity do not exist in the model. In the source a NaN price passes the validator's `price <= 0` test (upstox_ws_client.py:57) and `place_order`'s `if price` test (upstox_ws_client.py:212).
- `FuturesEngine.Decide`: requires the previous bar's close to be non-zero, because the source divides by it unguarded (trading_engine.py:159).
- `OptionsEngine.BuyingSignal`: requires a non-zero 30-bar IV average, previous close and previous-15 average, because the source divides by them unguarded (trading_engine_options.py:212, 294, 306).
- `OptionsEngine.CheckExit`: requires a non-zero entry price (trading_engine_options.py:406).
- `OptionsEngine.AnalyzeTrend`: the BULLISH/BEARISH iff is stated only for a positive previous average. A negative one flips the comparison and is not stated.
- `OptionsEngine.LotSizeNonIncreasing`: holds only among positive premiums. A non-positive premium gets 1 lot while a premium of 1 gets 3.
- `FeedClient.DelaysNonDecreasing`: holds only between successful connections, because a connect resets the counter.
- `FuturesEngine.Atr`: requires `period >= 1`. The source always passes 14.
- `datetime.now()`: the time of day is a parameter.
- Logging and `print`.
- `get_current_greeks` of the options engine: a plain read of the newest tick's fields with no rule to state.
- The unused settings `active_position` (futures engine) and `min_days_to_expiry`.
- Streaming client: the authorization request, protobuf decoding, SSL and WebSocket calls, the subscription message, `asyncio` sleeps, the 30 s receive and 5 s ping timeouts, and the `_heartbeat` task. Their outcome is the Connected or Failed event. The `websocket` field is not modelled.
- Streaming client: `get_order_status` and `cancel_order`, and the broker SDK call in `place_order`. The broker's answer is an input (`BrokerReply`).
- `app.py` (HTTP routes, streaming to the dashboard, threads, the dispatch queue), `database.py` (storage) and `upstox_client.py` (an older client) are not part of this model.
- The human-readable reason texts are a `Reason` datatype. They name the same factor and option type as the source's messages, not the exact wording.

## Findings

| source | as written | input that shows it | evidently intended | confidence | as-written member | corrected member |
|---|---|---|---|---|---|---|
| trading_engine_options.py:71-73 | `calc_imb` is called but defined only inside the futures engine's method, so any non-empty depth raises NameError. The `try` at lines 94-138 wraps the whole loop over the message's instruments, so the NameError also drops every later instrument of that message. `AsWrittenDropsDepthTicks` states the loss for one tick and `AsWrittenDropsRestOfMessage` for a whole message. | one depth level with bid quantity 10 and ask quantity 0 | tier imbalance (bid−ask)/(bid+ask), 0 for an empty tier, as in trading_engine.py:42-44; here the pressure would be 30 | high, not executed | `OptionsEngine.AsWrittenDropsDepthTicks` | `OptionsEngine.CorrectedSeesPressure` |
