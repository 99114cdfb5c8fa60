# Bithumb trading bot decision pipeline: a Dafny model

This project models the decision-making core of a Bithumb (Korean crypto exchange) trading bot.
It has six parts:

- **Indicator library** (`Technical`). It computes RSI with Wilder smoothing, EMA, MACD, SMA,
  standard deviation, Bollinger bands, average volume and ATR over price and volume series. It
  also has the step scorers that map each indicator to 0–100.
- **Multi-layer strategy** (`MultiLayer`). It holds the volatility, sentiment and event scorers
  and the weighted-mean composite score. It also holds the buy/hold/sell thresholds, the
  confidence gate, the trade predicate and `analyzeMarket`, which builds an analysis from a
  candle list.
- **Trading engine** (`Trading`). This is the `TradingEngine` class with its running flag, its
  single optional `Position`, its configuration and its event log.
  - It has `start`, `stop`, `updateConfig`, `emergencyStop` and one loop tick: `mainLoop`, which
    runs either `managePosition` or `findBuyOpportunity`.
  - It also has `executeOrder` and `getBalance`.
- **Streaming feed** (`Feed`). This is the `BithumbWebSocket` class. It holds the reconnect
  counter with capped exponential backoff, the remembered subscription and the message dispatch.
  Socket events are method calls.
- **REST client helpers** (`Client`).
  - The response envelope check.
  - The request signature: the nonce, the sorted query string and the signed payload.
  - The 24-hour change, the ticker lists without the `date` key, and the candle column mapping
    and reversal.
  - The order parameters and the Korean-name lookup.
- **Strategy guardrails** (`Copilot`). It covers `validateStrategy` and the parse-then-validate
  order of `generateStrategy`.

Prices, volumes and scores are `real`.

The outside world enters as parameters:
- the exchange (ticker lists, per-symbol ticker and analysis, live balance, order outcome);
- the clock (`now`);
- `Math.sqrt`, as the subset type `Root`;
- HMAC-SHA512 with base64;
- the feed's `parseFloat` of price and quantity text, and `JSON.parse` as the `parse` parameter;
- the chat completion.

`Wrappers` holds `Option`, `Result` (a thrown `Error` becomes `Err(message)`) and `Outcome`.

Stateful code is modelled as classes.
- Each class method ensures `State() == XSpec(old(State()), inputs)`.
- `XSpec` is a function on a datatype snapshot of the fields.
- The lemmas about engine and feed behaviour are proved about these `XSpec` functions.
- The loops of `calculateRSI`, `calculateEMA`, `calculateATR` and `getAllTickers` are methods
  proved equal to specification functions.

Where the code and its design description differ, the model follows the code:
- `executeOrder` catches order failures and records `OrderFailed`. Its callers then still clear
  the position (take profit, exit, emergency stop) or open it (entry). So a failed order changes
  the position exactly as a filled one does (`Trading.OrderOutcomeNeverChangesPosition`).
- `stop` records a `Stopped` event even when the engine is already stopped.
- `analyzeMarket` declares `currentPrice` twice with the same value (multi-layer.ts lines 201
  and 216). The model uses one binding.
- `disconnect` closes the socket without removing its `close` handler. The close event that
  follows still schedules a reconnect (`Feed.DisconnectThenCloseReconnects`).
- In `calculateMACD` the signal line is an EMA of period 9 over a single value. So MACD, and
  therefore every market analysis, always fails (see Findings).

## Model

| member | source | states |
|---|---|---|
| Technical.Rsi | src/lib/indicators/technical.ts:4-31 | fails exactly when there are fewer than period+1 prices, with the source's message; otherwise the RSI lies in [0,100] |
| Technical.CalculateRSI | src/lib/indicators/technical.ts:4-31 | the loop computing changes, Wilder-smoothed average gain and loss, and 100 - 100/(1+rs) returns exactly `Rsi`; it fails iff the series is too short, and the result lies in [0,100] |
| Technical.SmoothAverages | src/lib/indicators/technical.ts:17-25 | the seed averages of the first `period` gains and losses, then the Wilder-smoothing loop, return exactly the `SmoothedAverage` of the gains and of the losses |
| Technical.PriceChanges | src/lib/indicators/technical.ts:9-12 | the loop pushes `prices[i] - prices[i-1]` for each i, giving one change per consecutive pair |
| Technical.RsiOf | src/lib/indicators/technical.ts:27-30 | with non-negative averages, 100 when the average loss is 0 and 100 - 100/(1+rs) otherwise, always within [0,100] |
| Technical.Gains | src/lib/indicators/technical.ts:14-15 | gains are the positive parts of the changes, never negative |
| Technical.Losses | src/lib/indicators/technical.ts:14-15 | losses are the magnitudes of the negative changes, never negative |
| Technical.SmoothedAverageNonNegative | src/lib/indicators/technical.ts:18-25 | the seed average and every Wilder step keep the average of non-negative values non-negative |
| Technical.WilderStep | src/lib/indicators/technical.ts:23-24 | one smoothing step keeps a non-negative average non-negative and keeps an all-zero average at zero |
| Technical.RsiOfNonFallingSeries | src/lib/indicators/technical.ts:18-28 | a series that never falls has average loss 0 and RSI 100 |
| Technical.RsiOfNonRisingSeries | src/lib/indicators/technical.ts:18-30 | a series that never rises, with some loss, has RSI 0 |
| Technical.ScoreRSI | src/lib/indicators/technical.ts:36-42 | 100 iff RSI < 30, 70 iff 30 ≤ RSI < 40, 50 iff 40 ≤ RSI < 60, 30 iff 60 ≤ RSI < 70, 0 iff RSI ≥ 70 |
| Technical.ScoreRSINonIncreasing | src/lib/indicators/technical.ts:36-42 | a higher RSI never scores higher (breakpoints 30/40/60/70) |
| Technical.SmoothingFactor | src/lib/indicators/technical.ts:52 | the multiplier 2/(period+1) lies in (0,1] |
| Technical.CalculateEMA | src/lib/indicators/technical.ts:47-60 | the loop seeded with the first price returns `Ema`; it fails iff there are fewer prices than the period |
| Technical.EmaWithin | src/lib/indicators/technical.ts:52-59 | every EMA lies between the minimum and maximum of the prices |
| Technical.EmaOfConstant | src/lib/indicators/technical.ts:52-59 | a constant series has that constant as its EMA |
| Technical.CalculateMACD | src/lib/indicators/technical.ts:71-82 | as written it always fails with the EMA's "not enough data" message, whatever the prices |
| Technical.SignalLineRejected | src/lib/indicators/technical.ts:77-78 | the period-9 EMA of the one-element MACD line is rejected by the length check at lines 48-50 |
| Technical.CalculateMACDSeededSignal | src/lib/indicators/technical.ts:71-82 | corrected MACD: fails iff fewer than 26 prices; MACD line = EMA12 - EMA26; the seeded signal equals the MACD line and the histogram is 0 |
| Technical.ScoreMACD | src/lib/indicators/technical.ts:87-105 | 100 on a golden cross, 0 on a dead cross, (50,80] for a positive histogram and [20,50] otherwise; always within [0,100] |
| Technical.Mean | src/lib/indicators/technical.ts:110-117 | the mean of a non-empty window lies between its minimum and maximum |
| Technical.CalculateSMA | src/lib/indicators/technical.ts:110-117 | fails iff shorter than the period; otherwise the result is the sum of the last `period` prices divided by `period`, and it lies within that window's minimum and maximum |
| Technical.CalculateStdDev | src/lib/indicators/technical.ts:122-127 | fails iff shorter than the period, with the SMA's message; otherwise the result is the square root of `Variance` of the last `period` prices, and it is non-negative |
| Technical.Variance | src/lib/indicators/technical.ts:122-126 | the reference variance of a window, the mean squared distance of its values from `Mean`, is non-negative |
| Technical.SumOfSquaredDiffs | src/lib/indicators/technical.ts:124-125 | summing the mapped squares `(p - m)^2` gives the total squared deviation from m, so the map-and-reduce computes `Variance` |
| Technical.VarianceOfConstant | src/lib/indicators/technical.ts:122-127 | a window whose prices are all equal has variance 0, hence standard deviation `sqrt(0)` |
| Technical.VarianceOfShift | src/lib/indicators/technical.ts:122-127 | adding the same amount to every price moves the mean by that amount and leaves the variance unchanged |
| Technical.CalculateBollingerBands | src/lib/indicators/technical.ts:138-151 | fails iff shorter than the period; the bands are `Bands` of the SMA, the multiplier and `CalculateStdDev` of the same prices; the middle band is the SMA, the bands are symmetric about it and ordered lower ≤ middle ≤ upper for a non-negative multiplier |
| Technical.Bands | src/lib/indicators/technical.ts:146-150 | upper = middle + multiplier·stdDev and lower = middle − multiplier·stdDev; they enclose the middle for a non-negative multiplier and deviation |
| Technical.ScoreBollinger | src/lib/indicators/technical.ts:156-174 | with x = price − lower and width w > 0: 100 iff x < 0.2w, 70 iff 0.2w ≤ x < 0.4w, 50 iff 0.4w ≤ x < 0.6w, 30 iff 0.6w ≤ x < 0.8w, 0 iff x ≥ 0.8w; with zero width, 100 iff the price is below the band and 0 otherwise |
| Technical.ScoreBollingerNonIncreasing | src/lib/indicators/technical.ts:156-174 | with upper > lower, a higher price never scores higher |
| Technical.CalculateAvgVolume | src/lib/indicators/technical.ts:179-186 | fails iff shorter than the period; otherwise the result is the sum of the last `period` volumes divided by `period`, and it lies within that window's minimum and maximum |
| Technical.ScoreVolume | src/lib/indicators/technical.ts:191-200 | with a positive average a: 100 iff volume ≥ 3a, 80 iff 2a ≤ volume < 3a, 60 iff 1.5a ≤ volume < 2a, 50 iff 1.2a ≤ volume < 1.5a, 40 iff a ≤ volume < 1.2a, 20 iff volume < a; with a zero average, 100 iff the volume is positive and 20 otherwise |
| Technical.ScoreVolumeNonDecreasing | src/lib/indicators/technical.ts:191-200 | with a positive average, a larger current volume never scores lower |
| Technical.TrueRange | src/lib/indicators/technical.ts:213-215 | the true range is the absolute difference of consecutive prices |
| Technical.AtrNonNegative | src/lib/indicators/technical.ts:205-220 | ATR fails exactly when there are fewer than period+1 prices and is otherwise non-negative |
| Technical.CalculateATR | src/lib/indicators/technical.ts:205-220 | the loop that collects true ranges returns `Atr`; it fails iff too short and is otherwise non-negative |
| MultiLayer.RangeRatio | src/lib/strategy/multi-layer.ts:71-74 | for a price within the recent range the ratio lies in [0,1], and it is 0 at the low (also for a flat window, through the 1e-8 floor) |
| MultiLayer.RecentRangeRatio | src/lib/strategy/multi-layer.ts:71-74 | the range ratio of the last price against the last 24 prices lies in [0,1] |
| MultiLayer.Imbalance | src/lib/strategy/multi-layer.ts:76-79 | with non-negative volumes the imbalance lies in [0,1]; equal volumes give exactly 0.5 |
| MultiLayer.QuantitySumNonNegative | src/lib/strategy/multi-layer.ts:76-77 | non-negative quantities sum to a non-negative volume |
| MultiLayer.CalculateVolatilityMetrics | src/lib/strategy/multi-layer.ts:65-85 | fails (with ATR's or average volume's message) iff fewer than 15 prices or 20 volumes; otherwise ATR ≥ 0, range ratio in [0,1], imbalance in [0,1] and 0.5 for balanced books |
| MultiLayer.VolumeSpike | src/lib/strategy/multi-layer.ts:81-82 | fails, with the average volume's message, iff there are fewer than 20 volumes |
| MultiLayer.ScoreVolatility | src/lib/strategy/multi-layer.ts:90-99 | the score is exactly 50 + 10·(raising rules met − lowering rules met), a multiple of 10 within [30,90], so the clamp to [0,100] never applies |
| MultiLayer.ScoreVolatilityRewardsActivity | src/lib/strategy/multi-layer.ts:90-99 | a higher ATR and volume spike never lower the score |
| MultiLayer.Round | src/lib/strategy/multi-layer.ts:107 | `Math.round` gives the integer within half a unit, ties rounding up |
| MultiLayer.ScoreSentiment | src/lib/strategy/multi-layer.ts:104-108 | 40 whenever confidence < 0.5, whatever the aggregate; otherwise round((agg+1)/2·100), within [0,100] for agg in [-1,1] |
| MultiLayer.Clamp01 | src/lib/strategy/multi-layer.ts:123 | the clamp lies in [0,1] and leaves values in [0,1] unchanged |
| MultiLayer.ScoreEvent | src/lib/strategy/multi-layer.ts:113-124 | 60 for no events, always within [0,100] |
| MultiLayer.ScoreEventOfNeutralEvents | src/lib/strategy/multi-layer.ts:113-124 | a non-empty list of only neutral events scores exactly 50 |
| MultiLayer.ScoreEventFollowsDirection | src/lib/strategy/multi-layer.ts:113-124 | with no bearish event the score is at least 50; with no bullish event it is at most 50 |
| MultiLayer.CalculateTotalScore | src/lib/strategy/multi-layer.ts:129-153 | the score times the total weight is the weighted sum of the seven sub-scores |
| MultiLayer.TotalScoreWithin | src/lib/strategy/multi-layer.ts:129-153 | with non-negative weights of positive total, sub-scores within [lo,hi] give a total within [lo,hi] |
| MultiLayer.TotalScoreOfEqualWeights | src/lib/strategy/multi-layer.ts:129-153 | equal non-zero weights give the plain average of the sub-scores |
| MultiLayer.DetermineSignal | src/lib/strategy/multi-layer.ts:158-162 | buy iff score ≥ 70, sell iff score ≤ 30, hold iff strictly between |
| MultiLayer.DetermineSignalMonotone | src/lib/strategy/multi-layer.ts:158-162 | a higher score never gives a more bearish signal |
| MultiLayer.HasCriticalBearish | src/lib/strategy/multi-layer.ts:169-171 | true iff some event is bearish, of high severity and has confidence ≥ 0.7 |
| MultiLayer.ComputeConfidenceGate | src/lib/strategy/multi-layer.ts:167-173 | passes iff sentiment confidence ≥ 0.5 and no event is critically bearish |
| MultiLayer.ShouldExecuteTrade | src/lib/strategy/multi-layer.ts:178-181 | trades iff the gate passed and score ≥ 70 |
| MultiLayer.ShouldExecuteImpliesBuy | src/lib/strategy/multi-layer.ts:178-181 | any score that trades gives a buy signal |
| MultiLayer.Closes | src/lib/strategy/multi-layer.ts:199 | one close price per candle, in order |
| MultiLayer.Volumes | src/lib/strategy/multi-layer.ts:200 | one volume per candle, in order |
| MultiLayer.SyntheticBookVolatility | src/lib/strategy/multi-layer.ts:201-218 | the synthetic one-bid/one-ask book of quantity 1 makes the imbalance exactly 0.5 |
| MultiLayer.PlaceholderScores | src/lib/strategy/multi-layer.ts:221-226 | the placeholder sentiment scores 50 and the empty event list scores 60 |
| MultiLayer.IndicatorScoresOf | src/lib/strategy/multi-layer.ts:212-237 | every sub-score of an analysis lies in [0,100]; sentiment is 50 and event is 60 |
| MultiLayer.Assemble | src/lib/strategy/multi-layer.ts:199-252 | every assembled analysis is consistent: score in [0,100], signal = DetermineSignal(score), placeholder sentiment, no events, imbalance 0.5 |
| MultiLayer.AnalyzeCandles | src/lib/strategy/multi-layer.ts:193-252 | fewer than 20 candles fail with the candle count in the message; a MACD failure propagates; any result is consistent |
| MultiLayer.AnalyzeMarketWith | src/lib/strategy/multi-layer.ts:186-257 | every failure, of the fetch or of the analysis, is rewrapped as "Analysis failed for <symbol>: …"; success returns the analysis unchanged |
| MultiLayer.AnalyzeMarket | src/lib/strategy/multi-layer.ts:186-257 | as written it never succeeds; the message is the fetch error, the candle count, or the EMA's "not enough data" |
| MultiLayer.AnalyzeMarketCorrected | src/lib/strategy/multi-layer.ts:186-257 | with the corrected MACD: succeeds iff the fetch succeeds with at least 27 candles; 20–26 candles fail with the EMA message; any result is consistent, with signal = DetermineSignal(score), score in [0,100] and imbalance 0.5 |
| Client.CheckStatus | src/lib/bithumb/client.ts:123-125 | the envelope unwraps iff the status is "0000"; otherwise the error is "Bithumb API Error: " + the message |
| Client.Change24h | src/lib/bithumb/client.ts:133-135 | 0 when open ≤ 0; otherwise change·open = (close - open)·100 |
| Client.Change24hRoundTrip | src/lib/bithumb/client.ts:176-178 | for a positive open, the open plus change percent recovers the close; the change is positive or zero exactly when the close is above or equal to the open |
| Client.TickerOf | src/lib/bithumb/client.ts:127-146 | a ticker carries the symbol, its Korean name, the closing price, the 24-hour change, the 24-hour units traded as volume, the 24-hour KRW volume, and the maximum and minimum prices as high and low |
| Client.GetTicker | src/lib/bithumb/client.ts:118-151 | succeeds iff the status is "0000", with the ticker built from the coin data |
| Client.TickersOf | src/lib/bithumb/client.ts:168-190 | one ticker per key other than `date` (the count is `NonDateCount`), none for `date` |
| Client.TickersAndMarketsAppend | src/lib/bithumb/client.ts:107 | the ticker list and the market list of concatenated entries are the concatenations of the lists of the parts, so both keep the key order |
| Client.TickersAndMarketsOfOneKey | src/lib/bithumb/client.ts:168-190 | a single `date` key gives no ticker and no market; any other key gives exactly its ticker built by `TickerOf` and its symbol |
| Client.GetAllTickers | src/lib/bithumb/client.ts:156-197 | the loop succeeds iff the status is "0000", with the envelope's error otherwise, and returns `TickersOf` of the entries |
| Client.GetAllMarkets | src/lib/bithumb/client.ts:97-113 | succeeds iff the status is "0000", with the envelope's error otherwise; on success the symbols are exactly `MarketsOf` the entries: one per key other than `date`, in key order |
| Client.MarketsAreTickerSymbols | src/lib/bithumb/client.ts:107 | the market list is exactly the ticker symbols in the same key order, and a key is listed iff it is a response key other than `date` |
| Client.CandleOf | src/lib/bithumb/client.ts:242-249 | columns [time, open, close, high, low, volume] map to the candle fields |
| Client.Reverse | src/lib/bithumb/client.ts:251 | the reversal keeps the length and mirrors the order |
| Client.GetCandles | src/lib/bithumb/client.ts:233-256 | succeeds iff the status is "0000"; yields min(count, rows) candles, the i-th being row count-1-i of the first `count` rows |
| Client.CandlesEndWithFirstRow | src/lib/bithumb/client.ts:242-251 | the last candle is the first row and the first candle is the last kept row |
| Client.Lookup | src/lib/bithumb/client.ts:69-70 | a parameter is found iff its key is present, with a value paired with that key |
| Client.SetParam | src/lib/bithumb/client.ts:69-70 | assigning `params.nonce` keeps keys distinct, binds the key to the value, leaves other keys alone and adds the key only when it was absent |
| Client.SortKeys | src/lib/bithumb/client.ts:72-75 | `Object.keys(...).sort()` gives a sorted permutation of the keys |
| Client.InsertKeySorted | src/lib/bithumb/client.ts:72-75 | inserting a key into keys in ascending order keeps them in ascending order |
| Client.QueryPairs | src/lib/bithumb/client.ts:72-75 | one `key=value` pair per parameter |
| Client.Sign | src/lib/bithumb/client.ts:64-92 | fails iff the API key or secret is missing; nonce = the time as text; body = the sorted query string of the parameters with the nonce; the signature is the HMAC of endpoint + "\0" + body |
| Client.SignedQueryCoversParams | src/lib/bithumb/client.ts:69-77 | the signed query string renders every original parameter and the nonce, in sorted key order |
| Client.PlaceOrderParams | src/lib/bithumb/client.ts:296-305 | order currency, KRW, side text and units are set; `price` is present iff the order is a limit order with a truthy price |
| Client.OrderBase | src/lib/bithumb/client.ts:296-301 | the four fixed order parameters have distinct names, carry the symbol, KRW, the side text and the units, and include no `price` |
| Client.MarketOrderHasNoPrice | src/lib/bithumb/client.ts:302-304 | a market order never carries a price |
| Client.PlaceOrderRequest | src/lib/bithumb/client.ts:288-322 | the order request fails iff credentials are missing and signs exactly the order parameters plus the nonce |
| Client.KoreanName | src/lib/bithumb/client.ts:355-437 | the mapped name for a known symbol, the symbol itself otherwise |
| Trading.Merge | src/lib/strategy/trading-engine.ts:308-311 | every field given in the patch overrides the configuration and every absent field keeps its value |
| Trading.Reprice | src/lib/strategy/trading-engine.ts:116-121 | the position keeps its identity and gets the new price, P/L = (price - entry)·quantity and P/L% with pct·entry = (price - entry)·100 |
| Trading.CandidateOf | src/lib/strategy/trading-engine.ts:183-193 | a candidate that should trade has a passed gate and a score ≥ 70 |
| Trading.Evaluate | src/lib/strategy/trading-engine.ts:182-195 | the parallel analysis succeeds iff every symbol's analysis succeeds, giving one candidate per ticker in order |
| Trading.Qualifying | src/lib/strategy/trading-engine.ts:198-199 | a candidate is kept iff it should trade on a buy signal |
| Trading.QualifyingKeepsOrder | src/lib/strategy/trading-engine.ts:198 | the filter keeps the input order: filtering a concatenation concatenates the filtered parts |
| Trading.Best | src/lib/strategy/trading-engine.ts:199-200 | the chosen candidate is one of the list and scores at least as high as every other |
| Trading.BestIsEarliest | src/lib/strategy/trading-engine.ts:199-200 | ties go to the earlier candidate, as in a stable sort: every candidate before the chosen one scores strictly less |
| Trading.BestIsFirstOfHighest | src/lib/strategy/trading-engine.ts:198-200 | the candidate bought is, in ticker order, a qualifying one such that every earlier qualifying candidate scores strictly less |
| Trading.Balance | src/lib/strategy/trading-engine.ts:287-296 | simulation uses 10,000,000 KRW; live mode uses the exchange balance or its error |
| Trading.OrderQuantity | src/lib/strategy/trading-engine.ts:210-212 | quantity·price = balance·percentage/100, non-negative for non-negative inputs |
| Trading.OpenBest | src/lib/strategy/trading-engine.ts:207-245 | a balance failure leaves the state alone; otherwise the new position is the best candidate's, entered at its price with zero P/L and the computed quantity |
| Trading.ScanOpensBest | src/lib/strategy/trading-engine.ts:198-212 | with at least one qualifying candidate the scan buys the best qualifying one, and its price is positive |
| Trading.ProfitPct | src/lib/strategy/trading-engine.ts:116 | the profit percentage times the entry price is (price - entry)·100 |
| Trading.Liquid | src/lib/strategy/trading-engine.ts:92 | a ticker passes the filter iff its 24-hour KRW volume reaches the configured minimum |
| Trading.LiquidKeepsOrder | src/lib/strategy/trading-engine.ts:92 | the volume filter keeps the ticker order: filtering a concatenation concatenates the filtered parts |
| Trading.StartIsIdempotent | src/lib/strategy/trading-engine.ts:47-66 | starting a running engine changes nothing; starting twice equals starting once; afterwards the engine and the loop are running |
| Trading.StopKeepsPosition | src/lib/strategy/trading-engine.ts:71-79 | stop clears the running flag and the loop, records `Stopped`, and leaves the position and configuration alone |
| Trading.StepsPreserveValidity | src/lib/strategy/trading-engine.ts:84-105 | a disabled tick is a no-op; every operation keeps running == loop active and a positive entry price |
| Trading.TakeProfitIgnoresAnalysis | src/lib/strategy/trading-engine.ts:126-137 | at or above the profit target the position is sold and cleared whatever the analysis says |
| Trading.ExitRules | src/lib/strategy/trading-engine.ts:140-169 | below target the position is closed iff the analysis says sell with score < 30 or the gate fails; a confidence exit is recorded only when the gate failed |
| Trading.FailedAnalysisKeepsPosition | src/lib/strategy/trading-engine.ts:140-172 | when the analysis fails below target, the position is kept with the repriced values |
| Trading.OrderOutcomeNeverChangesPosition | src/lib/strategy/trading-engine.ts:254-282 | whether an order fills or fails, a tick and an emergency stop leave the same position |
| Trading.TickKeepsAtMostOnePosition | src/lib/strategy/trading-engine.ts:95-100 | a tick with a position either closes it or keeps the same symbol, entry and quantity; it never opens a second |
| Trading.OpenedPosition | src/lib/strategy/trading-engine.ts:198-232 | a position opened by a scan belongs to a qualifying ticker that scores at least as high as every qualifying one and strictly higher than every earlier qualifying one, at its price, with zero P/L and a quantity of percentage·balance/price |
| Trading.NoOpportunityKeepsFlat | src/lib/strategy/trading-engine.ts:202-205 | without qualifying candidates the scan only records `NoOpportunity` |
| Trading.EmergencyEndsFlat | src/lib/strategy/trading-engine.ts:316-332 | an emergency stop ends stopped, without a position, with `EmergencyStopped` as its last event |
| Trading.AsWrittenScanNeverOpens | src/lib/strategy/trading-engine.ts:182-205 | with the analysis as written, a non-empty scan fails as a whole and an empty one finds no opportunity |
| Trading.AsWrittenEngineNeverTrades | src/lib/strategy/trading-engine.ts:84-174 | with the analysis as written, a tick never opens a position and closes one only on take profit |
| Trading.CorrectedEngineBuysOnStrongSignals | src/lib/strategy/trading-engine.ts:198-232 | with the corrected analysis, every opened position is for a ticker whose consistent analysis says buy with a score in [70,100] |
| Trading.ConsistentAnalysisPassesGate | src/lib/strategy/trading-engine.ts:140-169 | every pipeline analysis passes the confidence gate, so the exit rule reduces to score < 30 |
| Trading.Position.constructor | src/lib/strategy/trading-engine.ts:224-232 | a new position holds exactly the given values |
| Trading.TradingEngine.constructor | src/lib/strategy/trading-engine.ts:39-42 | a new engine is stopped, flat, with the given configuration and no events |
| Trading.TradingEngine.Start | src/lib/strategy/trading-engine.ts:47-66 | the new state is `StartSpec` of the old |
| Trading.TradingEngine.Stop | src/lib/strategy/trading-engine.ts:71-79 | the new state is `StopSpec` of the old |
| Trading.TradingEngine.UpdateConfig | src/lib/strategy/trading-engine.ts:308-311 | the configuration becomes the merged one and `ConfigUpdated` is recorded |
| Trading.TradingEngine.ExecuteOrder | src/lib/strategy/trading-engine.ts:254-282 | appends `OrderFilled` (or `OrderFailed` for a failed live order) and changes nothing else |
| Trading.TradingEngine.GetBalance | src/lib/strategy/trading-engine.ts:287-296 | returns `Balance`: 10,000,000 KRW in simulation |
| Trading.TradingEngine.ManagePosition | src/lib/strategy/trading-engine.ts:110-174 | updates the stored position in place and the engine state as `ManageSpec` |
| Trading.TradingEngine.FindBuyOpportunity | src/lib/strategy/trading-engine.ts:179-249 | the new state is `ScanSpec` of the old |
| Trading.TradingEngine.BuyBest | src/lib/strategy/trading-engine.ts:207-245 | the new state is `OpenBest` of the old: nothing changes when the balance query fails, otherwise the order is reported and the best candidate becomes the position |
| Trading.TradingEngine.ClosePosition | src/lib/strategy/trading-engine.ts:127-135 | the whole position is sold, the position is dropped, and the order's event and `position_closed` with the given profit are reported, in that order |
| Trading.TradingEngine.MainLoop | src/lib/strategy/trading-engine.ts:84-105 | the new state is `TickSpec` of the old |
| Trading.TradingEngine.EmergencyStop | src/lib/strategy/trading-engine.ts:316-332 | the new state is `EmergencySpec` of the old |
| Feed.ReconnectDelay | src/lib/bithumb/websocket.ts:94-95 | the delay min(1000·2^attempts, 30000) lies within [1000, 30000] |
| Feed.ReconnectDelaySchedule | src/lib/bithumb/websocket.ts:94-95 | attempts 0..4 wait 1, 2, 4, 8 and 16 seconds; from 5 on, 30 seconds |
| Feed.ReconnectDelayMonotone | src/lib/bithumb/websocket.ts:94-95 | later attempts never wait less |
| Feed.Markets | src/lib/bithumb/websocket.ts:138 | each symbol gets the `_KRW` suffix, in input order |
| Feed.RemoveSuffixRoundTrip | src/lib/bithumb/websocket.ts:171 | removing the first `_KRW` from a suffixed symbol without `_` gives the symbol back |
| Feed.SubscriptionRoundTrip | src/lib/bithumb/websocket.ts:134-148 | both subscription frames list exactly the suffixed symbols, and stripping recovers the subscribed symbols |
| Feed.HandleMessage | src/lib/bithumb/websocket.ts:168-196 | an event is produced iff the message is a ticker or transaction with content; ticker fields map with the suffix stripped; a transaction carries the parsed price and quantity, the contract time, and side bid iff `buySellGb` is "1" |
| Feed.StepsPreserveValidity | src/lib/bithumb/websocket.ts:35-102 | every event keeps the attempt counter ≤ 10 and any scheduled delay within [1000, 30000] |
| Feed.AttemptReconnectRules | src/lib/bithumb/websocket.ts:87-102 | at 10 attempts nothing is scheduled, the counter is kept and max attempts is reported; below, the delay for the current count is scheduled and the counter increases |
| Feed.ReconnectBudget | src/lib/bithumb/websocket.ts:87-102 | k failed reconnections raise the counter to min(attempts + k, 10) and keep the subscription |
| Feed.OpenRestoresSubscription | src/lib/bithumb/websocket.ts:39-52 | an open resets the counter, starts the heartbeat, resends the remembered symbols only when there are some, and reports connected |
| Feed.SubscribeRules | src/lib/bithumb/websocket.ts:128-151 | subscribing while not open changes nothing; when open it remembers the symbols and sends exactly the ticker then transaction frame |
| Feed.CloseRules | src/lib/bithumb/websocket.ts:63-68 | a close stops the heartbeat, attempts a reconnect and reports disconnected |
| Feed.DisconnectThenCloseReconnects | src/lib/bithumb/websocket.ts:201-215 | disconnect clears timer, heartbeat, socket and subscription, but the close event that follows schedules a reconnect again |
| Feed.BithumbWebSocket.constructor | src/lib/bithumb/websocket.ts:21-30 | a new feed has no socket, no timer, no heartbeat, zero attempts and no subscription |
| Feed.BithumbWebSocket.Connect | src/lib/bithumb/websocket.ts:35-82 | the new state is `ConnectSpec`: a connecting socket, or a reconnect attempt when creation throws |
| Feed.BithumbWebSocket.OnReconnectTimer | src/lib/bithumb/websocket.ts:99-101 | the fired timer connects again |
| Feed.BithumbWebSocket.AttemptReconnect | src/lib/bithumb/websocket.ts:87-102 | the new state is `AttemptReconnectSpec` of the old |
| Feed.BithumbWebSocket.OnOpen | src/lib/bithumb/websocket.ts:39-52 | the new state is `OpenSpec` of the old |
| Feed.BithumbWebSocket.OnMessage | src/lib/bithumb/websocket.ts:54-61 | a handled message appends its event; unparsable and unknown messages are dropped |
| Feed.BithumbWebSocket.OnClose | src/lib/bithumb/websocket.ts:63-68 | the new state is `CloseSpec` of the old |
| Feed.BithumbWebSocket.OnError | src/lib/bithumb/websocket.ts:70-73 | only the error event is appended |
| Feed.BithumbWebSocket.Subscribe | src/lib/bithumb/websocket.ts:128-151 | the new state is `SubscribeSpec` of the old |
| Feed.BithumbWebSocket.Unsubscribe | src/lib/bithumb/websocket.ts:156-163 | the remembered set is cleared only while open |
| Feed.BithumbWebSocket.Disconnect | src/lib/bithumb/websocket.ts:201-215 | the new state is `DisconnectSpec` of the old |
| Feed.BithumbWebSocket.IsConnected | src/lib/bithumb/websocket.ts:220-222 | connected iff the socket is open |
| Copilot.ValidateStrategy | src/lib/ai/copilot.ts:108-128 | passes iff max position ≤ 80 (or absent), stop loss < 0, profit target > 0 and a non-empty checklist; each error is reported iff it is the first failing check |
| Copilot.ValidationIgnoresText | src/lib/ai/copilot.ts:108-128 | the strategy text and rationale never affect validation |
| Copilot.GenerateStrategy | src/lib/ai/copilot.ts:60-103 | a failed or empty completion fails; success is exactly a non-empty completion whose parsed recommendation passed validation, and that recommendation is returned |

## Left out

- Network I/O is left out: axios requests, the OpenAI calls and the WebSocket transport. Their results are parameters.
  - The engine's exchange is an `Exchange` value: the ticker list, a per-symbol ticker and analysis, the live balance, an order outcome and the time.
  - The feed's socket events are method calls.
- Timers are left out (`setInterval`, `setTimeout`, heartbeat pings). One loop tick, one socket event or one timer firing is one method call. `reconnectTimer` records the delay that was scheduled.
- HMAC-SHA512 with base64 is a parameter of `Client.Sign`. So are `JSON.parse`, the feed's `parseFloat` and the number-to-text rendering of order units and prices.
- Client.TickerOf, Client.GetTicker, Client.GetAllTickers and Client.GetCandles receive the coin data and candle rows as numbers. The `parseFloat` of each text field is left out, so a missing field's NaN (and the change of 0 that a NaN opening price gives) is not modelled.
- Logging is left out: console output, `logAIDecision` and `logAIOutcome`.
- `Promise.all` in `findBuyOpportunity` is a sequential map (`Trading.Evaluate`) that fails as a whole when any analysis fails. Concurrency and interleaving of ticks are not modelled.
- `Object.keys` puts integer-like keys first. The ticker entries are an ordered list of (key, value) pairs, and the model keeps that list's order.
- IEEE floating point is modelled as exact reals. NaN, Infinity and rounding are out of scope, except that `Technical.ScoreBollinger` and `Technical.ScoreVolume` follow the comparison fall-through of a zero divisor.
- Technical.Rsi and the other indicator members require a positive period. A period of 0 divides by zero in the source. Every caller passes a positive constant.
- Trading.Reprice requires a positive entry price. An entry price of 0 gives an infinite P/L percentage in the source.
- Trading.ScanSpec requires positive ticker prices (`PositivePrices`). A zero price gives an infinite order quantity in the source.
- Trading.TradingEngine.MainLoop, Trading.TickSpec and the lemmas about a tick require `Tickable`: when the tick scans for a buy, the liquid tickers have positive prices. The infinite quantity of a zero price is not modelled.
- Trading.TickKeepsAtMostOnePosition holds for ticks that do not overlap. `start` (trading-engine.ts:58-65) runs `mainLoop` every 5 seconds without waiting for the previous tick. Two overlapping scans could each buy, and that interleaving is not modelled.
- Client.KoreanName: the name map is a Dafny map, so keys inherited from `Object.prototype` (`constructor`, `toString`, `valueOf`, `__proto__`) are not modelled. Bithumb's upper-case symbols never match them (client.ts:436).
- MultiLayer.CalculateTotalScore requires a non-zero total weight. A zero total divides by zero in the source.
- `Date.now()` nonces and timestamps are a natural number. `openedAt` and candle times are opaque values.
- The engine's `error` event for an exception inside the loop is left out. With the oracles as parameters, no modelled step throws. Failed fetches and analyses are `Err` values handled where the source catches them.
- The getter for the current position is left out. It only reads a field.
- A configuration patch with an explicitly `undefined` field is left out. A patch field is either absent or a value.
- Starting the heartbeat interval is a flag. So a repeated open does not model the leaked earlier interval.
- `generateStrategy` takes a `parameters` object. It only shapes the prompt, so it is not modelled.
- `analyzeBacktestResult` and `generateMarketSummary` are left out. They forward text to the chat model and return its answer unchecked.
- UI pages, the socket.io relay server, the HTTP route wrappers and the database schema are left out. They are outside the decision pipeline.

## Findings

| source | as written | input that shows it | evidently intended | confidence | as-written member | corrected member |
|---|---|---|---|---|---|---|
| src/lib/indicators/technical.ts:77-78 | the signal line is `calculateEMA([macdLine], 9)`; the EMA rejects fewer values than its period (lines 48-50), so `calculateMACD` always fails; `analyzeMarket` calls it, so every analysis fails and the engine never opens a position | any price series, e.g. 30 equal prices | a signal line computed without rejecting the one-element series (here the seeded EMA of the MACD line) so that analyses with at least 27 candles succeed (26 closes for the previous MACD, taken over the series without its last close) | high, not executed | Technical.CalculateMACD, MultiLayer.AnalyzeMarket, Trading.AsWrittenEngineNeverTrades | Technical.CalculateMACDSeededSignal, MultiLayer.AnalyzeMarketCorrected, Trading.CorrectedEngineBuysOnStrongSignals |
