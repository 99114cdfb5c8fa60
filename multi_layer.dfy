/** The multi-layer strategy: volatility, sentiment and event scorers, the weighted composite
    score, the buy/hold/sell thresholds, the confidence gate, the trade predicate, and the
    `analyzeMarket` pipeline that assembles them from a candle list. */
module MultiLayer {
  import opened Wrappers
  import opened Technical
  import Client

  datatype IndicatorScores = IndicatorScores(
    rsi: real, macd: real, bollinger: real, volume: real, volatility: real, sentiment: real, event: real)

  datatype Weights = Weights(
    rsi: real, macd: real, bollinger: real, volume: real, volatility: real, sentiment: real, event: real)

  datatype VolatilitySnapshot = VolatilitySnapshot(atr: real, rangeRatio: real, orderBookImbalance: real, volumeSpike: real)

  datatype SourceKind = News | Community | Social
  datatype SentimentSource = SentimentSource(source: SourceKind, score: real, confidence: real)
  /** `aggregateScore` is meant to lie in [-1, 1] and `confidence` in [0, 1]. */
  datatype SentimentSnapshot = SentimentSnapshot(aggregateScore: real, confidence: real, sources: seq<SentimentSource>)

  datatype EventType = Macro | Exchange | Listing | Regulation
  datatype Severity = Low | Medium | High
  datatype Impact = Bullish | Bearish | Neutral
  /** An event; the dates are epoch milliseconds. */
  datatype EventSignal = EventSignal(
    id: string, kind: EventType, severity: Severity, impact: Impact, confidence: real,
    scheduledAt: Option<real>, detectedAt: real)

  datatype Signal = Buy | Hold | Sell

  datatype AnalysisMetadata = AnalysisMetadata(volatility: VolatilitySnapshot, sentiment: SentimentSnapshot, events: seq<EventSignal>)
  datatype MarketAnalysis = MarketAnalysis(score: real, signal: Signal, indicators: IndicatorScores, metadata: AnalysisMetadata)

  /** The `1e-8` floor under every denominator. */
  const Epsilon: real := 0.00000001

  // ---------------------------------------------------------------------------
  // Volatility
  // ---------------------------------------------------------------------------

  /** `levels.reduce((acc, level) => acc + level.quantity, 0)`. */
  function QuantitySum(levels: seq<Client.OrderBookLevel>): real
  {
    if levels == [] then 0.0 else levels[0].quantity + QuantitySum(levels[1..])
  }

  predicate NonNegativeQuantities(levels: seq<Client.OrderBookLevel>)
  {
    forall i :: 0 <= i < |levels| ==> 0.0 <= levels[i].quantity
  }

  lemma {:induction false} QuantitySumNonNegative(levels: seq<Client.OrderBookLevel>)
    ensures NonNegativeQuantities(levels) ==> 0.0 <= QuantitySum(levels)
  {
    if levels != [] {
      QuantitySumNonNegative(levels[1..]);
    }
  }

  lemma SingleLevelSum(level: Client.OrderBookLevel)
    ensures QuantitySum([level]) == level.quantity
  {
    assert [level][1..] == [];
  }

  lemma ImbalanceFacts(bidVolume: real, askVolume: real, total: real)
    requires total == RealMax(bidVolume + askVolume, Epsilon)
    ensures 0.0 <= bidVolume && 0.0 <= askVolume ==> 0.0 <= bidVolume / total <= 1.0
    ensures bidVolume == askVolume && Epsilon <= bidVolume + askVolume ==> bidVolume / total == 0.5
  {
    if 0.0 <= bidVolume && 0.0 <= askVolume {
      DivideWithin(bidVolume, total, 0.0, 1.0);
    }
    if bidVolume == askVolume && Epsilon <= bidVolume + askVolume {
      assert total == 2.0 * bidVolume;
      assert 0.5 * total == bidVolume;
    }
  }

  /** `bid / max(bid + ask, 1e-8)`. */
  function Imbalance(bidVolume: real, askVolume: real): (imbalance: real)
    ensures 0.0 <= bidVolume && 0.0 <= askVolume ==> 0.0 <= imbalance <= 1.0
    ensures bidVolume == askVolume && Epsilon <= bidVolume + askVolume ==> imbalance == 0.5
  {
    var total := RealMax(bidVolume + askVolume, Epsilon);
    ImbalanceFacts(bidVolume, askVolume, total);
    bidVolume / total
  }

  /** `(current - low) / max(high - low, 1e-8)` for a price inside [low, high]. */
  function RangeRatio(current: real, recentLow: real, recentHigh: real): (ratio: real)
    requires recentLow <= current <= recentHigh
    ensures 0.0 <= ratio <= 1.0
    ensures current == recentLow ==> ratio == 0.0
  {
    var range := RealMax(recentHigh - recentLow, Epsilon);
    DivideWithin(current - recentLow, range, 0.0, 1.0);
    (current - recentLow) / range
  }

  /** Where the last price sits in the range of the last 24 prices. */
  function RecentRangeRatio(prices: seq<real>): (ratio: real)
    requires |prices| > 0
    ensures 0.0 <= ratio <= 1.0
  {
    var window := Last(prices, 24);
    var current := prices[|prices| - 1];
    assert current == window[|window| - 1];
    RangeRatio(current, Min(window), Max(window))
  }

  /** `calculateVolatilityMetrics`: the 14-period ATR, where the last price sits in the range
      of the last 24, the order-book imbalance and the last volume against the average of the
      last 24. The ATR and the average volume fail on short series, in that order. */
  function CalculateVolatilityMetrics(prices: seq<real>, volumes: seq<real>,
                                      bids: seq<Client.OrderBookLevel>, asks: seq<Client.OrderBookLevel>): (r: Result<VolatilitySnapshot>)
    ensures r.Err? <==> |prices| < 15 || |volumes| < 20
    ensures |prices| < 15 ==> r == Err(AtrShortMessage)
    ensures 15 <= |prices| && |volumes| < 20 ==> r == Err(AvgVolumeShortMessage)
    ensures r.Ok? ==> 0.0 <= r.value.atr && 0.0 <= r.value.rangeRatio <= 1.0
    ensures r.Ok? && NonNegativeQuantities(bids) && NonNegativeQuantities(asks) ==> 0.0 <= r.value.orderBookImbalance <= 1.0
    ensures (r.Ok? && QuantitySum(bids) == QuantitySum(asks) && Epsilon <= QuantitySum(bids) + QuantitySum(asks))
              ==> r.value.orderBookImbalance == 0.5
  {
    AtrNonNegative(prices, 14);
    assert |prices| < 15 ==> Atr(prices, 14) == Err(AtrShortMessage);
    var atr :- Atr(prices, 14);
    var rangeRatio := RecentRangeRatio(prices);
    QuantitySumNonNegative(bids);
    QuantitySumNonNegative(asks);
    var orderBookImbalance := Imbalance(QuantitySum(bids), QuantitySum(asks));
    var volumeSpike :- VolumeSpike(volumes);
    Ok(VolatilitySnapshot(atr, rangeRatio, orderBookImbalance, volumeSpike))
  }

  /** The last volume over the 20-period average of the last 24 volumes (floored at 1e-8);
      the average fails on fewer than 20 volumes. */
  function VolumeSpike(volumes: seq<real>): (r: Result<real>)
    ensures r.Err? <==> |volumes| < 20
    ensures r.Err? ==> r.message == AvgVolumeShortMessage
  {
    var window := Last(volumes, 24);
    assert |window| < 20 <==> |volumes| < 20;
    var avgVolume :- CalculateAvgVolume(window, 20);
    Ok(volumes[|volumes| - 1] / RealMax(avgVolume, Epsilon))
  }

  /** `scoreVolatility`: 50, ten points up for each sign of activity (ATR, price near the top
      of its range, bid-heavy book, volume spike), ten down for a thin bid side or a price near
      the bottom, clamped to [0, 100]. Opposite rules exclude each other, so the clamp never
      binds. */
  function ScoreVolatility(snapshot: VolatilitySnapshot): (r: real)
    ensures 30.0 <= r <= 90.0
    ensures r in {30.0, 40.0, 50.0, 60.0, 70.0, 80.0, 90.0}
    ensures r == 50.0 + 10.0 * (RaisingRules(snapshot) as real - LoweringRules(snapshot) as real)
  {
    var score := 50.0
      + (if snapshot.atr >= 0.015 then 10.0 else 0.0)
      + (if snapshot.rangeRatio >= 0.8 then 10.0 else 0.0)
      + (if snapshot.orderBookImbalance >= 0.6 then 10.0 else 0.0)
      + (if snapshot.volumeSpike >= 2.0 then 10.0 else 0.0)
      - (if snapshot.orderBookImbalance <= 0.4 then 10.0 else 0.0)
      - (if snapshot.rangeRatio <= 0.2 then 10.0 else 0.0);
    RealMax(0.0, RealMin(score, 100.0))
  }

  /** How many of the four rules that add ten points hold: high ATR, price near the top of its
      range, bid-heavy book, volume spike. */
  function RaisingRules(snapshot: VolatilitySnapshot): (n: nat)
    ensures n <= 4
  {
    (if snapshot.atr >= 0.015 then 1 else 0) + (if snapshot.rangeRatio >= 0.8 then 1 else 0)
    + (if snapshot.orderBookImbalance >= 0.6 then 1 else 0) + (if snapshot.volumeSpike >= 2.0 then 1 else 0)
  }

  /** How many of the two rules that take ten points away hold: thin bid side, price near the
      bottom of its range. */
  function LoweringRules(snapshot: VolatilitySnapshot): (n: nat)
    ensures n <= 2
  {
    (if snapshot.orderBookImbalance <= 0.4 then 1 else 0) + (if snapshot.rangeRatio <= 0.2 then 1 else 0)
  }

  /** More ATR or a larger volume spike never lowers the volatility score. */
  lemma ScoreVolatilityRewardsActivity(s: VolatilitySnapshot, t: VolatilitySnapshot)
    requires s.atr <= t.atr && s.volumeSpike <= t.volumeSpike
    requires s.rangeRatio == t.rangeRatio && s.orderBookImbalance == t.orderBookImbalance
    ensures ScoreVolatility(s) <= ScoreVolatility(t)
  {
  }

  // ---------------------------------------------------------------------------
  // Sentiment and events
  // ---------------------------------------------------------------------------

  /** `Math.round`: the nearest integer, halves rounded up. */
  function Round(x: real): (n: int)
    ensures x - 0.5 < n as real <= x + 0.5
  {
    (x + 0.5).Floor
  }

  /** `scoreSentiment`: 40 when the confidence is below 0.5, otherwise the aggregate score
      mapped from [-1, 1] onto [0, 100] and rounded. */
  function ScoreSentiment(snapshot: SentimentSnapshot): (r: real)
    ensures snapshot.confidence < 0.5 ==> r == 40.0
    ensures 0.5 <= snapshot.confidence ==> r == Round((snapshot.aggregateScore + 1.0) / 2.0 * 100.0) as real
    ensures 0.5 <= snapshot.confidence && -1.0 <= snapshot.aggregateScore <= 1.0 ==> 0.0 <= r <= 100.0
  {
    if snapshot.confidence < 0.5 then 40.0
    else
      var normalized := (snapshot.aggregateScore + 1.0) / 2.0;
      Round(normalized * 100.0) as real
  }

  function SeverityWeight(severity: Severity): real
  {
    match severity
    case High => 1.0
    case Medium => 0.6
    case Low => 0.3
  }

  function Direction(impact: Impact): real
  {
    match impact
    case Bullish => 1.0
    case Bearish => -1.0
    case Neutral => 0.0
  }

  function Contribution(event: EventSignal): real
  {
    Direction(event.impact) * SeverityWeight(event.severity) * event.confidence
  }

  /** The `reduce` of `scoreEvent`: the signed, severity-weighted confidences, summed in list
      order. */
  function WeightedImpact(events: seq<EventSignal>): real
  {
    if events == [] then 0.0 else WeightedImpact(events[..|events| - 1]) + Contribution(events[|events| - 1])
  }

  function Clamp01(x: real): (c: real)
    ensures 0.0 <= c <= 1.0
    ensures 0.0 <= x <= 1.0 ==> c == x
  {
    RealMax(0.0, RealMin(x, 1.0))
  }

  /** `scoreEvent`: 60 without events, otherwise the weighted impact mapped from [-1, 1] onto
      [0, 1], clamped, scaled to 100 and rounded. */
  function ScoreEvent(events: seq<EventSignal>): (r: real)
    ensures events == [] ==> r == 60.0
    ensures 0.0 <= r <= 100.0
  {
    if events == [] then 60.0
    else
      var normalized := (WeightedImpact(events) + 1.0) / 2.0;
      Round(Clamp01(normalized) * 100.0) as real
  }

  lemma {:induction false} WeightedImpactOfNeutralEvents(events: seq<EventSignal>)
    requires forall i :: 0 <= i < |events| ==> events[i].impact == Neutral
    ensures WeightedImpact(events) == 0.0
  {
    if events != [] {
      WeightedImpactOfNeutralEvents(events[..|events| - 1]);
    }
  }

  /** A non-empty list of neutral events scores exactly 50. */
  lemma ScoreEventOfNeutralEvents(events: seq<EventSignal>)
    requires events != []
    requires forall i :: 0 <= i < |events| ==> events[i].impact == Neutral
    ensures ScoreEvent(events) == 50.0
  {
    WeightedImpactOfNeutralEvents(events);
  }

  lemma {:induction false} WeightedImpactSign(events: seq<EventSignal>)
    requires forall i :: 0 <= i < |events| ==> 0.0 <= events[i].confidence
    ensures (forall i :: 0 <= i < |events| ==> events[i].impact != Bearish) ==> 0.0 <= WeightedImpact(events)
    ensures (forall i :: 0 <= i < |events| ==> events[i].impact != Bullish) ==> WeightedImpact(events) <= 0.0
  {
    if events != [] {
      var last := events[|events| - 1];
      WeightedImpactSign(events[..|events| - 1]);
      ProductNonNegative(SeverityWeight(last.severity), last.confidence);
    }
  }

  /** Events that are never bearish cannot score below 50, and events that are never bullish
      cannot score above 50. */
  lemma ScoreEventFollowsDirection(events: seq<EventSignal>)
    requires events != []
    requires forall i :: 0 <= i < |events| ==> 0.0 <= events[i].confidence
    ensures (forall i :: 0 <= i < |events| ==> events[i].impact != Bearish) ==> 50.0 <= ScoreEvent(events)
    ensures (forall i :: 0 <= i < |events| ==> events[i].impact != Bullish) ==> ScoreEvent(events) <= 50.0
  {
    WeightedImpactSign(events);
  }

  // ---------------------------------------------------------------------------
  // Fusion, signal and gate
  // ---------------------------------------------------------------------------

  function TotalWeight(w: Weights): real
  {
    w.rsi + w.macd + w.bollinger + w.volume + w.volatility + w.sentiment + w.event
  }

  function WeightedSum(s: IndicatorScores, w: Weights): real
  {
    s.rsi * w.rsi + s.macd * w.macd + s.bollinger * w.bollinger + s.volume * w.volume
      + s.volatility * w.volatility + s.sentiment * w.sentiment + s.event * w.event
  }

  /** The default weights 20/20/15/15/10/10/10, which sum to 100. */
  const DefaultWeights := Weights(20.0, 20.0, 15.0, 15.0, 10.0, 10.0, 10.0)

  /** `calculateTotalScore`: the weighted mean of the sub-scores. A zero total weight would
      divide by zero. */
  function CalculateTotalScore(scores: IndicatorScores, weights: Weights): (r: real)
    requires TotalWeight(weights) != 0.0
    ensures r * TotalWeight(weights) == WeightedSum(scores, weights)
  {
    WeightedSum(scores, weights) / TotalWeight(weights)
  }

  predicate ScoresWithin(s: IndicatorScores, lo: real, hi: real)
  {
    lo <= s.rsi <= hi && lo <= s.macd <= hi && lo <= s.bollinger <= hi && lo <= s.volume <= hi
    && lo <= s.volatility <= hi && lo <= s.sentiment <= hi && lo <= s.event <= hi
  }

  predicate NonNegativeWeights(w: Weights)
  {
    0.0 <= w.rsi && 0.0 <= w.macd && 0.0 <= w.bollinger && 0.0 <= w.volume
    && 0.0 <= w.volatility && 0.0 <= w.sentiment && 0.0 <= w.event
  }

  /** Every sub-score moved to `offset + sign * score`. */
  function Rescaled(s: IndicatorScores, offset: real, sign: real): IndicatorScores
  {
    IndicatorScores(offset + sign * s.rsi, offset + sign * s.macd, offset + sign * s.bollinger,
                    offset + sign * s.volume, offset + sign * s.volatility, offset + sign * s.sentiment,
                    offset + sign * s.event)
  }

  /** Non-negative scores with non-negative weights have a non-negative weighted sum. */
  lemma WeightedSumNonNegative(s: IndicatorScores, w: Weights)
    requires NonNegativeWeights(w)
    requires 0.0 <= s.rsi && 0.0 <= s.macd && 0.0 <= s.bollinger && 0.0 <= s.volume
    requires 0.0 <= s.volatility && 0.0 <= s.sentiment && 0.0 <= s.event
    ensures 0.0 <= WeightedSum(s, w)
  {
    ProductNonNegative(s.rsi, w.rsi);
    ProductNonNegative(s.macd, w.macd);
    ProductNonNegative(s.bollinger, w.bollinger);
    ProductNonNegative(s.volume, w.volume);
    ProductNonNegative(s.volatility, w.volatility);
    ProductNonNegative(s.sentiment, w.sentiment);
    ProductNonNegative(s.event, w.event);
  }

  lemma WeightedSumAbove(s: IndicatorScores, w: Weights, lo: real)
    requires NonNegativeWeights(w)
    requires lo <= s.rsi && lo <= s.macd && lo <= s.bollinger && lo <= s.volume
    requires lo <= s.volatility && lo <= s.sentiment && lo <= s.event
    ensures lo * TotalWeight(w) <= WeightedSum(s, w)
  {
    var d := Rescaled(s, -lo, 1.0);
    WeightedSumNonNegative(d, w);
    assert WeightedSum(d, w) == WeightedSum(s, w) - lo * TotalWeight(w);
  }

  lemma WeightedSumBelow(s: IndicatorScores, w: Weights, hi: real)
    requires NonNegativeWeights(w)
    requires s.rsi <= hi && s.macd <= hi && s.bollinger <= hi && s.volume <= hi
    requires s.volatility <= hi && s.sentiment <= hi && s.event <= hi
    ensures WeightedSum(s, w) <= hi * TotalWeight(w)
  {
    var d := Rescaled(s, hi, -1.0);
    WeightedSumNonNegative(d, w);
    assert WeightedSum(d, w) == hi * TotalWeight(w) - WeightedSum(s, w);
  }

  /** With non-negative weights the composite lies between the smallest and the largest
      sub-score bound. */
  lemma TotalScoreWithin(scores: IndicatorScores, weights: Weights, lo: real, hi: real)
    requires NonNegativeWeights(weights) && TotalWeight(weights) > 0.0
    requires ScoresWithin(scores, lo, hi)
    ensures lo <= CalculateTotalScore(scores, weights) <= hi
  {
    var total := TotalWeight(weights);
    WeightedSumAbove(scores, weights, lo);
    WeightedSumBelow(scores, weights, hi);
    DivideWithin(WeightedSum(scores, weights), total, lo, hi);
  }

  /** With equal non-zero weights the composite is the plain average of the seven scores. */
  lemma TotalScoreOfEqualWeights(scores: IndicatorScores, w: real)
    requires w != 0.0
    ensures CalculateTotalScore(scores, Weights(w, w, w, w, w, w, w))
         == (scores.rsi + scores.macd + scores.bollinger + scores.volume + scores.volatility + scores.sentiment + scores.event) / 7.0
  {
    var weights := Weights(w, w, w, w, w, w, w);
    var plain := scores.rsi + scores.macd + scores.bollinger + scores.volume + scores.volatility + scores.sentiment + scores.event;
    assert WeightedSum(scores, weights) == plain * w;
    assert TotalWeight(weights) == 7.0 * w;
    assert (plain * w) / (7.0 * w) == plain / 7.0;
  }

  /** `determineSignal`: buy from 70, sell up to 30, hold in between. */
  function DetermineSignal(score: real): (signal: Signal)
    ensures signal == Buy <==> 70.0 <= score
    ensures signal == Sell <==> score <= 30.0
    ensures signal == Hold <==> 30.0 < score < 70.0
  {
    if score >= 70.0 then Buy else if score <= 30.0 then Sell else Hold
  }

  function SignalRank(signal: Signal): int
  {
    match signal
    case Sell => 0
    case Hold => 1
    case Buy => 2
  }

  /** A higher score never gives a more bearish signal. */
  lemma DetermineSignalMonotone(a: real, b: real)
    requires a <= b
    ensures SignalRank(DetermineSignal(a)) <= SignalRank(DetermineSignal(b))
  {
  }

  /** A bearish, high-severity event with confidence of at least 0.7. */
  predicate IsCriticalBearish(event: EventSignal)
  {
    event.impact == Bearish && event.severity == High && event.confidence >= 0.7
  }

  /** `events.some(IsCriticalBearish)`. */
  function HasCriticalBearish(events: seq<EventSignal>): (found: bool)
    ensures found <==> exists i :: 0 <= i < |events| && IsCriticalBearish(events[i])
  {
    if events == [] then false
    else
      assert forall i :: 0 < i < |events| ==> events[i] == events[1..][i - 1];
      IsCriticalBearish(events[0]) || HasCriticalBearish(events[1..])
  }

  /** `computeConfidenceGate`: sentiment confidence of at least 0.5 and no critical bearish
      event. */
  function ComputeConfidenceGate(sentiment: SentimentSnapshot, events: seq<EventSignal>): (ok: bool)
    ensures ok <==> 0.5 <= sentiment.confidence && forall i :: 0 <= i < |events| ==> !IsCriticalBearish(events[i])
  {
    var sentimentOk := sentiment.confidence >= 0.5;
    sentimentOk && !HasCriticalBearish(events)
  }

  /** `shouldExecuteTrade`: the gate passed and the score reaches 70. */
  function ShouldExecuteTrade(score: real, confidenceOk: bool): (execute: bool)
    ensures execute <==> confidenceOk && 70.0 <= score
  {
    if !confidenceOk then false else score >= 70.0
  }

  /** A trade is only executed on a buy signal. */
  lemma ShouldExecuteImpliesBuy(score: real, confidenceOk: bool)
    requires ShouldExecuteTrade(score, confidenceOk)
    ensures DetermineSignal(score) == Buy
  {
  }

  // ---------------------------------------------------------------------------
  // The analysis pipeline
  // ---------------------------------------------------------------------------

  const MinimumCandles: nat := 20

  /** The fixed sentiment and event inputs of `analyzeMarket`. */
  const PlaceholderSentiment := SentimentSnapshot(0.0, 0.6, [])

  function Closes(candles: seq<Client.Candle>): (prices: seq<real>)
    ensures |prices| == |candles|
    ensures forall i :: 0 <= i < |candles| ==> prices[i] == candles[i].close
  {
    seq(|candles|, i requires 0 <= i < |candles| => candles[i].close)
  }

  function Volumes(candles: seq<Client.Candle>): (volumes: seq<real>)
    ensures |volumes| == |candles|
    ensures forall i :: 0 <= i < |candles| ==> volumes[i] == candles[i].volume
  {
    seq(|candles|, i requires 0 <= i < |candles| => candles[i].volume)
  }

  function InsufficientDataMessage(count: nat): string
  {
    "Insufficient data: " + NatToString(count) + " candles"
  }

  /** The text `analyzeMarket` rethrows: the symbol and the inner message, or "Unknown error"
      for an empty one. */
  function AnalysisFailedMessage(symbol: string, message: string): string
  {
    "Analysis failed for " + symbol + ": " + (if message == "" then "Unknown error" else message)
  }

  /** What every analysis of the pipeline satisfies: its signal is the signal of its score,
      the score lies in [0, 100], the synthetic book is balanced, and the placeholder sentiment
      and empty event list score 50 and 60 and are the ones reported. */
  predicate Consistent(a: MarketAnalysis)
  {
    a.signal == DetermineSignal(a.score)
    && 0.0 <= a.score <= 100.0
    && a.metadata.volatility.orderBookImbalance == 0.5
    && a.indicators.sentiment == 50.0 && a.indicators.event == 60.0
    && a.metadata.events == [] && a.metadata.sentiment == PlaceholderSentiment
  }

  /** The volatility metrics over the synthetic book of `analyzeMarket`: one bid 0.1% below
      and one ask 0.1% above the last close, each of quantity 1. They cannot fail on 20 prices
      and volumes, and the book is balanced. */
  function SyntheticBookVolatility(prices: seq<real>, volumes: seq<real>): (v: VolatilitySnapshot)
    requires |prices| == |volumes| >= MinimumCandles
    ensures v.orderBookImbalance == 0.5
  {
    var currentPrice := prices[|prices| - 1];
    var bids := [Client.OrderBookLevel(currentPrice * 0.999, 1.0)];
    var asks := [Client.OrderBookLevel(currentPrice * 1.001, 1.0)];
    SingleLevelSum(bids[0]);
    SingleLevelSum(asks[0]);
    var metrics := CalculateVolatilityMetrics(prices, volumes, bids, asks);
    metrics.value
  }

  /** The placeholder sentiment scores 50 and the empty event list 60. */
  lemma PlaceholderScores()
    ensures ScoreSentiment(PlaceholderSentiment) == 50.0
    ensures ScoreEvent([]) == 60.0
  {
    assert Round(50.0) == 50;
  }

  /** The seven sub-scores of `analyzeMarket`, with the placeholder sentiment and no events.
      The RSI, Bollinger and average-volume calculations cannot fail on 20 prices and volumes. */
  function IndicatorScoresOf(prices: seq<real>, volumes: seq<real>, macd: Macd, prevMacd: Macd,
                             volatility: VolatilitySnapshot, sqrt: Root): (scores: IndicatorScores)
    requires |prices| == |volumes| >= MinimumCandles
    ensures ScoresWithin(scores, 0.0, 100.0)
    ensures scores.sentiment == 50.0 && scores.event == 60.0
  {
    var currentPrice := prices[|prices| - 1];
    var rsi := Rsi(prices, 14).value;
    var bollinger := CalculateBollingerBands(prices, 20, 2.0, sqrt).value;
    var avgVolume := CalculateAvgVolume(volumes, 20).value;
    PlaceholderScores();
    IndicatorScores(
      ScoreRSI(rsi), ScoreMACD(macd, prevMacd), ScoreBollinger(currentPrice, bollinger),
      ScoreVolume(volumes[|volumes| - 1], avgVolume), ScoreVolatility(volatility),
      ScoreSentiment(PlaceholderSentiment), ScoreEvent([]))
  }

  /** The part of `analyzeMarket` after both MACD values are known: the scores, their
      composite under the default weights, and its signal. */
  function Assemble(prices: seq<real>, volumes: seq<real>, macd: Macd, prevMacd: Macd, sqrt: Root): (a: MarketAnalysis)
    requires |prices| == |volumes| >= MinimumCandles
    ensures Consistent(a)
  {
    var volatility := SyntheticBookVolatility(prices, volumes);
    var scores := IndicatorScoresOf(prices, volumes, macd, prevMacd, volatility, sqrt);
    TotalScoreWithin(scores, DefaultWeights, 0.0, 100.0);
    var totalScore := CalculateTotalScore(scores, DefaultWeights);
    MarketAnalysis(totalScore, DetermineSignal(totalScore), scores, AnalysisMetadata(volatility, PlaceholderSentiment, []))
  }

  /** The body of `analyzeMarket` after the fetch, for a given MACD calculation: at least 20
      candles, a synthetic one-bid/one-ask book around the last close, the indicators, their
      scores with placeholder sentiment and no events, the composite and its signal. */
  function AnalyzeCandles(candles: seq<Client.Candle>, macdOf: seq<real> -> Result<Macd>, sqrt: Root): (r: Result<MarketAnalysis>)
    ensures |candles| < MinimumCandles ==> r == Err(InsufficientDataMessage(|candles|))
    ensures MinimumCandles <= |candles| && macdOf(Closes(candles)).Err? ==> r == Err(macdOf(Closes(candles)).message)
    ensures r.Ok? <==> (MinimumCandles <= |candles| && macdOf(Closes(candles)).Ok?
                        && macdOf(Closes(candles)[..|candles| - 1]).Ok?)
    ensures r.Ok? ==> Consistent(r.value)
  {
    if |candles| < MinimumCandles then Err(InsufficientDataMessage(|candles|))
    else
      var prices := Closes(candles);
      var volumes := Volumes(candles);
      var macd :- macdOf(prices);
      var prevMacd :- macdOf(prices[..|prices| - 1]);
      Ok(Assemble(prices, volumes, macd, prevMacd, sqrt))
  }

  /** `analyzeMarket` for a given MACD calculation: the fetch outcome, then the pipeline, with
      every failure rethrown as "Analysis failed for <symbol>: <message>". */
  function AnalyzeMarketWith(symbol: string, fetched: Result<seq<Client.Candle>>,
                             macdOf: seq<real> -> Result<Macd>, sqrt: Root): (r: Result<MarketAnalysis>)
    ensures fetched.Err? ==> r == Err(AnalysisFailedMessage(symbol, fetched.message))
    ensures (fetched.Ok? && AnalyzeCandles(fetched.value, macdOf, sqrt).Err?)
              ==> r == Err(AnalysisFailedMessage(symbol, AnalyzeCandles(fetched.value, macdOf, sqrt).message))
    ensures fetched.Ok? && AnalyzeCandles(fetched.value, macdOf, sqrt).Ok? ==> r == AnalyzeCandles(fetched.value, macdOf, sqrt)
  {
    var inner := match fetched
      case Ok(candles) => AnalyzeCandles(candles, macdOf, sqrt)
      case Err(message) => Err(message);
    match inner
    case Ok(analysis) => Ok(analysis)
    case Err(message) => Err(AnalysisFailedMessage(symbol, message))
  }

  /** `analyzeMarket` as written. Because `calculateMACD` never returns, it always fails:
      with the fetch error, with too few candles, or else with the EMA's message. */
  function AnalyzeMarket(symbol: string, fetched: Result<seq<Client.Candle>>, sqrt: Root): (r: Result<MarketAnalysis>)
    ensures r.Err?
    ensures fetched.Err? ==> r.message == AnalysisFailedMessage(symbol, fetched.message)
    ensures (fetched.Ok? && |fetched.value| < MinimumCandles)
              ==> r.message == AnalysisFailedMessage(symbol, InsufficientDataMessage(|fetched.value|))
    ensures fetched.Ok? && MinimumCandles <= |fetched.value| ==> r.message == AnalysisFailedMessage(symbol, EmaShortMessage)
  {
    AnalyzeMarketWith(symbol, fetched, CalculateMACD, sqrt)
  }

  /** `analyzeMarket` with the MACD signal line seeded from the MACD value itself. It succeeds
      exactly when at least 27 candles arrive (26 for the MACD of the series without its last
      price), and what it returns is a consistent analysis. */
  function AnalyzeMarketCorrected(symbol: string, fetched: Result<seq<Client.Candle>>, sqrt: Root): (r: Result<MarketAnalysis>)
    ensures r.Ok? <==> fetched.Ok? && 27 <= |fetched.value|
    ensures fetched.Ok? && MinimumCandles <= |fetched.value| < 27 ==> r == Err(AnalysisFailedMessage(symbol, EmaShortMessage))
    ensures r.Ok? ==> r.value.signal == DetermineSignal(r.value.score) && 0.0 <= r.value.score <= 100.0
    ensures r.Ok? ==> r.value.metadata.volatility.orderBookImbalance == 0.5
    ensures r.Ok? ==> Consistent(r.value)
  {
    AnalyzeMarketWith(symbol, fetched, CalculateMACDSeededSignal, sqrt)
  }
}
