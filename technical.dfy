/** The technical-indicator library: RSI, EMA, MACD, SMA, standard deviation, Bollinger bands,
    average volume and ATR over price and volume series, and the step functions that turn each
    indicator into a 0-100 score. Prices are exact reals. The three calculations that the
    library writes as loops (RSI, EMA, ATR) are methods proved equal to a reference function;
    the others are functions. */
module Technical {
  import opened Wrappers

  const RsiShortMessage := "Not enough data for RSI calculation"
  const EmaShortMessage := "Not enough data for EMA calculation"
  const SmaShortMessage := "Not enough data for SMA calculation"
  const AvgVolumeShortMessage := "Not enough data for average volume calculation"
  const AtrShortMessage := "Not enough data for ATR calculation"

  /** `Math.sqrt`, which the model does not compute: any function that maps non-negative
      reals to non-negative reals. */
  type Root = f: real -> real | forall x :: 0.0 <= x ==> 0.0 <= f(x)
    witness (x: real) => if x < 0.0 then 0.0 else x

  // ---------------------------------------------------------------------------
  // Helpers over reals and sequences of reals
  // ---------------------------------------------------------------------------

  function RealMax(a: real, b: real): real { if a >= b then a else b }
  function RealMin(a: real, b: real): real { if a <= b then a else b }
  function Abs(a: real): real { if a < 0.0 then -a else a }

  /** `reduce((a, b) => a + b, 0)`. */
  function Sum(s: seq<real>): real
  {
    if s == [] then 0.0 else s[0] + Sum(s[1..])
  }

  /** `Math.max(...s)` of a non-empty sequence. */
  function Max(s: seq<real>): (m: real)
    requires |s| > 0
    ensures m in s
    ensures forall i :: 0 <= i < |s| ==> s[i] <= m
  {
    if |s| == 1 then s[0] else RealMax(s[0], Max(s[1..]))
  }

  /** `Math.min(...s)` of a non-empty sequence. */
  function Min(s: seq<real>): (m: real)
    requires |s| > 0
    ensures m in s
    ensures forall i :: 0 <= i < |s| ==> m <= s[i]
  {
    if |s| == 1 then s[0] else RealMin(s[0], Min(s[1..]))
  }

  /** `s.slice(-n)` for n > 0: the last n elements, or all of s when it is shorter. */
  function Last(s: seq<real>, n: nat): (w: seq<real>)
    requires n > 0
    ensures |w| == if |s| < n then |s| else n
    ensures w == s[|s| - |w|..]
  {
    if |s| <= n then s else s[|s| - n..]
  }

  lemma {:induction false} SumWithin(s: seq<real>, lo: real, hi: real)
    requires forall i :: 0 <= i < |s| ==> lo <= s[i] <= hi
    ensures |s| as real * lo <= Sum(s) <= |s| as real * hi
  {
    if s != [] {
      SumWithin(s[1..], lo, hi);
    }
  }

  lemma {:induction false} SumNonNegative(s: seq<real>)
    requires forall i :: 0 <= i < |s| ==> 0.0 <= s[i]
    ensures 0.0 <= Sum(s)
  {
    if s != [] {
      SumNonNegative(s[1..]);
    }
  }

  lemma DivideNonNegative(x: real, n: real)
    requires 0.0 <= x && 0.0 < n
    ensures 0.0 <= x / n
  {
  }

  lemma ProductNonNegative(a: real, b: real)
    requires 0.0 <= a && 0.0 <= b
    ensures 0.0 <= a * b
  {
  }

  lemma ProductPositive(a: real, b: real)
    requires 0.0 < a && 0.0 < b
    ensures 0.0 < a * b
  {
  }

  lemma MultiplyMonotone(k: real, a: real, b: real)
    requires 0.0 <= k && a <= b
    ensures k * a <= k * b
  {
    assert k * b - k * a == k * (b - a);
  }

  lemma DivideWithin(x: real, n: real, lo: real, hi: real)
    requires n > 0.0 && n * lo <= x <= n * hi
    ensures lo <= x / n <= hi
  {
    assert x / n - lo == (x - n * lo) / n;
    assert hi - x / n == (n * hi - x) / n;
    DivideNonNegative(x - n * lo, n);
    DivideNonNegative(n * hi - x, n);
  }

  /** For a positive divisor, `x / w` is below `c` exactly when `x` is below `c * w`. */
  lemma BelowThreshold(x: real, w: real, c: real)
    ensures w > 0.0 ==> (x / w < c <==> x < c * w)
  {
    if w > 0.0 {
      var q := x / w;
      assert c * w - x == (c - q) * w;
      if q < c {
        ProductPositive(c - q, w);
      } else {
        ProductNonNegative(q - c, w);
      }
    }
  }

  lemma DivideMonotone(a: real, b: real, n: real)
    requires a <= b && n > 0.0
    ensures a / n <= b / n
  {
    assert b / n - a / n == (b - a) / n;
    DivideNonNegative(b - a, n);
  }

  /** The mean `sum / n` of a non-empty window; it lies between the window's extremes. */
  function Mean(w: seq<real>): (m: real)
    requires |w| > 0
    ensures Min(w) <= m <= Max(w)
  {
    MeanWithin(w);
    Sum(w) / |w| as real
  }

  lemma {:induction false} MeanWithin(w: seq<real>)
    requires |w| > 0
    ensures Min(w) <= Sum(w) / |w| as real <= Max(w)
  {
    var lo, hi, n := Min(w), Max(w), |w| as real;
    SumWithin(w, lo, hi);
    DivideWithin(Sum(w), n, lo, hi);
  }

  /** The mean of the last `n` values. */
  function WindowMean(s: seq<real>, n: nat): (m: real)
    requires 0 < n <= |s|
    ensures m == Sum(s[|s| - n..]) / n as real
    ensures Min(s[|s| - n..]) <= m <= Max(s[|s| - n..])
  {
    var w := s[|s| - n..];
    assert |w| == n;
    Mean(w)
  }

  // ---------------------------------------------------------------------------
  // RSI (Wilder smoothing)
  // ---------------------------------------------------------------------------

  /** `prices[i] - prices[i - 1]` for i = 1 .. |prices| - 1. */
  function Changes(prices: seq<real>): (c: seq<real>)
    requires |prices| > 0
    ensures |c| == |prices| - 1
  {
    seq(|prices| - 1, i requires 0 <= i < |prices| - 1 => prices[i + 1] - prices[i])
  }

  function Gains(changes: seq<real>): (g: seq<real>)
    ensures |g| == |changes|
    ensures forall i :: 0 <= i < |g| ==> 0.0 <= g[i]
  {
    seq(|changes|, i requires 0 <= i < |changes| => if changes[i] > 0.0 then changes[i] else 0.0)
  }

  function Losses(changes: seq<real>): (l: seq<real>)
    ensures |l| == |changes|
    ensures forall i :: 0 <= i < |l| ==> 0.0 <= l[i]
  {
    seq(|changes|, i requires 0 <= i < |changes| => if changes[i] < 0.0 then -changes[i] else 0.0)
  }

  /** One smoothing step: the previous average weighted `period - 1` against the new sample. */
  function WilderStep(avg: real, x: real, period: nat): (r: real)
    requires period > 0
    ensures 0.0 <= avg && 0.0 <= x ==> 0.0 <= r
    ensures avg == 0.0 && x == 0.0 ==> r == 0.0
  {
    if 0.0 <= avg && 0.0 <= x then
      MultiplyMonotone(avg, 0.0, (period - 1) as real);
      DivideNonNegative(avg * (period - 1) as real + x, period as real);
      (avg * (period - 1) as real + x) / period as real
    else
      (avg * (period - 1) as real + x) / period as real
  }

  /** Wilder's smoothing of `avg` over the samples `xs`, one step per sample. */
  function WilderSmooth(avg: real, xs: seq<real>, period: nat): real
    requires period > 0
    decreases |xs|
  {
    if xs == [] then avg
    else WilderSmooth(WilderStep(avg, xs[0], period), xs[1..], period)
  }

  lemma WilderSmoothStep(avg: real, xs: seq<real>, period: nat)
    requires period > 0 && xs != []
    ensures WilderSmooth(avg, xs, period)
         == WilderSmooth(WilderStep(avg, xs[0], period), xs[1..], period)
  {
  }

  /** The simple average of the first `period` samples, Wilder-smoothed over the rest. */
  function SmoothedAverage(xs: seq<real>, period: nat): real
    requires 0 < period <= |xs|
  {
    WilderSmooth(Sum(xs[..period]) / period as real, xs[period..], period)
  }

  lemma {:induction false} WilderSmoothNonNegative(avg: real, xs: seq<real>, period: nat)
    requires period > 0 && 0.0 <= avg
    requires forall i :: 0 <= i < |xs| ==> 0.0 <= xs[i]
    ensures 0.0 <= WilderSmooth(avg, xs, period)
    decreases |xs|
  {
    if xs != [] {
      WilderSmoothNonNegative(WilderStep(avg, xs[0], period), xs[1..], period);
    }
  }

  lemma SmoothedAverageNonNegative(xs: seq<real>, period: nat)
    requires 0 < period <= |xs|
    requires forall i :: 0 <= i < |xs| ==> 0.0 <= xs[i]
    ensures 0.0 <= SmoothedAverage(xs, period)
  {
    SumNonNegative(xs[..period]);
    DivideNonNegative(Sum(xs[..period]), period as real);
    WilderSmoothNonNegative(Sum(xs[..period]) / period as real, xs[period..], period);
  }

  lemma {:induction false} WilderSmoothOfZeros(xs: seq<real>, period: nat)
    requires period > 0
    requires forall i :: 0 <= i < |xs| ==> xs[i] == 0.0
    ensures WilderSmooth(0.0, xs, period) == 0.0
    decreases |xs|
  {
    if xs != [] {
      WilderSmoothOfZeros(xs[1..], period);
    }
  }

  lemma {:induction false} SumOfZeros(s: seq<real>)
    requires forall i :: 0 <= i < |s| ==> s[i] == 0.0
    ensures Sum(s) == 0.0
  {
    if s != [] {
      SumOfZeros(s[1..]);
    }
  }

  /** `100 - 100 / (1 + avgGain / avgLoss)`, and 100 when there was no loss; it lies in [0, 100]. */
  function RsiOf(avgGain: real, avgLoss: real): (rsi: real)
    requires 0.0 <= avgGain && 0.0 <= avgLoss
    ensures 0.0 <= rsi <= 100.0
  {
    if avgLoss == 0.0 then 100.0
    else
      DivideNonNegative(avgGain, avgLoss);
      DivideWithin(100.0, 1.0 + avgGain / avgLoss, 0.0, 100.0);
      100.0 - 100.0 / (1.0 + avgGain / avgLoss)
  }

  /** The reference definition of `calculateRSI`: it fails exactly when there are not
      `period + 1` prices, and otherwise lies in [0, 100], because gains and losses are never
      negative and smoothing keeps them so. */
  function Rsi(prices: seq<real>, period: nat): (r: Result<real>)
    requires period > 0
    ensures r.Err? <==> |prices| < period + 1
    ensures r.Err? ==> r.message == RsiShortMessage
    ensures r.Ok? ==> 0.0 <= r.value <= 100.0
  {
    if |prices| < period + 1 then Err(RsiShortMessage)
    else
      var changes := Changes(prices);
      var gains := Gains(changes);
      var losses := Losses(changes);
      SmoothedAverageNonNegative(gains, period);
      SmoothedAverageNonNegative(losses, period);
      Ok(RsiOf(SmoothedAverage(gains, period), SmoothedAverage(losses, period)))
  }

  /** A series that never falls has no losses, so its RSI is exactly 100. */
  lemma RsiOfNonFallingSeries(prices: seq<real>, period: nat)
    requires period > 0 && |prices| >= period + 1
    requires forall i :: 0 < i < |prices| ==> prices[i - 1] <= prices[i]
    ensures Rsi(prices, period) == Ok(100.0)
  {
    var losses := Losses(Changes(prices));
    forall i | 0 <= i < |losses|
      ensures losses[i] == 0.0
    {
      assert prices[i] <= prices[i + 1];
    }
    SumOfZeros(losses[..period]);
    WilderSmoothOfZeros(losses[period..], period);
  }

  /** A series that never rises has no gains, so its RSI is 0 as soon as it has lost anything. */
  lemma RsiOfNonRisingSeries(prices: seq<real>, period: nat)
    requires period > 0 && |prices| >= period + 1
    requires forall i :: 0 < i < |prices| ==> prices[i] <= prices[i - 1]
    requires Rsi(prices, period).Ok? && SmoothedAverage(Losses(Changes(prices)), period) != 0.0
    ensures Rsi(prices, period) == Ok(0.0)
  {
    NoGainsInNonRisingSeries(prices, period);
    RsiUnfold(prices, period);
  }

  lemma NoGainsInNonRisingSeries(prices: seq<real>, period: nat)
    requires period > 0 && |prices| >= period + 1
    requires forall i :: 0 < i < |prices| ==> prices[i] <= prices[i - 1]
    ensures SmoothedAverage(Gains(Changes(prices)), period) == 0.0
  {
    var gains := Gains(Changes(prices));
    forall i | 0 <= i < |gains|
      ensures gains[i] == 0.0
    {
      assert prices[i + 1] <= prices[i];
    }
    SumOfZeros(gains[..period]);
    WilderSmoothOfZeros(gains[period..], period);
  }

  lemma RsiUnfold(prices: seq<real>, period: nat)
    requires period > 0 && |prices| >= period + 1
    ensures 0.0 <= SmoothedAverage(Gains(Changes(prices)), period)
    ensures 0.0 <= SmoothedAverage(Losses(Changes(prices)), period)
    ensures Rsi(prices, period)
         == Ok(RsiOf(SmoothedAverage(Gains(Changes(prices)), period), SmoothedAverage(Losses(Changes(prices)), period)))
  {
    SmoothedAverageNonNegative(Gains(Changes(prices)), period);
    SmoothedAverageNonNegative(Losses(Changes(prices)), period);
  }

  /** The first loop of `calculateRSI`: the list of price changes. */
  method PriceChanges(prices: seq<real>) returns (changes: seq<real>)
    requires |prices| > 0
    ensures changes == Changes(prices)
  {
    changes := [];
    var i := 1;
    while i < |prices|
      invariant 1 <= i <= |prices|
      invariant |changes| == i - 1
      invariant forall k :: 0 <= k < i - 1 ==> changes[k] == prices[k + 1] - prices[k]
    {
      changes := changes + [prices[i] - prices[i - 1]];
      i := i + 1;
    }
  }

  /** `calculateRSI`: the change list is built by one loop and the two averages are smoothed
      together in another, as the library does. */
  method CalculateRSI(prices: seq<real>, period: nat) returns (r: Result<real>)
    requires period > 0
    ensures r == Rsi(prices, period)
    ensures r.Err? <==> |prices| < period + 1
    ensures r.Ok? ==> 0.0 <= r.value <= 100.0
  {
    if |prices| < period + 1 {
      return Err(RsiShortMessage);
    }
    var changes := PriceChanges(prices);
    var gains := Gains(changes);
    var losses := Losses(changes);
    var avgGain, avgLoss := SmoothAverages(gains, losses, period);
    RsiUnfold(prices, period);
    if avgLoss == 0.0 {
      return Ok(100.0);
    }
    var rs := avgGain / avgLoss;
    return Ok(100.0 - 100.0 / (1.0 + rs));
  }

  /** The seed averages and the Wilder-smoothing loop of `calculateRSI`, over gains and losses
      of the same length. */
  method SmoothAverages(gains: seq<real>, losses: seq<real>, period: nat) returns (avgGain: real, avgLoss: real)
    requires 0 < period <= |gains| == |losses|
    ensures avgGain == SmoothedAverage(gains, period) && avgLoss == SmoothedAverage(losses, period)
  {
    var p := period as real;
    avgGain := Sum(gains[..period]) / p;
    avgLoss := Sum(losses[..period]) / p;
    var i := period;
    while i < |gains|
      invariant period <= i <= |gains|
      invariant WilderSmooth(avgGain, gains[i..], period) == SmoothedAverage(gains, period)
      invariant WilderSmooth(avgLoss, losses[i..], period) == SmoothedAverage(losses, period)
    {
      assert gains[i..][1..] == gains[i + 1..];
      assert losses[i..][1..] == losses[i + 1..];
      WilderSmoothStep(avgGain, gains[i..], period);
      WilderSmoothStep(avgLoss, losses[i..], period);
      avgGain := WilderStep(avgGain, gains[i], period);
      avgLoss := WilderStep(avgLoss, losses[i], period);
      i := i + 1;
    }
    assert gains[i..] == [] && losses[i..] == [];
  }

  /** `scoreRSI`: oversold scores high, overbought scores low. */
  function ScoreRSI(rsi: real): (r: real)
    ensures 0.0 <= r <= 100.0
    ensures r == 100.0 <==> rsi < 30.0
    ensures r == 70.0 <==> 30.0 <= rsi < 40.0
    ensures r == 50.0 <==> 40.0 <= rsi < 60.0
    ensures r == 30.0 <==> 60.0 <= rsi < 70.0
    ensures r == 0.0 <==> 70.0 <= rsi
  {
    if rsi < 30.0 then 100.0
    else if rsi < 40.0 then 70.0
    else if rsi < 60.0 then 50.0
    else if rsi < 70.0 then 30.0
    else 0.0
  }

  lemma ScoreRSINonIncreasing(a: real, b: real)
    requires a <= b
    ensures ScoreRSI(b) <= ScoreRSI(a)
  {
  }

  // ---------------------------------------------------------------------------
  // EMA and MACD
  // ---------------------------------------------------------------------------

  /** The EMA multiplier `2 / (period + 1)`. */
  function SmoothingFactor(period: nat): (k: real)
    requires period > 0
    ensures 0.0 < k <= 1.0
  {
    DivideWithin(2.0, (period + 1) as real, 0.0, 1.0);
    2.0 / (period + 1) as real
  }

  /** The running EMA started at `seed` and updated once per sample of `xs`. */
  function EmaFrom(seed: real, xs: seq<real>, k: real): real
    decreases |xs|
  {
    if xs == [] then seed else EmaFrom((xs[0] - seed) * k + seed, xs[1..], k)
  }

  /** The EMA loop without its length check: seeded with the first sample. */
  function SeededEma(prices: seq<real>, period: nat): real
    requires period > 0 && |prices| > 0
  {
    EmaFrom(prices[0], prices[1..], SmoothingFactor(period))
  }

  /** The reference definition of `calculateEMA`. */
  function Ema(prices: seq<real>, period: nat): Result<real>
    requires period > 0
  {
    if |prices| < period then Err(EmaShortMessage) else Ok(SeededEma(prices, period))
  }

  /** One EMA step is a convex combination of the previous value and the new sample. */
  lemma EmaStepWithin(seed: real, x: real, k: real, lo: real, hi: real)
    requires 0.0 < k <= 1.0 && lo <= seed <= hi && lo <= x <= hi
    ensures lo <= (x - seed) * k + seed <= hi
  {
    var next := (x - seed) * k + seed;
    assert next - lo == k * (x - lo) + (1.0 - k) * (seed - lo);
    assert hi - next == k * (hi - x) + (1.0 - k) * (hi - seed);
    ProductNonNegative(k, x - lo);
    ProductNonNegative(k, hi - x);
    ProductNonNegative(1.0 - k, seed - lo);
    ProductNonNegative(1.0 - k, hi - seed);
  }

  lemma {:induction false} EmaFromWithin(seed: real, xs: seq<real>, k: real, lo: real, hi: real)
    requires 0.0 < k <= 1.0 && lo <= seed <= hi
    requires forall i :: 0 <= i < |xs| ==> lo <= xs[i] <= hi
    ensures lo <= EmaFrom(seed, xs, k) <= hi
    decreases |xs|
  {
    if xs != [] {
      EmaStepWithin(seed, xs[0], k, lo, hi);
      EmaFromWithin((xs[0] - seed) * k + seed, xs[1..], k, lo, hi);
    }
  }

  /** The EMA stays between the smallest and the largest price. */
  lemma EmaWithin(prices: seq<real>, period: nat)
    requires period > 0
    ensures Ema(prices, period).Ok? ==> Min(prices) <= Ema(prices, period).value <= Max(prices)
  {
    if |prices| >= period {
      EmaFromWithin(prices[0], prices[1..], SmoothingFactor(period), Min(prices), Max(prices));
    }
  }

  /** The EMA of a constant series is that constant. */
  lemma EmaOfConstant(prices: seq<real>, period: nat, c: real)
    requires period > 0 && |prices| >= period
    requires forall i :: 0 <= i < |prices| ==> prices[i] == c
    ensures Ema(prices, period) == Ok(c)
  {
    EmaFromWithin(prices[0], prices[1..], SmoothingFactor(period), c, c);
  }

  /** `calculateEMA`, with its running `ema` loop. */
  method CalculateEMA(prices: seq<real>, period: nat) returns (r: Result<real>)
    requires period > 0
    ensures r == Ema(prices, period)
    ensures r.Err? <==> |prices| < period
  {
    if |prices| < period {
      return Err(EmaShortMessage);
    }
    var multiplier := 2.0 / (period + 1) as real;
    var ema := prices[0];
    var i := 1;
    while i < |prices|
      invariant 1 <= i <= |prices|
      invariant EmaFrom(ema, prices[i..], multiplier) == EmaFrom(prices[0], prices[1..], multiplier)
    {
      assert prices[i..][1..] == prices[i + 1..];
      ema := (prices[i] - ema) * multiplier + ema;
      i := i + 1;
    }
    assert prices[i..] == [];
    return Ok(ema);
  }

  datatype Macd = Macd(macdLine: real, signal: real, histogram: real)

  /** `calculateMACD` as written: the signal line is the 9-period EMA of the one-element
      history `[macdLine]`, which the EMA's length check rejects, so it never returns. */
  function CalculateMACD(prices: seq<real>): (r: Result<Macd>)
    ensures r == Err(EmaShortMessage)
  {
    var ema12 :- Ema(prices, 12);
    var ema26 :- Ema(prices, 26);
    var macdLine := ema12 - ema26;
    var macdHistory := [macdLine];
    match Ema(macdHistory, 9)
    case Err(message) => Err(message)
    case Ok(signal) => Ok(Macd(macdLine, signal, macdLine - signal))
  }

  /** The signal line of `calculateMACD` can never be computed: a one-element history is
      shorter than the signal period. */
  lemma SignalLineRejected(macdLine: real)
    ensures Ema([macdLine], 9) == Err(EmaShortMessage)
  {
  }

  /** `calculateMACD` as its one-element signal history evidently intends: the seeded EMA of
      `[macdLine]`, without the length check, which is `macdLine` itself. */
  function CalculateMACDSeededSignal(prices: seq<real>): (r: Result<Macd>)
    ensures r.Err? <==> |prices| < 26
    ensures r.Err? ==> r.message == EmaShortMessage
    ensures r.Ok? ==> r.value.macdLine == Ema(prices, 12).value - Ema(prices, 26).value
    ensures r.Ok? ==> r.value.signal == r.value.macdLine && r.value.histogram == 0.0
  {
    var ema12 :- Ema(prices, 12);
    var ema26 :- Ema(prices, 26);
    var macdLine := ema12 - ema26;
    var signal := SeededEma([macdLine], 9);
    Ok(Macd(macdLine, signal, macdLine - signal))
  }

  predicate GoldenCross(macd: Macd, prev: Macd)
  {
    macd.macdLine > macd.signal && prev.macdLine <= prev.signal
  }

  predicate DeadCross(macd: Macd, prev: Macd)
  {
    macd.macdLine < macd.signal && prev.macdLine >= prev.signal
  }

  /** `scoreMACD`: 100 on a golden cross, 0 on a dead cross, otherwise 50 moved by up to 30
      points in the direction of the histogram. */
  function ScoreMACD(macd: Macd, prev: Macd): (r: real)
    ensures 0.0 <= r <= 100.0
    ensures GoldenCross(macd, prev) ==> r == 100.0
    ensures DeadCross(macd, prev) ==> r == 0.0
    ensures !GoldenCross(macd, prev) && !DeadCross(macd, prev) && macd.histogram > 0.0 ==> 50.0 < r <= 80.0
    ensures !GoldenCross(macd, prev) && !DeadCross(macd, prev) && macd.histogram <= 0.0 ==> 20.0 <= r <= 50.0
  {
    if GoldenCross(macd, prev) then 100.0
    else if DeadCross(macd, prev) then 0.0
    else if macd.histogram > 0.0 then 50.0 + RealMin(macd.histogram / 1000.0, 1.0) * 30.0
    else 50.0 - RealMin(Abs(macd.histogram) / 1000.0, 1.0) * 30.0
  }

  // ---------------------------------------------------------------------------
  // SMA, standard deviation, Bollinger bands
  // ---------------------------------------------------------------------------

  /** `calculateSMA`: the mean of the last `period` prices. */
  function CalculateSMA(prices: seq<real>, period: nat): (r: Result<real>)
    requires period > 0
    ensures r.Err? <==> |prices| < period
    ensures r.Err? ==> r.message == SmaShortMessage
    ensures r.Ok? ==> r.value == Sum(prices[|prices| - period..]) / period as real
    ensures r.Ok? ==> Min(prices[|prices| - period..]) <= r.value <= Max(prices[|prices| - period..])
  {
    if |prices| < period then Err(SmaShortMessage)
    else
      Ok(WindowMean(prices, period))
  }

  function Square(d: real): (s: real)
    ensures 0.0 <= s
  {
    d * d
  }

  /** The squares `(p - mean)^2` of a window. */
  function SquaredDiffs(w: seq<real>, mean: real): (d: seq<real>)
    ensures |d| == |w|
    ensures forall i :: 0 <= i < |d| ==> 0.0 <= d[i]
  {
    seq(|w|, i requires 0 <= i < |w| => Square(w[i] - mean))
  }

  /** The total squared distance of the values of `w` from `m`. */
  function SquaredDeviation(w: seq<real>, m: real): (d: real)
    ensures 0.0 <= d
  {
    if w == [] then 0.0 else Square(w[0] - m) + SquaredDeviation(w[1..], m)
  }

  /** The population variance of a non-empty window: the mean squared distance from its mean. */
  function Variance(w: seq<real>): (v: real)
    requires |w| > 0
    ensures 0.0 <= v
  {
    DivideNonNegative(SquaredDeviation(w, Mean(w)), |w| as real);
    SquaredDeviation(w, Mean(w)) / |w| as real
  }

  lemma {:induction false} SumOfSquaredDiffs(w: seq<real>, m: real)
    ensures Sum(SquaredDiffs(w, m)) == SquaredDeviation(w, m)
  {
    if w != [] {
      assert SquaredDiffs(w, m)[1..] == SquaredDiffs(w[1..], m);
      SumOfSquaredDiffs(w[1..], m);
    }
  }

  lemma {:induction false} SquaredDeviationOfConstant(w: seq<real>, c: real)
    requires forall i :: 0 <= i < |w| ==> w[i] == c
    ensures SquaredDeviation(w, c) == 0.0
  {
    if w != [] {
      SquaredDeviationOfConstant(w[1..], c);
    }
  }

  /** A constant window does not deviate: its variance is 0. */
  lemma {:induction false} VarianceOfConstant(w: seq<real>, c: real)
    requires |w| > 0 && forall i :: 0 <= i < |w| ==> w[i] == c
    ensures Variance(w) == 0.0
  {
    SumWithin(w, c, c);
    assert Mean(w) == c;
    SquaredDeviationOfConstant(w, c);
  }

  /** `w` with `d` added to every value. */
  function Shift(w: seq<real>, d: real): (v: seq<real>)
    ensures |v| == |w|
    ensures forall i :: 0 <= i < |w| ==> v[i] == w[i] + d
  {
    seq(|w|, i requires 0 <= i < |w| => w[i] + d)
  }

  lemma {:induction false} SumOfShift(w: seq<real>, d: real)
    ensures Sum(Shift(w, d)) == Sum(w) + |w| as real * d
  {
    if w != [] {
      assert Shift(w, d)[1..] == Shift(w[1..], d);
      SumOfShift(w[1..], d);
    }
  }

  lemma {:induction false} SquaredDeviationOfShift(w: seq<real>, m: real, d: real)
    ensures SquaredDeviation(Shift(w, d), m + d) == SquaredDeviation(w, m)
  {
    if w != [] {
      assert Shift(w, d)[1..] == Shift(w[1..], d);
      SquaredDeviationOfShift(w[1..], m, d);
    }
  }

  lemma DivideShift(a: real, n: real, d: real)
    requires n > 0.0
    ensures (a + n * d) / n == a / n + d
  {
  }

  lemma {:induction false} MeanOfShift(w: seq<real>, d: real)
    requires |w| > 0
    ensures Mean(Shift(w, d)) == Mean(w) + d
  {
    var n := |w| as real;
    calc {
      Mean(Shift(w, d));
      Sum(Shift(w, d)) / n;
      { SumOfShift(w, d); }
      (Sum(w) + n * d) / n;
      { DivideShift(Sum(w), n, d); }
      Sum(w) / n + d;
    }
  }

  /** Moving every price by the same amount moves the mean with it and leaves the variance,
      hence the standard deviation, unchanged. */
  lemma {:induction false} VarianceOfShift(w: seq<real>, d: real)
    requires |w| > 0
    ensures Mean(Shift(w, d)) == Mean(w) + d
    ensures Variance(Shift(w, d)) == Variance(w)
  {
    MeanOfShift(w, d);
    SquaredDeviationOfShift(w, Mean(w), d);
  }

  /** `calculateStdDev`: the root of the mean squared distance of the last `period` prices
      from their SMA, i.e. the root of the window's variance. */
  function CalculateStdDev(prices: seq<real>, period: nat, sqrt: Root): (r: Result<real>)
    requires period > 0
    ensures r.Err? <==> |prices| < period
    ensures r.Err? ==> r.message == SmaShortMessage
    ensures r.Ok? ==> r.value == sqrt(Variance(prices[|prices| - period..]))
    ensures r.Ok? ==> 0.0 <= r.value
  {
    var sma :- CalculateSMA(prices, period);
    var w := Last(prices, period);
    var squaredDiffs := SquaredDiffs(w, sma);
    var variance := Sum(squaredDiffs) / period as real;
    assert variance == Variance(w) by {
      assert sma == Mean(w);
      SumOfSquaredDiffs(w, sma);
    }
    Ok(sqrt(variance))
  }

  datatype BollingerBands = BollingerBands(upper: real, middle: real, lower: real)

  /** `calculateBollingerBands`: the SMA, and the SMA plus and minus `multiplier` standard
      deviations. */
  function CalculateBollingerBands(prices: seq<real>, period: nat, multiplier: real, sqrt: Root): (r: Result<BollingerBands>)
    requires period > 0
    ensures r.Err? <==> |prices| < period
    ensures r.Ok? ==> r.value.middle == CalculateSMA(prices, period).value
    ensures r.Ok? ==> r.value == Bands(r.value.middle, multiplier, CalculateStdDev(prices, period, sqrt).value)
    ensures r.Ok? ==> r.value.upper - r.value.middle == r.value.middle - r.value.lower
    ensures r.Ok? && 0.0 <= multiplier ==> r.value.lower <= r.value.middle <= r.value.upper
  {
    var sma :- CalculateSMA(prices, period);
    // the standard deviation cannot fail once the SMA of the same window has succeeded
    var stdDev := CalculateStdDev(prices, period, sqrt).value;
    Ok(Bands(sma, multiplier, stdDev))
  }

  /** The bands `multiplier` deviations either side of `middle`. */
  function Bands(middle: real, multiplier: real, stdDev: real): (b: BollingerBands)
    ensures b.middle == middle
    ensures b.upper == middle + multiplier * stdDev && b.lower == middle - multiplier * stdDev
    ensures 0.0 <= multiplier && 0.0 <= stdDev ==> b.lower <= b.middle <= b.upper
  {
    var width := multiplier * stdDev;
    assert 0.0 <= multiplier && 0.0 <= stdDev ==> 0.0 <= width by {
      if 0.0 <= multiplier && 0.0 <= stdDev {
        ProductNonNegative(multiplier, stdDev);
      }
    }
    BollingerBands(middle + width, middle, middle - width)
  }

  /** `scoreBollinger`: the closer the price is to the lower band, the higher the score. With
      zero band width the position is an IEEE division by zero: -Infinity below the band
      (100), +Infinity above it and NaN on it (both 0). */
  function ScoreBollinger(price: real, bands: BollingerBands): (r: real)
    ensures 0.0 <= r <= 100.0
    ensures r in {0.0, 30.0, 50.0, 70.0, 100.0}
    ensures var x, w := price - bands.lower, bands.upper - bands.lower;
      w > 0.0 ==>
        && (r == 100.0 <==> x < 0.2 * w)
        && (r == 70.0 <==> 0.2 * w <= x < 0.4 * w)
        && (r == 50.0 <==> 0.4 * w <= x < 0.6 * w)
        && (r == 30.0 <==> 0.6 * w <= x < 0.8 * w)
        && (r == 0.0 <==> 0.8 * w <= x)
    ensures bands.upper == bands.lower ==> (r == 100.0 <==> price < bands.lower) && (r == 0.0 <==> bands.lower <= price)
  {
    var bandWidth := bands.upper - bands.lower;
    if bandWidth == 0.0 then
      if price < bands.lower then 100.0 else 0.0
    else
      var position := (price - bands.lower) / bandWidth;
      BelowThreshold(price - bands.lower, bandWidth, 0.2);
      BelowThreshold(price - bands.lower, bandWidth, 0.4);
      BelowThreshold(price - bands.lower, bandWidth, 0.6);
      BelowThreshold(price - bands.lower, bandWidth, 0.8);
      if position < 0.2 then 100.0
      else if position < 0.4 then 70.0
      else if position < 0.6 then 50.0
      else if position < 0.8 then 30.0
      else 0.0
  }

  lemma ScoreBollingerNonIncreasing(p: real, q: real, bands: BollingerBands)
    requires bands.upper > bands.lower && p <= q
    ensures ScoreBollinger(q, bands) <= ScoreBollinger(p, bands)
  {
    DivideMonotone(p - bands.lower, q - bands.lower, bands.upper - bands.lower);
  }

  // ---------------------------------------------------------------------------
  // Volume and ATR
  // ---------------------------------------------------------------------------

  /** `calculateAvgVolume`: the mean of the last `period` volumes. */
  function CalculateAvgVolume(volumes: seq<real>, period: nat): (r: Result<real>)
    requires period > 0
    ensures r.Err? <==> |volumes| < period
    ensures r.Err? ==> r.message == AvgVolumeShortMessage
    ensures r.Ok? ==> r.value == Sum(volumes[|volumes| - period..]) / period as real
    ensures r.Ok? ==> Min(volumes[|volumes| - period..]) <= r.value <= Max(volumes[|volumes| - period..])
  {
    if |volumes| < period then Err(AvgVolumeShortMessage)
    else
      Ok(WindowMean(volumes, period))
  }

  /** `scoreVolume`: tiers of `currentVolume / avgVolume`. With a zero average the ratio is an
      IEEE division by zero: +Infinity (100) for a positive volume, NaN or -Infinity (20)
      otherwise. */
  function ScoreVolume(currentVolume: real, avgVolume: real): (r: real)
    ensures 0.0 <= r <= 100.0
    ensures r in {20.0, 40.0, 50.0, 60.0, 80.0, 100.0}
    ensures var v, a := currentVolume, avgVolume;
      a > 0.0 ==>
        && (r == 100.0 <==> 3.0 * a <= v)
        && (r == 80.0 <==> 2.0 * a <= v < 3.0 * a)
        && (r == 60.0 <==> 1.5 * a <= v < 2.0 * a)
        && (r == 50.0 <==> 1.2 * a <= v < 1.5 * a)
        && (r == 40.0 <==> a <= v < 1.2 * a)
        && (r == 20.0 <==> v < a)
    ensures avgVolume == 0.0 ==> (r == 100.0 <==> currentVolume > 0.0) && (r == 20.0 <==> currentVolume <= 0.0)
  {
    if avgVolume == 0.0 then
      if currentVolume > 0.0 then 100.0 else 20.0
    else
      var ratio := currentVolume / avgVolume;
      BelowThreshold(currentVolume, avgVolume, 3.0);
      BelowThreshold(currentVolume, avgVolume, 2.0);
      BelowThreshold(currentVolume, avgVolume, 1.5);
      BelowThreshold(currentVolume, avgVolume, 1.2);
      BelowThreshold(currentVolume, avgVolume, 1.0);
      if ratio >= 3.0 then 100.0
      else if ratio >= 2.0 then 80.0
      else if ratio >= 1.5 then 60.0
      else if ratio >= 1.2 then 50.0
      else if ratio >= 1.0 then 40.0
      else 20.0
  }

  lemma ScoreVolumeNonDecreasing(current1: real, current2: real, avgVolume: real)
    requires avgVolume > 0.0 && current1 <= current2
    ensures ScoreVolume(current1, avgVolume) <= ScoreVolume(current2, avgVolume)
  {
    DivideMonotone(current1, current2, avgVolume);
  }

  /** The close-to-close true range `max(a, b) - min(a, b)`. */
  function TrueRange(a: real, b: real): (tr: real)
    ensures 0.0 <= tr && (tr == a - b || tr == b - a)
  {
    RealMax(a, b) - RealMin(a, b)
  }

  function TrueRanges(prices: seq<real>): (trs: seq<real>)
    requires |prices| > 0
    ensures |trs| == |prices| - 1
  {
    seq(|prices| - 1, i requires 0 <= i < |prices| - 1 => TrueRange(prices[i + 1], prices[i]))
  }

  /** The reference definition of `calculateATR`: the SMA of the true ranges. */
  function Atr(prices: seq<real>, period: nat): Result<real>
    requires period > 0
  {
    if |prices| < period + 1 then Err(AtrShortMessage) else CalculateSMA(TrueRanges(prices), period)
  }

  /** The ATR fails exactly on short series, and is never negative. */
  lemma AtrNonNegative(prices: seq<real>, period: nat)
    requires period > 0
    ensures Atr(prices, period).Err? <==> |prices| < period + 1
    ensures Atr(prices, period).Ok? ==> 0.0 <= Atr(prices, period).value
  {
    if |prices| >= period + 1 {
      var trs := TrueRanges(prices);
      var w := trs[|trs| - period..];
      assert Min(w) in w;
    }
  }

  /** `calculateATR`, with its loop pushing true ranges. */
  method CalculateATR(prices: seq<real>, period: nat) returns (r: Result<real>)
    requires period > 0
    ensures r == Atr(prices, period)
    ensures r.Err? <==> |prices| < period + 1
    ensures r.Ok? ==> 0.0 <= r.value
  {
    if |prices| < period + 1 {
      return Err(AtrShortMessage);
    }
    var trueRanges: seq<real> := [];
    var i := 1;
    while i < |prices|
      invariant 1 <= i <= |prices|
      invariant |trueRanges| == i - 1
      invariant forall k :: 0 <= k < i - 1 ==> trueRanges[k] == TrueRange(prices[k + 1], prices[k])
    {
      var high := RealMax(prices[i], prices[i - 1]);
      var low := RealMin(prices[i], prices[i - 1]);
      trueRanges := trueRanges + [high - low];
      i := i + 1;
    }
    assert trueRanges == TrueRanges(prices);
    AtrNonNegative(prices, period);
    r := CalculateSMA(trueRanges, period);
  }
}
