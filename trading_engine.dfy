/** The automatic trading engine: a start/stop state machine holding at most one position,
    whose tick either manages the open position (take-profit, signal or confidence exit) or
    scans the liquid tickers for the best buy. Everything the engine fetches in one tick (the
    ticker list, a ticker, the analyses, the live balance, the outcome of a live order, the
    clock) arrives in an `Exchange` value; emitted events are appended to `events`. */
module Trading {
  import opened Wrappers
  import opened Technical
  import Client
  import MultiLayer

  datatype Mode = Live | Simulation

  datatype TradingConfig = TradingConfig(
    mode: Mode, investmentPercentage: real, profitTarget: real, minVolumeKrw: real, enabled: bool)

  /** A `Partial<TradingConfig>`: `None` for an absent key. */
  datatype ConfigPatch = ConfigPatch(
    mode: Option<Mode>, investmentPercentage: Option<real>, profitTarget: Option<real>,
    minVolumeKrw: Option<real>, enabled: Option<bool>)

  /** Why an order was placed; the source renders these as Korean text. */
  datatype Reason = TakeProfit(profitPct: real) | StopLoss(score: real) | AutoBuy(score: real) | Emergency

  datatype Order = Order(symbol: string, side: Client.Side, orderType: Client.OrderType, quantity: real,
                         price: Option<real>, reason: Reason)

  /** A snapshot of a position; `openedAt` is epoch milliseconds. */
  datatype PositionView = PositionView(
    symbol: string, entryPrice: real, quantity: real, currentPrice: real,
    profitLoss: real, profitLossPct: real, openedAt: real)

  datatype EngineEvent =
    | Started
    | Stopped
    | PositionUpdate(position: PositionView)
    | PositionClosed(symbol: string, profit: real)
    | PositionOpened(symbol: string, score: real)
    | OrderFilled(symbol: string, side: Client.Side, quantity: real, price: Option<real>, reason: Reason)
    | OrderFailed(message: string)
    | NoOpportunity
    | ConfidenceExit(symbol: string, sentimentConfidence: real)
    | ConfigUpdated(config: TradingConfig)
    | EmergencyStopped

  /** What the engine observes during one tick. */
  datatype Exchange = Exchange(
    allTickers: Result<seq<Client.Ticker>>,
    ticker: string -> Result<Client.Ticker>,
    analyze: string -> Result<MultiLayer.MarketAnalysis>,
    liveBalance: Result<real>,
    orderOutcome: Outcome,
    now: real)

  /** The engine's fields as a value. */
  datatype EngineState = EngineState(
    isRunning: bool, loopActive: bool, position: Option<PositionView>, config: TradingConfig, events: seq<EngineEvent>)

  /** One analysed ticker of `findBuyOpportunity`. */
  datatype Candidate = Candidate(
    symbol: string, price: real, analysis: MultiLayer.MarketAnalysis, confidenceOk: bool, shouldTrade: bool)

  const SimulationBalance: real := 10000000.0

  // ---------------------------------------------------------------------------
  // Specification functions
  // ---------------------------------------------------------------------------

  predicate ValidState(s: EngineState)
  {
    s.isRunning == s.loopActive && (s.position.Some? ==> s.position.value.entryPrice > 0.0)
  }

  function StartSpec(s: EngineState): EngineState
  {
    if s.isRunning then s else s.(isRunning := true, loopActive := true, events := s.events + [Started])
  }

  function StopSpec(s: EngineState): EngineState
  {
    s.(isRunning := false, loopActive := false, events := s.events + [Stopped])
  }

  /** `{ ...config, ...patch }`. */
  function Merge(config: TradingConfig, patch: ConfigPatch): (merged: TradingConfig)
    ensures patch.enabled.Some? ==> merged.enabled == patch.enabled.value
    ensures patch.enabled.None? ==> merged.enabled == config.enabled
    ensures patch.profitTarget.Some? ==> merged.profitTarget == patch.profitTarget.value
    ensures patch.profitTarget.None? ==> merged.profitTarget == config.profitTarget
    ensures patch.mode.Some? ==> merged.mode == patch.mode.value
    ensures patch.mode.None? ==> merged.mode == config.mode
    ensures patch.investmentPercentage.Some? ==> merged.investmentPercentage == patch.investmentPercentage.value
    ensures patch.investmentPercentage.None? ==> merged.investmentPercentage == config.investmentPercentage
    ensures patch.minVolumeKrw.Some? ==> merged.minVolumeKrw == patch.minVolumeKrw.value
    ensures patch.minVolumeKrw.None? ==> merged.minVolumeKrw == config.minVolumeKrw
  {
    TradingConfig(
      if patch.mode.Some? then patch.mode.value else config.mode,
      if patch.investmentPercentage.Some? then patch.investmentPercentage.value else config.investmentPercentage,
      if patch.profitTarget.Some? then patch.profitTarget.value else config.profitTarget,
      if patch.minVolumeKrw.Some? then patch.minVolumeKrw.value else config.minVolumeKrw,
      if patch.enabled.Some? then patch.enabled.value else config.enabled)
  }

  function UpdateConfigSpec(s: EngineState, patch: ConfigPatch): EngineState
  {
    var config := Merge(s.config, patch);
    s.(config := config, events := s.events + [ConfigUpdated(config)])
  }

  /** The event `executeOrder` emits: a live order whose placement failed is reported as
      failed, and every other order as filled, without its order type. */
  function OrderEvent(config: TradingConfig, order: Order, outcome: Outcome): EngineEvent
  {
    if config.mode == Live && outcome.Fail? then OrderFailed(outcome.message)
    else OrderFilled(order.symbol, order.side, order.quantity, order.price, order.reason)
  }

  function SellAll(p: PositionView, reason: Reason): Order
  {
    Order(p.symbol, Client.Sell, Client.Market, p.quantity, None, reason)
  }

  /** The profit in percent of the entry price. */
  function ProfitPct(entryPrice: real, price: real): (pct: real)
    requires entryPrice > 0.0
    ensures pct * entryPrice == (price - entryPrice) * 100.0
  {
    (price - entryPrice) / entryPrice * 100.0
  }

  /** The position marked to a new price. */
  function Reprice(p: PositionView, price: real): (q: PositionView)
    requires p.entryPrice > 0.0
    ensures q.symbol == p.symbol && q.entryPrice == p.entryPrice && q.quantity == p.quantity && q.openedAt == p.openedAt
    ensures q.currentPrice == price
    ensures q.profitLoss == (price - p.entryPrice) * p.quantity
    ensures q.profitLossPct * p.entryPrice == (price - p.entryPrice) * 100.0
  {
    p.(currentPrice := price,
       profitLoss := (price - p.entryPrice) * p.quantity,
       profitLossPct := ProfitPct(p.entryPrice, price))
  }

  /** The exit rule of `managePosition` once the take-profit has not fired: a strong sell or a
      failed confidence gate. */
  predicate ExitSignal(a: MultiLayer.MarketAnalysis)
  {
    (a.signal == MultiLayer.Sell && a.score < 30.0)
    || !MultiLayer.ComputeConfidenceGate(a.metadata.sentiment, a.metadata.events)
  }

  /** `managePosition`: a failed ticker fetch changes nothing; otherwise the position is
      repriced and reported, then closed on take-profit, or on an exit signal when the
      analysis succeeds. */
  function ManageSpec(s: EngineState, ticker: Result<Client.Ticker>, analysis: Result<MultiLayer.MarketAnalysis>,
                      outcome: Outcome): EngineState
    requires s.position.Some? && s.position.value.entryPrice > 0.0
  {
    match ticker
    case Err(_) => s
    case Ok(t) =>
      var p := Reprice(s.position.value, t.price);
      var pct := p.profitLossPct;
      var updated := s.(position := Some(p), events := s.events + [PositionUpdate(p)]);
      if pct >= s.config.profitTarget then
        updated.(position := None,
                 events := updated.events + [OrderEvent(s.config, SellAll(p, TakeProfit(pct)), outcome), PositionClosed(p.symbol, pct)])
      else if analysis.Err? || !ExitSignal(analysis.value) then updated
      else
        var a := analysis.value;
        var confidenceOk := MultiLayer.ComputeConfidenceGate(a.metadata.sentiment, a.metadata.events);
        updated.(position := None,
                 events := updated.events + [OrderEvent(s.config, SellAll(p, StopLoss(a.score)), outcome), PositionClosed(p.symbol, pct)]
                           + (if confidenceOk then [] else [ConfidenceExit(p.symbol, a.metadata.sentiment.confidence)]))
  }

  function CandidateOf(ticker: Client.Ticker, analysis: MultiLayer.MarketAnalysis): (c: Candidate)
    ensures c.shouldTrade ==> c.confidenceOk && 70.0 <= c.analysis.score
  {
    var confidenceOk := MultiLayer.ComputeConfidenceGate(analysis.metadata.sentiment, analysis.metadata.events);
    Candidate(ticker.symbol, ticker.price, analysis, confidenceOk, MultiLayer.ShouldExecuteTrade(analysis.score, confidenceOk))
  }

  /** The `Promise.all` of `findBuyOpportunity`: every ticker analysed, or nothing if any
      analysis fails. */
  function Evaluate(tickers: seq<Client.Ticker>, analyze: string -> Result<MultiLayer.MarketAnalysis>): (r: Option<seq<Candidate>>)
    ensures r.Some? <==> forall i :: 0 <= i < |tickers| ==> analyze(tickers[i].symbol).Ok?
    ensures r.Some? ==> |r.value| == |tickers|
    ensures r.Some? ==> forall i :: 0 <= i < |tickers| ==> r.value[i] == CandidateOf(tickers[i], analyze(tickers[i].symbol).value)
  {
    if tickers == [] then Some([])
    else
      match analyze(tickers[0].symbol)
      case Err(_) => None
      case Ok(a) =>
        match Evaluate(tickers[1..], analyze)
        case None => None
        case Some(rest) =>
          assert forall i :: 0 < i < |tickers| ==> tickers[i] == tickers[1..][i - 1];
          Some([CandidateOf(tickers[0], a)] + rest)
  }

  predicate Qualifies(c: Candidate)
  {
    c.shouldTrade && c.analysis.signal == MultiLayer.Buy
  }

  /** The candidates that should trade on a buy signal, in input order. */
  function Qualifying(cs: seq<Candidate>): (q: seq<Candidate>)
    ensures forall c :: c in q <==> c in cs && Qualifies(c)
  {
    if cs == [] then []
    else (if Qualifies(cs[0]) then [cs[0]] else []) + Qualifying(cs[1..])
  }

  /** The head of the stable descending sort by score: the first candidate of maximal score. */
  function Best(q: seq<Candidate>): (b: Candidate)
    requires q != []
    ensures b in q
    ensures forall k :: 0 <= k < |q| ==> q[k].analysis.score <= b.analysis.score
  {
    if |q| == 1 then q[0]
    else
      var rest := Best(q[1..]);
      assert forall k :: 0 < k < |q| ==> q[k] == q[1..][k - 1];
      if q[0].analysis.score >= rest.analysis.score then q[0] else rest
  }

  /** Ties go to the earlier candidate, as in a stable sort: every candidate before the best
      one scores strictly less. */
  lemma {:induction false} BestIsEarliest(q: seq<Candidate>) returns (i: nat)
    requires q != []
    ensures i < |q| && q[i] == Best(q)
    ensures forall j :: 0 <= j < i ==> q[j].analysis.score < Best(q).analysis.score
  {
    if |q| == 1 || q[0].analysis.score >= Best(q[1..]).analysis.score {
      i := 0;
    } else {
      var tail := q[1..];
      var k := BestIsEarliest(tail);
      i := k + 1;
      assert forall j :: 0 < j <= k ==> q[j] == tail[j - 1];
    }
  }

  /** `getBalance`: the live balance, or ten million won in simulation. */
  function Balance(config: TradingConfig, liveBalance: Result<real>): (r: Result<real>)
    ensures config.mode == Simulation ==> r == Ok(SimulationBalance)
    ensures config.mode == Live ==> r == liveBalance
  {
    if config.mode == Live then liveBalance else Ok(SimulationBalance)
  }

  predicate PositivePrices(tickers: seq<Client.Ticker>)
  {
    forall i :: 0 <= i < |tickers| ==> tickers[i].price > 0.0
  }

  /** `findBuyOpportunity`: analyse every ticker; with no qualifying candidate report it;
      otherwise buy the best one with `investmentPercentage` percent of the balance and hold it
      as the position, whatever became of the order. A failed analysis or balance query
      changes nothing. */
  function ScanSpec(s: EngineState, tickers: seq<Client.Ticker>, exchange: Exchange): EngineState
    requires PositivePrices(tickers)
  {
    match Evaluate(tickers, exchange.analyze)
    case None => s
    case Some(candidates) =>
      var buySignals := Qualifying(candidates);
      if buySignals == [] then s.(events := s.events + [NoOpportunity])
      else
        var best := Best(buySignals);
        assert best.price > 0.0 by {
          assert best in candidates;
          var i :| 0 <= i < |candidates| && candidates[i] == best;
        }
        OpenBest(s, best, exchange)
  }

  /** With a qualifying candidate, the scan buys the best one, whose price is positive. */
  lemma ScanOpensBest(s: EngineState, tickers: seq<Client.Ticker>, exchange: Exchange, candidates: seq<Candidate>)
    requires PositivePrices(tickers) && Evaluate(tickers, exchange.analyze) == Some(candidates)
    requires Qualifying(candidates) != []
    ensures Best(Qualifying(candidates)).price > 0.0
    ensures ScanSpec(s, tickers, exchange) == OpenBest(s, Best(Qualifying(candidates)), exchange)
  {
    var best := Best(Qualifying(candidates));
    assert best in candidates;
    var i :| 0 <= i < |candidates| && candidates[i] == best;
  }

  /** The quantity bought: `percentage` percent of the balance, in units of the price. */
  function OrderQuantity(balance: real, percentage: real, price: real): (quantity: real)
    requires price > 0.0
    ensures quantity * price == balance * (percentage / 100.0)
    ensures 0.0 <= balance && 0.0 <= percentage ==> 0.0 <= quantity
  {
    var investAmount := balance * (percentage / 100.0);
    if 0.0 <= balance && 0.0 <= percentage then
      ProductNonNegative(balance, percentage / 100.0);
      DivideNonNegative(investAmount, price);
      investAmount / price
    else investAmount / price
  }

  /** A fresh position in `best`: entered at its price with no profit or loss, and sized as
      `percentage` percent of `balance` divided by the price. */
  predicate OpenedAt(p: PositionView, best: Candidate, balance: real, percentage: real)
  {
    best.price > 0.0
    && p.symbol == best.symbol && p.entryPrice == best.price && p.currentPrice == best.price
    && p.profitLoss == 0.0 && p.profitLossPct == 0.0
    && p.quantity == OrderQuantity(balance, percentage, best.price)
  }

  /** Buy `best` with `investmentPercentage` percent of the balance and hold it; a failed
      balance query changes nothing. */
  function OpenBest(s: EngineState, best: Candidate, exchange: Exchange): (r: EngineState)
    requires best.price > 0.0
    ensures Balance(s.config, exchange.liveBalance).Err? ==> r == s
    ensures Balance(s.config, exchange.liveBalance).Ok? ==>
      r.position.Some? && OpenedAt(r.position.value, best, Balance(s.config, exchange.liveBalance).value, s.config.investmentPercentage)
  {
    match Balance(s.config, exchange.liveBalance)
    case Err(_) => s
    case Ok(krw) =>
      var quantity := OrderQuantity(krw, s.config.investmentPercentage, best.price);
      var order := Order(best.symbol, Client.Buy, Client.Market, quantity, None, AutoBuy(best.analysis.score));
      var p := PositionView(best.symbol, best.price, quantity, best.price, 0.0, 0.0, exchange.now);
      s.(position := Some(p),
         events := s.events + [OrderEvent(s.config, order, exchange.orderOutcome), PositionOpened(best.symbol, best.analysis.score)])
  }

  /** The tickers whose 24-hour traded value reaches `minVolumeKrw`, in order. */
  function Liquid(tickers: seq<Client.Ticker>, minVolumeKrw: real): (r: seq<Client.Ticker>)
    ensures forall t :: t in r <==> t in tickers && t.volumeKrw >= minVolumeKrw
  {
    if tickers == [] then []
    else (if tickers[0].volumeKrw >= minVolumeKrw then [tickers[0]] else []) + Liquid(tickers[1..], minVolumeKrw)
  }

  /** `filter` keeps the input order: filtering a concatenation concatenates the filtered
      parts. */
  lemma {:induction false} QualifyingKeepsOrder(a: seq<Candidate>, b: seq<Candidate>)
    ensures Qualifying(a + b) == Qualifying(a) + Qualifying(b)
  {
    if a == [] {
      assert a + b == b;
    } else {
      assert (a + b)[0] == a[0] && (a + b)[1..] == a[1..] + b;
      QualifyingKeepsOrder(a[1..], b);
    }
  }

  lemma {:induction false} LiquidKeepsOrder(a: seq<Client.Ticker>, b: seq<Client.Ticker>, minVolumeKrw: real)
    ensures Liquid(a + b, minVolumeKrw) == Liquid(a, minVolumeKrw) + Liquid(b, minVolumeKrw)
  {
    if a == [] {
      assert a + b == b;
    } else {
      assert (a + b)[0] == a[0] && (a + b)[1..] == a[1..] + b;
      LiquidKeepsOrder(a[1..], b, minVolumeKrw);
    }
  }

  /** `cs[i]` is the candidate bought from `cs`: it qualifies, it is `Best` of the qualifying
      candidates, and every qualifying candidate before it scores strictly less. */
  predicate FirstOfHighestAt(cs: seq<Candidate>, i: int)
  {
    0 <= i < |cs| && Qualifying(cs) != [] && cs[i] == Best(Qualifying(cs)) && Qualifies(cs[i]) &&
    forall j :: 0 <= j < i && Qualifies(cs[j]) ==> cs[j].analysis.score < cs[i].analysis.score
  }

  /** The stable descending sort puts first the earliest, in ticker order, of the highest
      qualifying scores. */
  lemma {:induction false} BestIsFirstOfHighest(cs: seq<Candidate>) returns (i: nat)
    requires Qualifying(cs) != []
    ensures FirstOfHighestAt(cs, i)
  {
    var tail := cs[1..];
    if !Qualifies(cs[0]) {
      var k := BestIsFirstOfHighest(tail);
      i := k + 1;
      SkipUnqualified(cs, k);
    } else if Qualifying(tail) == [] || cs[0].analysis.score >= Best(Qualifying(tail)).analysis.score {
      i := 0;
      assert Qualifying(cs) == [cs[0]] + Qualifying(tail);
      assert |Qualifying(cs)| == 1 || Qualifying(cs)[1..] == Qualifying(tail);
    } else {
      var k := BestIsFirstOfHighest(tail);
      i := k + 1;
      SkipOutscored(cs, k);
    }
  }

  lemma SkipUnqualified(cs: seq<Candidate>, k: nat)
    requires cs != [] && Qualifying(cs) != [] && !Qualifies(cs[0]) && FirstOfHighestAt(cs[1..], k)
    ensures FirstOfHighestAt(cs, k + 1)
  {
    assert Qualifying(cs) == Qualifying(cs[1..]) by {
      assert Qualifying(cs) == [] + Qualifying(cs[1..]);
    }
    ShiftEarlier(cs, k);
  }

  lemma SkipOutscored(cs: seq<Candidate>, k: nat)
    requires cs != [] && Qualifying(cs) != [] && Qualifies(cs[0]) && FirstOfHighestAt(cs[1..], k)
    requires cs[0].analysis.score < Best(Qualifying(cs[1..])).analysis.score
    ensures FirstOfHighestAt(cs, k + 1)
  {
    var q, r := Qualifying(cs), Qualifying(cs[1..]);
    assert Best(q) == Best(r) by {
      assert q == [cs[0]] + r;
      assert q[1..] == r;
    }
    ShiftEarlier(cs, k);
  }

  /** Prepending a candidate that does not qualify, or scores less, keeps `cs[k + 1]` ahead of
      every earlier qualifying candidate. */
  lemma ShiftEarlier(cs: seq<Candidate>, k: nat)
    requires k + 1 < |cs|
    requires !Qualifies(cs[0]) || cs[0].analysis.score < cs[k + 1].analysis.score
    requires forall j :: 0 <= j < k && Qualifies(cs[1..][j]) ==> cs[1..][j].analysis.score < cs[1..][k].analysis.score
    ensures forall j :: 0 <= j < k + 1 && Qualifies(cs[j]) ==> cs[j].analysis.score < cs[k + 1].analysis.score
  {
    forall j | 0 < j < k + 1 && Qualifies(cs[j])
      ensures cs[j].analysis.score < cs[k + 1].analysis.score
    {
      assert cs[j] == cs[1..][j - 1] && cs[k + 1] == cs[1..][k];
    }
  }

  /** The precondition of a tick: when the tick scans for a buy, the liquid tickers it scans
      have positive prices, as every entry price must be. */
  predicate Tickable(s: EngineState, exchange: Exchange)
  {
    s.config.enabled && s.position.None? && exchange.allTickers.Ok?
    ==> PositivePrices(Liquid(exchange.allTickers.value, s.config.minVolumeKrw))
  }

  /** `mainLoop`: nothing while disabled or when the ticker list cannot be fetched; otherwise
      manage the open position, or scan the liquid tickers when there is none. */
  function TickSpec(s: EngineState, exchange: Exchange): EngineState
    requires ValidState(s) && Tickable(s, exchange)
  {
    if !s.config.enabled then s
    else match exchange.allTickers
      case Err(_) => s
      case Ok(allTickers) =>
        var filtered := Liquid(allTickers, s.config.minVolumeKrw);
        if s.position.Some? then
          var symbol := s.position.value.symbol;
          ManageSpec(s, exchange.ticker(symbol), exchange.analyze(symbol), exchange.orderOutcome)
        else ScanSpec(s, filtered, exchange)
  }

  /** `emergencyStop`: stop, sell the whole position if there is one, drop it, and report. */
  function EmergencySpec(s: EngineState, outcome: Outcome): EngineState
  {
    var stopped := StopSpec(s);
    match stopped.position
    case None => stopped.(events := stopped.events + [EmergencyStopped])
    case Some(p) =>
      stopped.(position := None,
               events := stopped.events + [OrderEvent(s.config, SellAll(p, Emergency), outcome), EmergencyStopped])
  }

  // ---------------------------------------------------------------------------
  // Properties of the specification
  // ---------------------------------------------------------------------------

  /** Starting a running engine changes nothing: no second loop and no second event. */
  lemma StartIsIdempotent(s: EngineState)
    requires ValidState(s)
    ensures s.isRunning ==> StartSpec(s) == s
    ensures StartSpec(StartSpec(s)) == StartSpec(s)
    ensures StartSpec(s).isRunning && StartSpec(s).loopActive
  {
  }

  /** Stopping never touches the position, and always reports. */
  lemma StopKeepsPosition(s: EngineState)
    ensures StopSpec(s).position == s.position && StopSpec(s).config == s.config
    ensures !StopSpec(s).isRunning && !StopSpec(s).loopActive
    ensures StopSpec(s).events == s.events + [Stopped]
  {
  }

  /** A disabled engine's tick changes nothing, and every step keeps the state valid. */
  lemma StepsPreserveValidity(s: EngineState, exchange: Exchange, patch: ConfigPatch, outcome: Outcome)
    requires ValidState(s) && Tickable(s, exchange)
    ensures !s.config.enabled ==> TickSpec(s, exchange) == s
    ensures ValidState(TickSpec(s, exchange))
    ensures ValidState(StartSpec(s)) && ValidState(StopSpec(s)) && ValidState(EmergencySpec(s, outcome))
    ensures ValidState(UpdateConfigSpec(s, patch))
  {
  }

  /** The take-profit exit fires on the repriced profit alone: the analysis is not consulted,
      and the whole quantity is sold. */
  lemma TakeProfitIgnoresAnalysis(s: EngineState, t: Client.Ticker, a1: Result<MultiLayer.MarketAnalysis>,
                                  a2: Result<MultiLayer.MarketAnalysis>, outcome: Outcome)
    requires s.position.Some? && s.position.value.entryPrice > 0.0
    requires Reprice(s.position.value, t.price).profitLossPct >= s.config.profitTarget
    ensures ManageSpec(s, Ok(t), a1, outcome) == ManageSpec(s, Ok(t), a2, outcome)
    ensures ManageSpec(s, Ok(t), a1, outcome).position.None?
  {
  }

  /** Below the profit target the position is closed exactly on an exit signal of a successful
      analysis, and `confidence_exit` is reported exactly when the gate failed. */
  lemma ExitRules(s: EngineState, t: Client.Ticker, a: MultiLayer.MarketAnalysis, outcome: Outcome)
    requires s.position.Some? && s.position.value.entryPrice > 0.0
    requires Reprice(s.position.value, t.price).profitLossPct < s.config.profitTarget
    ensures ManageSpec(s, Ok(t), Ok(a), outcome).position.None? <==> ExitSignal(a)
    ensures (exists e :: e in ManageSpec(s, Ok(t), Ok(a), outcome).events && e.ConfidenceExit?)
        <==> (exists e :: e in s.events && e.ConfidenceExit?)
             || !MultiLayer.ComputeConfidenceGate(a.metadata.sentiment, a.metadata.events)
  {
    var r := ManageSpec(s, Ok(t), Ok(a), outcome);
    var p := Reprice(s.position.value, t.price);
    if !MultiLayer.ComputeConfidenceGate(a.metadata.sentiment, a.metadata.events) {
      assert ConfidenceExit(p.symbol, a.metadata.sentiment.confidence) in r.events;
    }
  }

  /** Before the take-profit is reached, a failed analysis only reprices the position. */
  lemma FailedAnalysisKeepsPosition(s: EngineState, t: Client.Ticker, message: string, outcome: Outcome)
    requires s.position.Some? && s.position.value.entryPrice > 0.0
    requires Reprice(s.position.value, t.price).profitLossPct < s.config.profitTarget
    ensures ManageSpec(s, Ok(t), Err(message), outcome).position == Some(Reprice(s.position.value, t.price))
  {
  }

  /** Order failures are swallowed: the outcome of an order never changes which position the
      engine holds after a tick or an emergency stop. */
  lemma OrderOutcomeNeverChangesPosition(s: EngineState, exchange: Exchange, outcome: Outcome)
    requires ValidState(s) && Tickable(s, exchange)
    ensures TickSpec(s, exchange).position == TickSpec(s, exchange.(orderOutcome := outcome)).position
    ensures EmergencySpec(s, exchange.orderOutcome).position == EmergencySpec(s, outcome).position
  {
    if s.config.enabled && exchange.allTickers.Ok? {
      if s.position.Some? {
        var symbol := s.position.value.symbol;
        ManageOutcome(s, exchange.ticker(symbol), exchange.analyze(symbol), exchange.orderOutcome, outcome);
      } else {
        var filtered := Liquid(exchange.allTickers.value, s.config.minVolumeKrw);
        ScanOutcome(s, filtered, exchange, outcome);
      }
    }
  }

  lemma ManageOutcome(s: EngineState, ticker: Result<Client.Ticker>, analysis: Result<MultiLayer.MarketAnalysis>,
                      o1: Outcome, o2: Outcome)
    requires s.position.Some? && s.position.value.entryPrice > 0.0
    ensures ManageSpec(s, ticker, analysis, o1).position == ManageSpec(s, ticker, analysis, o2).position
  {
  }

  lemma ScanOutcome(s: EngineState, tickers: seq<Client.Ticker>, exchange: Exchange, outcome: Outcome)
    requires PositivePrices(tickers)
    ensures ScanSpec(s, tickers, exchange).position == ScanSpec(s, tickers, exchange.(orderOutcome := outcome)).position
  {
    var cs := Evaluate(tickers, exchange.analyze);
    if cs.Some? && Qualifying(cs.value) != [] {
      var best := Best(Qualifying(cs.value));
      assert best in cs.value;
      var i :| 0 <= i < |cs.value| && cs.value[i] == best;
      OpenBestIgnoresOutcome(s, best, exchange, outcome);
    }
  }

  lemma OpenBestIgnoresOutcome(s: EngineState, best: Candidate, exchange: Exchange, outcome: Outcome)
    requires best.price > 0.0
    ensures OpenBest(s, best, exchange).position == OpenBest(s, best, exchange.(orderOutcome := outcome)).position
  {
  }

  /** A tick never replaces a held position: afterwards the engine holds the same position
      (repriced) or none. */
  lemma TickKeepsAtMostOnePosition(s: EngineState, exchange: Exchange)
    requires ValidState(s) && Tickable(s, exchange) && s.position.Some?
    ensures var r := TickSpec(s, exchange);
      r.position.None?
      || (r.position.value.symbol == s.position.value.symbol
          && r.position.value.entryPrice == s.position.value.entryPrice
          && r.position.value.quantity == s.position.value.quantity)
  {
  }

  /** A position opened by a scan belongs to the highest-scoring candidate that should trade on
      a buy signal, the earliest in ticker order on a tie; it is entered at the ticker price with no profit or loss, sized at
      `investmentPercentage` percent of the balance. */
  lemma OpenedPosition(s: EngineState, tickers: seq<Client.Ticker>, exchange: Exchange)
    requires PositivePrices(tickers)
    ensures var r := ScanSpec(s, tickers, exchange);
      r.position.Some? && r.position != s.position ==>
        var cs := Evaluate(tickers, exchange.analyze);
        cs.Some? && Qualifying(cs.value) != [] && Balance(s.config, exchange.liveBalance).Ok?
        && var best := Best(Qualifying(cs.value));
           OpenedAt(r.position.value, best, Balance(s.config, exchange.liveBalance).value, s.config.investmentPercentage)
           && (forall c :: c in Qualifying(cs.value) ==> c.analysis.score <= best.analysis.score)
           && exists i :: 0 <= i < |tickers| && tickers[i].symbol == best.symbol && tickers[i].price == best.price
                && Qualifies(CandidateOf(tickers[i], exchange.analyze(tickers[i].symbol).value))
                && forall j :: 0 <= j < i && Qualifies(cs.value[j]) ==> cs.value[j].analysis.score < best.analysis.score
  {
    var r := ScanSpec(s, tickers, exchange);
    if r.position.Some? && r.position != s.position {
      var cs := Evaluate(tickers, exchange.analyze).value;
      var best := Best(Qualifying(cs));
      var i := BestIsFirstOfHighest(cs);
      assert tickers[i].symbol == best.symbol && tickers[i].price == best.price;
    }
  }

  /** Without qualifying candidates the scan only reports that there is no opportunity. */
  lemma NoOpportunityKeepsFlat(s: EngineState, tickers: seq<Client.Ticker>, exchange: Exchange)
    requires PositivePrices(tickers)
    requires Evaluate(tickers, exchange.analyze).Some? && Qualifying(Evaluate(tickers, exchange.analyze).value) == []
    ensures ScanSpec(s, tickers, exchange) == s.(events := s.events + [NoOpportunity])
  {
  }

  /** An emergency stop always ends stopped and flat, and reports it last. */
  lemma EmergencyEndsFlat(s: EngineState, outcome: Outcome)
    ensures var r := EmergencySpec(s, outcome);
      r.position.None? && !r.isRunning && !r.loopActive && r.events[|r.events| - 1] == EmergencyStopped
      && (s.position.Some? <==> |r.events| == |s.events| + 3)
  {
  }

  /** The analysis the engine is run with: `analyzeMarket` with the seeded MACD signal line,
      over the candles each symbol's fetch returns. */
  function CorrectedAnalysis(candles: string -> Result<seq<Client.Candle>>, sqrt: Root): string -> Result<MultiLayer.MarketAnalysis>
  {
    symbol => MultiLayer.AnalyzeMarketCorrected(symbol, candles(symbol), sqrt)
  }

  /** The analysis of `analyzeMarket` as written, which never succeeds. */
  function AsWrittenAnalysis(candles: string -> Result<seq<Client.Candle>>, sqrt: Root): string -> Result<MultiLayer.MarketAnalysis>
  {
    symbol => MultiLayer.AnalyzeMarket(symbol, candles(symbol), sqrt)
  }

  /** With `analyzeMarket` as written, a scan over a non-empty ticker list changes nothing,
      and over an empty one only reports that there is no opportunity. */
  lemma AsWrittenScanNeverOpens(s: EngineState, tickers: seq<Client.Ticker>, exchange: Exchange,
                                candles: string -> Result<seq<Client.Candle>>, sqrt: Root)
    requires PositivePrices(tickers)
    requires exchange.analyze == AsWrittenAnalysis(candles, sqrt)
    ensures tickers != [] ==> ScanSpec(s, tickers, exchange) == s
    ensures tickers == [] ==> ScanSpec(s, tickers, exchange) == s.(events := s.events + [NoOpportunity])
  {
    if tickers != [] {
      assert exchange.analyze(tickers[0].symbol) == MultiLayer.AnalyzeMarket(tickers[0].symbol, candles(tickers[0].symbol), sqrt);
      assert Evaluate(tickers, exchange.analyze).None?;
    }
  }

  /** With `analyzeMarket` as written, an engine without a position never opens one, and a
      held position is only ever closed by its take-profit. */
  lemma AsWrittenEngineNeverTrades(s: EngineState, exchange: Exchange, candles: string -> Result<seq<Client.Candle>>, sqrt: Root)
    requires ValidState(s) && Tickable(s, exchange)
    requires exchange.analyze == AsWrittenAnalysis(candles, sqrt)
    ensures s.position.None? ==> TickSpec(s, exchange).position.None?
    ensures (s.position.Some? && exchange.ticker(s.position.value.symbol).Ok?
             && Reprice(s.position.value, exchange.ticker(s.position.value.symbol).value.price).profitLossPct < s.config.profitTarget)
            ==> TickSpec(s, exchange).position.Some?
  {
    if s.config.enabled && exchange.allTickers.Ok? {
      var filtered := Liquid(exchange.allTickers.value, s.config.minVolumeKrw);
      if s.position.None? {
        AsWrittenScanNeverOpens(s, filtered, exchange, candles, sqrt);
      } else {
        var symbol := s.position.value.symbol;
        var analysis := exchange.analyze(symbol);
        assert analysis == MultiLayer.AnalyzeMarket(symbol, candles(symbol), sqrt);
        if exchange.ticker(symbol).Ok? && Reprice(s.position.value, exchange.ticker(symbol).value.price).profitLossPct < s.config.profitTarget {
          FailedAnalysisKeepsPosition(s, exchange.ticker(symbol).value, analysis.message, exchange.orderOutcome);
        }
      }
    }
  }

  /** With the corrected analysis, a position is only opened on an analysis that is internally
      consistent and scores at least 70. */
  lemma CorrectedEngineBuysOnStrongSignals(s: EngineState, tickers: seq<Client.Ticker>, exchange: Exchange,
                                           candles: string -> Result<seq<Client.Candle>>, sqrt: Root)
    requires PositivePrices(tickers) && s.position.None?
    requires exchange.analyze == CorrectedAnalysis(candles, sqrt)
    ensures var r := ScanSpec(s, tickers, exchange);
      r.position.Some? ==>
        exists i :: 0 <= i < |tickers| && tickers[i].symbol == r.position.value.symbol
          && var a := exchange.analyze(tickers[i].symbol).value;
             a.signal == MultiLayer.Buy && 70.0 <= a.score <= 100.0 && MultiLayer.Consistent(a)
  {
    OpenedPosition(s, tickers, exchange);
  }

  /** Every analysis of the pipeline, hence every one the corrected analysis returns, passes
      the confidence gate (its sentiment is the placeholder of confidence 0.6 and it reports no
      events), so a held position is closed on it exactly when the score falls below 30, and
      never with a confidence exit. */
  lemma ConsistentAnalysisPassesGate(a: MultiLayer.MarketAnalysis)
    requires MultiLayer.Consistent(a)
    ensures MultiLayer.ComputeConfidenceGate(a.metadata.sentiment, a.metadata.events)
    ensures ExitSignal(a) <==> a.score < 30.0
  {
  }

  // ---------------------------------------------------------------------------
  // The engine
  // ---------------------------------------------------------------------------

  /** A held position: fixed at entry, repriced in place by `managePosition`. */
  class Position {
    const symbol: string
    const entryPrice: real
    const quantity: real
    var currentPrice: real
    var profitLoss: real
    var profitLossPct: real
    const openedAt: real

    function View(): PositionView
      reads this
    {
      PositionView(symbol, entryPrice, quantity, currentPrice, profitLoss, profitLossPct, openedAt)
    }

    constructor(view: PositionView)
      ensures View() == view
    {
      symbol := view.symbol;
      entryPrice := view.entryPrice;
      quantity := view.quantity;
      currentPrice := view.currentPrice;
      profitLoss := view.profitLoss;
      profitLossPct := view.profitLossPct;
      openedAt := view.openedAt;
    }
  }

  class TradingEngine {
    var isRunning: bool
    var currentPosition: Position?
    var config: TradingConfig
    /** Whether the 5-second interval is scheduled; the timer itself is not modelled. */
    var loopInterval: bool
    var events: seq<EngineEvent>

    function State(): EngineState
      reads this, currentPosition
    {
      EngineState(isRunning, loopInterval, if currentPosition == null then None else Some(currentPosition.View()), config, events)
    }

    ghost predicate Valid()
      reads this, currentPosition
    {
      ValidState(State())
    }

    constructor(config: TradingConfig)
      ensures Valid()
      ensures State() == EngineState(false, false, None, config, [])
    {
      isRunning := false;
      currentPosition := null;
      this.config := config;
      loopInterval := false;
      events := [];
    }

    method Start()
      requires Valid()
      modifies this
      ensures Valid()
      ensures State() == StartSpec(old(State()))
    {
      if isRunning {
        return;
      }
      isRunning := true;
      events := events + [Started];
      loopInterval := true;
    }

    method Stop()
      requires Valid()
      modifies this
      ensures Valid()
      ensures State() == StopSpec(old(State()))
    {
      if loopInterval {
        loopInterval := false;
      }
      isRunning := false;
      events := events + [Stopped];
    }

    method UpdateConfig(patch: ConfigPatch)
      requires Valid()
      modifies this
      ensures Valid()
      ensures State() == UpdateConfigSpec(old(State()), patch)
    {
      config := Merge(config, patch);
      events := events + [ConfigUpdated(config)];
    }

    /** `executeOrder`: in live mode the order is placed, with `outcome` as the result;
        failures are reported, not rethrown. */
    method ExecuteOrder(order: Order, outcome: Outcome)
      modifies this
      ensures events == old(events) + [OrderEvent(config, order, outcome)]
      ensures isRunning == old(isRunning) && currentPosition == old(currentPosition)
      ensures config == old(config) && loopInterval == old(loopInterval)
    {
      if config.mode == Live && outcome.Fail? {
        events := events + [OrderFailed(outcome.message)];
        return;
      }
      events := events + [OrderFilled(order.symbol, order.side, order.quantity, order.price, order.reason)];
    }

    /** `getBalance`. */
    method GetBalance(liveBalance: Result<real>) returns (krw: Result<real>)
      ensures krw == Balance(config, liveBalance)
      ensures config.mode == Simulation ==> krw == Ok(10000000.0)
    {
      if config.mode == Live {
        return liveBalance;
      }
      return Ok(10000000.0);
    }

    method ManagePosition(position: Position, ticker: Result<Client.Ticker>,
                          analysis: Result<MultiLayer.MarketAnalysis>, outcome: Outcome)
      requires Valid() && position == currentPosition
      modifies this, position
      ensures Valid()
      ensures State() == ManageSpec(old(State()), ticker, analysis, outcome)
    {
      if ticker.Err? {
        return;
      }
      var currentPrice := ticker.value.price;
      var profitPct := ProfitPct(position.entryPrice, currentPrice);
      position.currentPrice := currentPrice;
      position.profitLoss := (currentPrice - position.entryPrice) * position.quantity;
      position.profitLossPct := profitPct;
      events := events + [PositionUpdate(position.View())];
      ghost var repriced := Reprice(old(State()).position.value, currentPrice);
      assert position.View() == repriced;
      ghost var updated := old(State()).(position := Some(repriced), events := old(State()).events + [PositionUpdate(repriced)]);
      assert State() == updated;

      if profitPct >= config.profitTarget {
        ClosePosition(TakeProfit(profitPct), profitPct, outcome);
        return;
      }

      if analysis.Err? {
        return;
      }
      var a := analysis.value;
      var confidenceOk := MultiLayer.ComputeConfidenceGate(a.metadata.sentiment, a.metadata.events);
      if (a.signal == MultiLayer.Sell && a.score < 30.0) || !confidenceOk {
        ClosePosition(StopLoss(a.score), profitPct, outcome);
        if !confidenceOk {
          events := events + [ConfidenceExit(position.symbol, a.metadata.sentiment.confidence)];
        }
      }
    }

    /** The exit of `managePosition`: sell the whole position, drop it and report the close. */
    method ClosePosition(reason: Reason, profitPct: real, outcome: Outcome)
      requires Valid() && currentPosition != null
      modifies this
      ensures Valid()
      ensures var p := old(State()).position.value;
        State() == old(State()).(position := None,
                                 events := old(State()).events + [OrderEvent(config, SellAll(p, reason), outcome), PositionClosed(p.symbol, profitPct)])
    {
      var position := currentPosition;
      ExecuteOrder(Order(position.symbol, Client.Sell, Client.Market, position.quantity, None, reason), outcome);
      currentPosition := null;
      events := events + [PositionClosed(position.symbol, profitPct)];
    }

    method FindBuyOpportunity(tickers: seq<Client.Ticker>, exchange: Exchange)
      requires Valid() && currentPosition == null && PositivePrices(tickers)
      modifies this
      ensures Valid()
      ensures State() == ScanSpec(old(State()), tickers, exchange)
    {
      ghost var before := State();
      var analyses := Evaluate(tickers, exchange.analyze);
      if analyses.None? {
        return;
      }
      var buySignals := Qualifying(analyses.value);
      if |buySignals| == 0 {
        events := events + [NoOpportunity];
        return;
      }
      var best := Best(buySignals);
      ScanOpensBest(before, tickers, exchange, analyses.value);
      BuyBest(best, exchange);
    }

    /** The second half of `findBuyOpportunity`: buy the chosen candidate with a share of the
        balance and hold it as the position. */
    method BuyBest(best: Candidate, exchange: Exchange)
      requires Valid() && currentPosition == null && best.price > 0.0
      modifies this
      ensures Valid()
      ensures State() == OpenBest(old(State()), best, exchange)
    {
      var balance := GetBalance(exchange.liveBalance);
      if balance.Err? {
        return;
      }
      var quantity := OrderQuantity(balance.value, config.investmentPercentage, best.price);
      var order := Order(best.symbol, Client.Buy, Client.Market, quantity, None, AutoBuy(best.analysis.score));
      var view := PositionView(best.symbol, best.price, quantity, best.price, 0.0, 0.0, exchange.now);
      ExecuteOrder(order, exchange.orderOutcome);
      currentPosition := new Position(view);
      events := events + [PositionOpened(best.symbol, best.analysis.score)];
    }

    /** `mainLoop`, one tick of the interval. */
    method MainLoop(exchange: Exchange)
      requires Valid() && Tickable(State(), exchange)
      modifies this, currentPosition
      ensures Valid()
      ensures State() == TickSpec(old(State()), exchange)
    {
      if !config.enabled {
        return;
      }
      if exchange.allTickers.Err? {
        return;
      }
      var filtered := Liquid(exchange.allTickers.value, config.minVolumeKrw);
      if currentPosition != null {
        var symbol := currentPosition.symbol;
        ManagePosition(currentPosition, exchange.ticker(symbol), exchange.analyze(symbol), exchange.orderOutcome);
      } else {
        FindBuyOpportunity(filtered, exchange);
      }
    }

    method EmergencyStop(outcome: Outcome)
      requires Valid()
      modifies this
      ensures Valid()
      ensures State() == EmergencySpec(old(State()), outcome)
    {
      Stop();
      if currentPosition != null {
        ExecuteOrder(Order(currentPosition.symbol, Client.Sell, Client.Market, currentPosition.quantity, None, Emergency), outcome);
        currentPosition := null;
      }
      events := events + [EmergencyStopped];
    }
  }
}
