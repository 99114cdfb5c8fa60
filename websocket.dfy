/** The public streaming feed: a reconnect/subscription state machine around one socket.
    Socket events (open, message, close, error) and the firing of the reconnect timer are
    method calls; frames the feed sends and events it emits are appended to `sent` and
    `events`. */
module Feed {
  import opened Wrappers

  const MaxReconnectAttempts: nat := 10
  const MaxReconnectDelay: nat := 30000
  const KrwSuffix: string := "_KRW"

  /** `ws`: no socket, or a socket by its ready state. */
  datatype SocketState = NoSocket | Connecting | Open | Closed

  /** The two subscription frames; `tickTypes` is always `["24H"]`. */
  datatype Frame = TickerFrame(symbols: seq<string>, tickTypes: seq<string>) | TransactionFrame(symbols: seq<string>)

  datatype Side = Bid | Ask

  /** Timestamps stay the raw text the feed sends. */
  datatype TickerUpdate = TickerUpdate(symbol: string, price: real, change24h: real, volume: real, timestamp: string)
  datatype TransactionUpdate = TransactionUpdate(symbol: string, price: real, quantity: real, side: Side, timestamp: string)

  datatype FeedEvent =
    | Connected
    | Disconnected
    | SocketError(message: string)
    | MaxReconnectAttemptsReached
    | TickerReceived(ticker: TickerUpdate)
    | TransactionReceived(transaction: TransactionUpdate)

  /** The `content` of a message, with every field the two handled types read. */
  datatype Content = Content(
    symbol: string, closePrice: string, chgRate: string, volume: string, date: string,
    contPrice: string, contQty: string, buySellGb: string, contDtm: string)

  /** A parsed message; `content` is `None` when the message has none. */
  datatype Message = Message(kind: string, content: Option<Content>)

  /** The feed's fields as a value. `reconnectTimer` is the delay of the last scheduled
      reconnect, `heartbeat` whether the ping interval is scheduled. */
  datatype FeedState = FeedState(
    ws: SocketState, reconnectTimer: Option<nat>, heartbeat: bool, reconnectAttempts: nat,
    subscribed: seq<string>, sent: seq<Frame>, events: seq<FeedEvent>)

  // ---------------------------------------------------------------------------
  // Backoff
  // ---------------------------------------------------------------------------

  function Pow2(n: nat): (p: nat)
    ensures 1 <= p
  {
    if n == 0 then 1 else 2 * Pow2(n - 1)
  }

  lemma {:induction false} Pow2Monotone(m: nat, n: nat)
    requires m <= n
    ensures Pow2(m) <= Pow2(n)
  {
    if m < n {
      Pow2Monotone(m, n - 1);
    }
  }

  /** `Math.min(1000 * 2 ** attempts, 30000)`. */
  function ReconnectDelay(attempts: nat): (delay: nat)
    ensures 1000 <= delay <= MaxReconnectDelay
  {
    if 1000 * Pow2(attempts) < MaxReconnectDelay then 1000 * Pow2(attempts) else MaxReconnectDelay
  }

  /** The backoff doubles from one second and is capped at thirty from the sixth attempt on. */
  lemma ReconnectDelaySchedule(attempts: nat)
    ensures ReconnectDelay(0) == 1000 && ReconnectDelay(1) == 2000 && ReconnectDelay(2) == 4000
    ensures ReconnectDelay(3) == 8000 && ReconnectDelay(4) == 16000
    ensures 5 <= attempts ==> ReconnectDelay(attempts) == MaxReconnectDelay
  {
    assert Pow2(4) == 16;
    assert Pow2(5) == 32;
    if 5 <= attempts {
      Pow2Monotone(5, attempts);
    }
  }

  /** The delay never shrinks as attempts accumulate. */
  lemma ReconnectDelayMonotone(m: nat, n: nat)
    requires m <= n
    ensures ReconnectDelay(m) <= ReconnectDelay(n)
  {
    Pow2Monotone(m, n);
  }

  // ---------------------------------------------------------------------------
  // Symbols and messages
  // ---------------------------------------------------------------------------

  /** `s.replace(pat, "")`: the first occurrence of `pat` removed. */
  function RemoveFirst(s: string, pat: string): (r: string)
    requires |pat| > 0
    ensures |r| == |s| || |r| == |s| - |pat|
    ensures |r| == |s| ==> r == s
  {
    if |s| < |pat| then s
    else if s[..|pat|] == pat then s[|pat|..]
    else [s[0]] + RemoveFirst(s[1..], pat)
  }

  /** The market names subscribed for `symbols`, in order. */
  function Markets(symbols: seq<string>): (markets: seq<string>)
    ensures |markets| == |symbols|
    ensures forall i :: 0 <= i < |symbols| ==> markets[i] == symbols[i] + KrwSuffix
  {
    if symbols == [] then [] else [symbols[0] + KrwSuffix] + Markets(symbols[1..])
  }

  function SubscriptionFrames(symbols: seq<string>): seq<Frame>
  {
    [TickerFrame(Markets(symbols), ["24H"]), TransactionFrame(Markets(symbols))]
  }

  /** Stripping the suffix from a subscribed market name gives back its symbol, for any
      symbol without an underscore. */
  lemma {:induction false} RemoveSuffixRoundTrip(symbol: string)
    requires forall i :: 0 <= i < |symbol| ==> symbol[i] != '_'
    ensures RemoveFirst(symbol + KrwSuffix, KrwSuffix) == symbol
  {
    if symbol != [] {
      var s := symbol + KrwSuffix;
      assert s[0] == symbol[0] != '_';
      assert s[..|KrwSuffix|] != KrwSuffix;
      assert s[1..] == symbol[1..] + KrwSuffix;
      RemoveSuffixRoundTrip(symbol[1..]);
    }
  }

  /** Every market name of a subscription frame maps back to its symbol. */
  lemma SubscriptionRoundTrip(symbols: seq<string>)
    requires forall i, j :: 0 <= i < |symbols| && 0 <= j < |symbols[i]| ==> symbols[i][j] != '_'
    ensures forall f :: f in SubscriptionFrames(symbols) ==>
      |f.symbols| == |symbols| && forall i :: 0 <= i < |symbols| ==> RemoveFirst(f.symbols[i], KrwSuffix) == symbols[i]
  {
    forall i | 0 <= i < |symbols|
      ensures RemoveFirst(Markets(symbols)[i], KrwSuffix) == symbols[i]
    {
      RemoveSuffixRoundTrip(symbols[i]);
    }
  }

  /** `handleMessage`: a ticker or transaction message becomes its update, with the first
      "_KRW" stripped from the symbol; any other message, and one without content (whose
      handler throws and is caught), emits nothing. Numbers go through `parseFloat`. */
  function HandleMessage(message: Message, parseFloat: string -> real): (e: Option<FeedEvent>)
    ensures e.Some? <==> (message.kind == "ticker" || message.kind == "transaction") && message.content.Some?
    ensures e.Some? && message.kind == "ticker" ==>
      e.value == TickerReceived(TickerUpdate(
        RemoveFirst(message.content.value.symbol, KrwSuffix), parseFloat(message.content.value.closePrice),
        parseFloat(message.content.value.chgRate), parseFloat(message.content.value.volume), message.content.value.date))
    ensures e.Some? && message.kind == "transaction" ==>
      e.value.TransactionReceived?
      && e.value.transaction.symbol == RemoveFirst(message.content.value.symbol, KrwSuffix)
      && e.value.transaction.price == parseFloat(message.content.value.contPrice)
      && e.value.transaction.quantity == parseFloat(message.content.value.contQty)
      && (e.value.transaction.side == Bid <==> message.content.value.buySellGb == "1")
      && e.value.transaction.timestamp == message.content.value.contDtm
  {
    if message.content.None? then None
    else
      var content := message.content.value;
      if message.kind == "ticker" then
        Some(TickerReceived(TickerUpdate(RemoveFirst(content.symbol, KrwSuffix), parseFloat(content.closePrice),
                                         parseFloat(content.chgRate), parseFloat(content.volume), content.date)))
      else if message.kind == "transaction" then
        Some(TransactionReceived(TransactionUpdate(RemoveFirst(content.symbol, KrwSuffix), parseFloat(content.contPrice),
                                                   parseFloat(content.contQty), if content.buySellGb == "1" then Bid else Ask,
                                                   content.contDtm)))
      else None
  }

  // ---------------------------------------------------------------------------
  // Specification of the state machine
  // ---------------------------------------------------------------------------

  predicate ValidState(s: FeedState)
  {
    s.reconnectAttempts <= MaxReconnectAttempts
    && (s.reconnectTimer.Some? ==> 1000 <= s.reconnectTimer.value <= MaxReconnectDelay)
  }

  function AttemptReconnectSpec(s: FeedState): FeedState
  {
    if s.reconnectAttempts >= MaxReconnectAttempts then s.(events := s.events + [MaxReconnectAttemptsReached])
    else s.(reconnectTimer := Some(ReconnectDelay(s.reconnectAttempts)), reconnectAttempts := s.reconnectAttempts + 1)
  }

  /** `connect`: a new connecting socket, or a reconnect attempt when creating it throws. */
  function ConnectSpec(s: FeedState, throws: bool): FeedState
  {
    if throws then AttemptReconnectSpec(s) else s.(ws := Connecting)
  }

  function SubscribeSpec(s: FeedState, symbols: seq<string>): FeedState
  {
    if s.ws != Open then s else s.(subscribed := symbols, sent := s.sent + SubscriptionFrames(symbols))
  }

  function UnsubscribeSpec(s: FeedState): FeedState
  {
    if s.ws != Open then s else s.(subscribed := [])
  }

  function OpenSpec(s: FeedState): FeedState
  {
    var reset := s.(ws := Open, reconnectAttempts := 0, heartbeat := true);
    var restored := if |reset.subscribed| > 0 then SubscribeSpec(reset, reset.subscribed) else reset;
    restored.(events := restored.events + [Connected])
  }

  function CloseSpec(s: FeedState): FeedState
  {
    var stopped := s.(ws := if s.ws == NoSocket then NoSocket else Closed, heartbeat := false);
    var retried := AttemptReconnectSpec(stopped);
    retried.(events := retried.events + [Disconnected])
  }

  /** A message that fails to parse is `None` and is dropped. */
  function MessageSpec(s: FeedState, data: Option<Message>, parseFloat: string -> real): FeedState
  {
    if data.None? then s
    else match HandleMessage(data.value, parseFloat)
      case None => s
      case Some(e) => s.(events := s.events + [e])
  }

  function DisconnectSpec(s: FeedState): FeedState
  {
    s.(reconnectTimer := None, heartbeat := false, ws := NoSocket, subscribed := [])
  }

  /** `k` failed reconnections: each a connect whose socket then closes. */
  function FailedReconnects(s: FeedState, k: nat): FeedState
    decreases k
  {
    if k == 0 then s else FailedReconnects(CloseSpec(ConnectSpec(s, false)), k - 1)
  }

  // ---------------------------------------------------------------------------
  // Properties of the specification
  // ---------------------------------------------------------------------------

  /** Every event keeps the attempt counter within its bound and the scheduled delay within
      the backoff range. */
  lemma StepsPreserveValidity(s: FeedState, throws: bool, symbols: seq<string>, data: Option<Message>,
                              parseFloat: string -> real)
    requires ValidState(s)
    ensures ValidState(ConnectSpec(s, throws)) && ValidState(OpenSpec(s)) && ValidState(CloseSpec(s))
    ensures ValidState(SubscribeSpec(s, symbols)) && ValidState(UnsubscribeSpec(s))
    ensures ValidState(MessageSpec(s, data, parseFloat)) && ValidState(DisconnectSpec(s))
  {
  }

  /** Once the budget is spent a reconnect attempt schedules nothing, keeps the counter and
      reports it; before that it schedules the backoff for the current count and counts it. */
  lemma AttemptReconnectRules(s: FeedState)
    ensures s.reconnectAttempts >= MaxReconnectAttempts ==>
      AttemptReconnectSpec(s) == s.(events := s.events + [MaxReconnectAttemptsReached])
    ensures s.reconnectAttempts < MaxReconnectAttempts ==>
      AttemptReconnectSpec(s).reconnectAttempts == s.reconnectAttempts + 1
      && AttemptReconnectSpec(s).reconnectTimer == Some(ReconnectDelay(s.reconnectAttempts))
      && AttemptReconnectSpec(s).events == s.events
  {
  }

  /** After `k` failed reconnections the counter is `min(attempts + k, 10)`, and the subscribed
      symbols are kept for the next open. */
  lemma {:induction false} ReconnectBudget(s: FeedState, k: nat)
    requires s.reconnectAttempts <= MaxReconnectAttempts
    ensures FailedReconnects(s, k).reconnectAttempts
            == if s.reconnectAttempts + k < MaxReconnectAttempts then s.reconnectAttempts + k else MaxReconnectAttempts
    ensures FailedReconnects(s, k).subscribed == s.subscribed
    ensures 0 < k ==> FailedReconnects(s, k).ws == Closed
    decreases k
  {
    if k > 0 {
      ReconnectBudget(CloseSpec(ConnectSpec(s, false)), k - 1);
    }
  }

  /** An open resets the counter, starts the heartbeat and re-sends the remembered
      subscription, exactly when there is one. */
  lemma OpenRestoresSubscription(s: FeedState)
    ensures var r := OpenSpec(s);
      r.ws == Open && r.reconnectAttempts == 0 && r.heartbeat && r.subscribed == s.subscribed
      && r.sent == s.sent + (if |s.subscribed| > 0 then SubscriptionFrames(s.subscribed) else [])
      && r.events == s.events + [Connected]
  {
  }

  /** A subscription while not open does nothing and is not remembered; while open it is
      remembered and sent as a ticker frame then a transaction frame. */
  lemma SubscribeRules(s: FeedState, symbols: seq<string>)
    ensures s.ws != Open ==> SubscribeSpec(s, symbols) == s
    ensures s.ws == Open ==>
      SubscribeSpec(s, symbols).subscribed == symbols
      && SubscribeSpec(s, symbols).sent == s.sent + [TickerFrame(Markets(symbols), ["24H"]), TransactionFrame(Markets(symbols))]
  {
  }

  /** A close stops the heartbeat and emits `disconnected` last, after any
      `max_reconnect_attempts`. */
  lemma CloseRules(s: FeedState)
    ensures var r := CloseSpec(s);
      !r.heartbeat && r.subscribed == s.subscribed
      && r.events == s.events + (if s.reconnectAttempts >= MaxReconnectAttempts then [MaxReconnectAttemptsReached] else []) + [Disconnected]
  {
  }

  /** `disconnect` forgets everything but the counter; the close event its own `ws.close()`
      then delivers still schedules a reconnect while attempts remain. */
  lemma DisconnectThenCloseReconnects(s: FeedState)
    ensures var d := DisconnectSpec(s);
      d.ws == NoSocket && d.reconnectTimer.None? && !d.heartbeat && d.subscribed == []
    ensures s.reconnectAttempts < MaxReconnectAttempts ==> CloseSpec(DisconnectSpec(s)).reconnectTimer.Some?
  {
  }

  // ---------------------------------------------------------------------------
  // The feed
  // ---------------------------------------------------------------------------

  class BithumbWebSocket {
    var ws: SocketState
    var reconnectTimeout: Option<nat>
    var heartbeatInterval: bool
    var reconnectAttempts: nat
    var subscribedSymbols: seq<string>
    var sent: seq<Frame>
    var events: seq<FeedEvent>

    function State(): FeedState
      reads this
    {
      FeedState(ws, reconnectTimeout, heartbeatInterval, reconnectAttempts, subscribedSymbols, sent, events)
    }

    ghost predicate Valid()
      reads this
    {
      ValidState(State())
    }

    constructor()
      ensures Valid()
      ensures State() == FeedState(NoSocket, None, false, 0, [], [], [])
    {
      ws := NoSocket;
      reconnectTimeout := None;
      heartbeatInterval := false;
      reconnectAttempts := 0;
      subscribedSymbols := [];
      sent := [];
      events := [];
    }

    /** `connect`; `throws` is whether creating the socket throws. */
    method Connect(throws: bool)
      requires Valid()
      modifies this
      ensures Valid()
      ensures State() == ConnectSpec(old(State()), throws)
    {
      if throws {
        AttemptReconnect();
        return;
      }
      ws := Connecting;
    }

    /** The reconnect timer fires. */
    method OnReconnectTimer(throws: bool)
      requires Valid() && reconnectTimeout.Some?
      modifies this
      ensures Valid()
      ensures State() == ConnectSpec(old(State()), throws)
    {
      Connect(throws);
    }

    method AttemptReconnect()
      requires Valid()
      modifies this
      ensures Valid()
      ensures State() == AttemptReconnectSpec(old(State()))
    {
      if reconnectAttempts >= MaxReconnectAttempts {
        events := events + [MaxReconnectAttemptsReached];
        return;
      }
      var delay := if 1000 * Pow2(reconnectAttempts) < MaxReconnectDelay then 1000 * Pow2(reconnectAttempts) else MaxReconnectDelay;
      reconnectAttempts := reconnectAttempts + 1;
      reconnectTimeout := Some(delay);
    }

    /** The `open` handler of the connecting socket. */
    method OnOpen()
      requires Valid() && ws == Connecting
      modifies this
      ensures Valid()
      ensures State() == OpenSpec(old(State()))
    {
      ws := Open;
      reconnectAttempts := 0;
      heartbeatInterval := true;
      if |subscribedSymbols| > 0 {
        Subscribe(subscribedSymbols);
      }
      events := events + [Connected];
    }

    /** The `message` handler; `data` is `None` when the frame is not valid JSON. */
    method OnMessage(data: Option<Message>, parseFloat: string -> real)
      requires Valid()
      modifies this
      ensures Valid()
      ensures State() == MessageSpec(old(State()), data, parseFloat)
    {
      if data.None? {
        return;
      }
      var update := HandleMessage(data.value, parseFloat);
      if update.Some? {
        events := events + [update.value];
      }
    }

    /** The `close` handler. */
    method OnClose()
      requires Valid()
      modifies this
      ensures Valid()
      ensures State() == CloseSpec(old(State()))
    {
      if ws != NoSocket {
        ws := Closed;
      }
      heartbeatInterval := false;
      AttemptReconnect();
      events := events + [Disconnected];
    }

    /** The `error` handler. */
    method OnError(message: string)
      requires Valid()
      modifies this
      ensures Valid()
      ensures State() == old(State()).(events := old(events) + [SocketError(message)])
    {
      events := events + [SocketError(message)];
    }

    method Subscribe(symbols: seq<string>)
      requires Valid()
      modifies this
      ensures Valid()
      ensures State() == SubscribeSpec(old(State()), symbols)
    {
      if ws != Open {
        return;
      }
      subscribedSymbols := symbols;
      sent := sent + [TickerFrame(Markets(symbols), ["24H"])];
      sent := sent + [TransactionFrame(Markets(symbols))];
    }

    method Unsubscribe()
      requires Valid()
      modifies this
      ensures Valid()
      ensures State() == UnsubscribeSpec(old(State()))
    {
      if ws != Open {
        return;
      }
      subscribedSymbols := [];
    }

    method Disconnect()
      requires Valid()
      modifies this
      ensures Valid()
      ensures State() == DisconnectSpec(old(State()))
    {
      reconnectTimeout := None;
      heartbeatInterval := false;
      if ws != NoSocket {
        ws := NoSocket;
      }
      subscribedSymbols := [];
    }

    method IsConnected() returns (connected: bool)
      ensures connected <==> ws == Open
    {
      return ws == Open;
    }
  }
}
