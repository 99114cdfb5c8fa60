/** The Bithumb REST client's pure parts: response-status checking, the 24-hour change rule,
    ticker and market lists (without the `date` key), candle-row mapping, the canonical
    signing string of private calls, order parameters and the Korean-name lookup. The HTTP
    transport, HMAC-SHA512, base64 and `parseFloat` are not modelled: responses arrive already
    decoded and the HMAC is a parameter. */
module Client {
  import opened Wrappers

  datatype Ticker = Ticker(
    symbol: string,
    koreanName: string,
    price: real,
    change24h: real,
    volume24h: real,
    volumeKrw: real,
    high24h: real,
    low24h: real)

  datatype OrderBookLevel = OrderBookLevel(price: real, quantity: real)

  datatype OrderBook = OrderBook(symbol: string, bids: seq<OrderBookLevel>, asks: seq<OrderBookLevel>)

  /** A candle; the timestamp is the epoch-milliseconds value of its `Date`. */
  datatype Candle = Candle(timestamp: real, open: real, high: real, low: real, close: real, volume: real)

  /** A decoded response body `{ status, message, data }`. */
  datatype Response<T> = Response(status: string, message: string, data: T)

  const SuccessStatus := "0000"
  const DateKey := "date"

  /** Every call rejects a response whose status is not "0000". */
  function CheckStatus<T>(response: Response<T>): (r: Result<T>)
    ensures r.Ok? <==> response.status == SuccessStatus
    ensures r.Ok? ==> r.value == response.data
    ensures r.Err? ==> r.message == "Bithumb API Error: " + response.message
  {
    if response.status != SuccessStatus then Err("Bithumb API Error: " + response.message)
    else Ok(response.data)
  }

  // ---------------------------------------------------------------------------
  // Tickers and markets
  // ---------------------------------------------------------------------------

  /** The 24-hour change in percent: `(close - open) / open * 100`, or 0 without a positive
      opening price. */
  function Change24h(closePrice: real, openPrice: real): (change: real)
    ensures openPrice <= 0.0 ==> change == 0.0
    ensures openPrice > 0.0 ==> change * openPrice == (closePrice - openPrice) * 100.0
  {
    if openPrice > 0.0 then (closePrice - openPrice) / openPrice * 100.0 else 0.0
  }

  /** The change reconstructs the closing price from the opening price, and its sign is the
      direction of the move. */
  lemma Change24hRoundTrip(closePrice: real, openPrice: real)
    requires openPrice > 0.0
    ensures openPrice + openPrice * Change24h(closePrice, openPrice) / 100.0 == closePrice
    ensures Change24h(closePrice, openPrice) > 0.0 <==> closePrice > openPrice
    ensures Change24h(closePrice, openPrice) == 0.0 <==> closePrice == openPrice
  {
    var change := Change24h(closePrice, openPrice);
    assert openPrice * change == (closePrice - openPrice) * 100.0;
    if change > 0.0 {
      assert openPrice * change > 0.0;
    }
    if closePrice > openPrice {
      assert openPrice * change > 0.0;
    }
  }

  /** The numeric fields of one coin in a ticker response, already parsed. */
  datatype CoinData = CoinData(
    closingPrice: real,
    openingPrice: real,
    unitsTraded24H: real,
    accTradeValue24H: real,
    maxPrice: real,
    minPrice: real)

  function TickerOf(symbol: string, coin: CoinData): (t: Ticker)
    ensures t.symbol == symbol && t.koreanName == KoreanName(symbol)
    ensures t.price == coin.closingPrice && t.volumeKrw == coin.accTradeValue24H
    ensures t.change24h == Change24h(coin.closingPrice, coin.openingPrice)
    ensures t.volume24h == coin.unitsTraded24H && t.high24h == coin.maxPrice && t.low24h == coin.minPrice
  {
    Ticker(symbol, KoreanName(symbol), coin.closingPrice, Change24h(coin.closingPrice, coin.openingPrice),
           coin.unitsTraded24H, coin.accTradeValue24H, coin.maxPrice, coin.minPrice)
  }

  /** `getTicker`, once the response has been fetched. */
  function GetTicker(symbol: string, response: Response<CoinData>): (r: Result<Ticker>)
    ensures r.Ok? <==> response.status == SuccessStatus
    ensures r.Ok? ==> r.value == TickerOf(symbol, response.data)
  {
    var coin :- CheckStatus(response);
    Ok(TickerOf(symbol, coin))
  }

  /** The response of `/ticker/ALL_KRW`: its keys in `Object.keys` order, each with its coin,
      and the `date` key among them. */
  type AllTickerData = seq<(string, CoinData)>

  /** The number of keys other than `date`. */
  function NonDateCount(entries: AllTickerData): (n: nat)
    ensures n <= |entries|
  {
    if entries == [] then 0
    else NonDateCount(entries[..|entries| - 1]) + if entries[|entries| - 1].0 == DateKey then 0 else 1
  }

  /** The reference definition of the ticker list: one ticker per key except `date`, in key
      order. */
  function TickersOf(entries: AllTickerData): (tickers: seq<Ticker>)
    ensures |tickers| == NonDateCount(entries)
    ensures forall i :: 0 <= i < |tickers| ==> tickers[i].symbol != DateKey
  {
    if entries == [] then []
    else
      var rest := TickersOf(entries[..|entries| - 1]);
      var (symbol, coin) := entries[|entries| - 1];
      if symbol == DateKey then rest else rest + [TickerOf(symbol, coin)]
  }

  /** `getAllTickers`, once the response has been fetched: the loop pushes one ticker per
      non-`date` key. */
  method GetAllTickers(response: Response<AllTickerData>) returns (r: Result<seq<Ticker>>)
    ensures r.Ok? <==> response.status == SuccessStatus
    ensures r.Err? ==> r.message == "Bithumb API Error: " + response.message
    ensures r.Ok? ==> r.value == TickersOf(response.data)
  {
    if response.status != SuccessStatus {
      return Err("Bithumb API Error: " + response.message);
    }
    var tickers: seq<Ticker> := [];
    var tickerData := response.data;
    var i := 0;
    while i < |tickerData|
      invariant 0 <= i <= |tickerData|
      invariant tickers == TickersOf(tickerData[..i])
    {
      assert tickerData[..i + 1][..i] == tickerData[..i];
      var (symbol, coin) := tickerData[i];
      if symbol != DateKey {
        tickers := tickers + [TickerOf(symbol, coin)];
      }
      i := i + 1;
    }
    assert tickerData[..i] == tickerData;
    return Ok(tickers);
  }

  /** `getAllMarkets`: the keys of the same response, without `date`. */
  function GetAllMarkets(response: Response<AllTickerData>): (r: Result<seq<string>>)
    ensures r.Ok? <==> response.status == SuccessStatus
    ensures r.Err? ==> r.message == "Bithumb API Error: " + response.message
    ensures r.Ok? ==> r.value == MarketsOf(response.data)
  {
    var entries :- CheckStatus(response);
    Ok(MarketsOf(entries))
  }

  function MarketsOf(entries: AllTickerData): (symbols: seq<string>)
    ensures |symbols| == NonDateCount(entries)
    ensures forall i :: 0 <= i < |symbols| ==> symbols[i] != DateKey
  {
    if entries == [] then []
    else
      var rest := MarketsOf(entries[..|entries| - 1]);
      var symbol := entries[|entries| - 1].0;
      if symbol == DateKey then rest else rest + [symbol]
  }

  /** Both lists are built key by key, in key order: the list of a concatenation is the
      concatenation of the lists, and a single key gives its own ticker and symbol unless it is
      `date`. */
  lemma {:induction false} TickersAndMarketsAppend(a: AllTickerData, b: AllTickerData)
    ensures TickersOf(a + b) == TickersOf(a) + TickersOf(b)
    ensures MarketsOf(a + b) == MarketsOf(a) + MarketsOf(b)
    decreases |b|
  {
    if b == [] {
      assert a + b == a;
    } else {
      var init := b[..|b| - 1];
      assert (a + b)[..|a + b| - 1] == a + init;
      assert (a + b)[|a + b| - 1] == b[|b| - 1];
      TickersAndMarketsAppend(a, init);
    }
  }

  lemma TickersAndMarketsOfOneKey(symbol: string, coin: CoinData)
    ensures TickersOf([(symbol, coin)]) == if symbol == DateKey then [] else [TickerOf(symbol, coin)]
    ensures MarketsOf([(symbol, coin)]) == if symbol == DateKey then [] else [symbol]
  {
    assert [(symbol, coin)][..0] == [];
  }

  /** The markets are exactly the symbols of the tickers, in the same order; a key is listed
      iff it is not `date`. */
  lemma {:induction false} MarketsAreTickerSymbols(entries: AllTickerData)
    ensures |MarketsOf(entries)| == |TickersOf(entries)|
    ensures forall i :: 0 <= i < |MarketsOf(entries)| ==> MarketsOf(entries)[i] == TickersOf(entries)[i].symbol
    ensures forall k :: k in MarketsOf(entries) <==> k != DateKey && exists j :: 0 <= j < |entries| && entries[j].0 == k
  {
    if entries != [] {
      var init := entries[..|entries| - 1];
      MarketsAreTickerSymbols(init);
      forall k
        ensures k in MarketsOf(entries) <==> k != DateKey && exists j :: 0 <= j < |entries| && entries[j].0 == k
      {
        if k != DateKey && exists j :: 0 <= j < |entries| && entries[j].0 == k {
          var j :| 0 <= j < |entries| && entries[j].0 == k;
          if j < |entries| - 1 {
            assert init[j].0 == k;
          }
        }
        if k in MarketsOf(init) {
          var j :| 0 <= j < |init| && init[j].0 == k;
          assert entries[j].0 == k;
        }
      }
    }
  }

  // ---------------------------------------------------------------------------
  // Candles
  // ---------------------------------------------------------------------------

  /** One row of the candlestick response: [time, open, close, high, low, volume]. */
  type CandleRow = (real, real, real, real, real, real)

  function CandleOf(row: CandleRow): (c: Candle)
    ensures c.timestamp == row.0 && c.open == row.1 && c.close == row.2
    ensures c.high == row.3 && c.low == row.4 && c.volume == row.5
  {
    Candle(row.0, row.1, row.3, row.4, row.2, row.5)
  }

  function Reverse<T>(s: seq<T>): (r: seq<T>)
    ensures |r| == |s|
    ensures forall i :: 0 <= i < |s| ==> r[i] == s[|s| - 1 - i]
  {
    if s == [] then [] else Reverse(s[1..]) + [s[0]]
  }

  /** `getCandles`, once the response has been fetched: the first `count` rows, mapped column
      by column, in reverse order. */
  function GetCandles(response: Response<seq<CandleRow>>, count: nat): (r: Result<seq<Candle>>)
    ensures r.Ok? <==> response.status == SuccessStatus
    ensures r.Ok? ==> |r.value| == if count < |response.data| then count else |response.data|
    ensures r.Ok? ==> forall i :: 0 <= i < |r.value| ==> r.value[i] == CandleOf(response.data[|r.value| - 1 - i])
  {
    var rows :- CheckStatus(response);
    var first := if count < |rows| then rows[..count] else rows;
    Ok(Reverse(seq(|first|, i requires 0 <= i < |first| => CandleOf(first[i]))))
  }

  /** The last candle returned is the first row of the response, and reversing the result
      gives back the mapped rows in response order. */
  lemma CandlesEndWithFirstRow(response: Response<seq<CandleRow>>, count: nat)
    requires response.status == SuccessStatus && count > 0 && response.data != []
    ensures var candles := GetCandles(response, count).value;
      candles != [] && candles[|candles| - 1] == CandleOf(response.data[0])
      && forall i :: 0 <= i < |candles| ==> Reverse(candles)[i] == CandleOf(response.data[i])
  {
  }

  // ---------------------------------------------------------------------------
  // Signing private calls
  // ---------------------------------------------------------------------------

  /** A request-parameter object: its keys in insertion order, each with its string value. */
  type Params = seq<(string, string)>

  function Keys(params: Params): (keys: seq<string>)
    ensures |keys| == |params|
    ensures forall i :: 0 <= i < |params| ==> keys[i] == params[i].0
  {
    seq(|params|, i requires 0 <= i < |params| => params[i].0)
  }

  predicate DistinctKeys(params: Params)
  {
    forall i, j :: 0 <= i < j < |params| ==> params[i].0 != params[j].0
  }

  function Lookup(params: Params, key: string): (v: Option<string>)
    ensures v.Some? <==> key in Keys(params)
    ensures v.Some? ==> (key, v.value) in params
  {
    if params == [] then None
    else if params[|params| - 1].0 == key then Some(params[|params| - 1].1)
    else Lookup(params[..|params| - 1], key)
  }

  /** In a parameter object with distinct keys, a key's lookup is the value paired with it. */
  lemma LookupUnique(params: Params, key: string, value: string)
    requires DistinctKeys(params) && (key, value) in params
    ensures Lookup(params, key) == Some(value)
  {
    var i :| 0 <= i < |params| && params[i] == (key, value);
    assert key in Keys(params) by {
      assert Keys(params)[i] == key;
    }
    var found := Lookup(params, key).value;
    var j :| 0 <= j < |params| && params[j] == (key, found);
    assert i == j;
  }

  /** The position of a key that the object has. */
  function IndexOf(params: Params, key: string): (i: nat)
    requires key in Keys(params)
    ensures i < |params| && params[i].0 == key
  {
    if params[0].0 == key then 0 else 1 + IndexOf(params[1..], key)
  }

  /** `params[key] = value`: an existing key keeps its place and takes the new value, a new
      key is appended. */
  function SetParam(params: Params, key: string, value: string): (r: Params)
    requires DistinctKeys(params)
    ensures DistinctKeys(r)
    ensures Lookup(r, key) == Some(value)
    ensures forall k :: k != key ==> Lookup(r, k) == Lookup(params, k)
    ensures multiset(Keys(r)) == multiset(Keys(params)) + if key in Keys(params) then multiset{} else multiset{key}
  {
    var r := if key in Keys(params) then params[IndexOf(params, key) := (key, value)] else params + [(key, value)];
    SetParamFacts(params, key, value, r);
    r
  }

  lemma SetParamFacts(params: Params, key: string, value: string, r: Params)
    requires DistinctKeys(params)
    requires r == if key in Keys(params) then params[IndexOf(params, key) := (key, value)] else params + [(key, value)]
    ensures DistinctKeys(r)
    ensures Lookup(r, key) == Some(value)
    ensures forall k :: k != key ==> Lookup(r, k) == Lookup(params, k)
    ensures multiset(Keys(r)) == multiset(Keys(params)) + if key in Keys(params) then multiset{} else multiset{key}
  {
    if key in Keys(params) {
      var i := IndexOf(params, key);
      assert Keys(r) == Keys(params);
      assert r[i] == (key, value);
      LookupUnique(r, key, value);
      forall k | k != key
        ensures Lookup(r, k) == Lookup(params, k)
      {
        if k in Keys(params) {
          var w := Lookup(params, k).value;
          var j :| 0 <= j < |params| && params[j] == (k, w);
          assert r[j] == (k, w);
          LookupUnique(r, k, w);
        }
      }
    } else {
      assert Keys(r) == Keys(params) + [key];
      LookupAppend(params, key, value);
    }
  }

  lemma LookupAppend(params: Params, key: string, value: string)
    ensures Lookup(params + [(key, value)], key) == Some(value)
    ensures forall k :: k != key ==> Lookup(params + [(key, value)], k) == Lookup(params, k)
  {
    assert (params + [(key, value)])[..|params|] == params;
  }

  /** `a <= b` in the default string order of `Array.prototype.sort`: character by character,
      a proper prefix first. */
  predicate KeyLe(a: string, b: string)
  {
    a == [] || (b != [] && (a[0] < b[0] || (a[0] == b[0] && KeyLe(a[1..], b[1..]))))
  }

  lemma {:induction false} KeyLeTotal(a: string, b: string)
    ensures KeyLe(a, b) || KeyLe(b, a)
  {
    if a != [] && b != [] && a[0] == b[0] {
      KeyLeTotal(a[1..], b[1..]);
    }
  }

  predicate SortedKeys(keys: seq<string>)
  {
    forall i :: 0 < i < |keys| ==> KeyLe(keys[i - 1], keys[i])
  }

  /** One step of the insertion sort that orders the keys. */
  function InsertKey(key: string, sorted: seq<string>): (r: seq<string>)
    ensures |r| == |sorted| + 1
    ensures multiset(r) == multiset(sorted) + multiset{key}
    ensures r[0] == key || (sorted != [] && r[0] == sorted[0])
  {
    if sorted == [] || KeyLe(key, sorted[0]) then [key] + sorted
    else
      assert sorted == [sorted[0]] + sorted[1..];
      [sorted[0]] + InsertKey(key, sorted[1..])
  }

  /** Inserting into an ordered sequence keeps it ordered. */
  lemma {:induction false} InsertKeySorted(key: string, sorted: seq<string>)
    requires SortedKeys(sorted)
    ensures SortedKeys(InsertKey(key, sorted))
  {
    if sorted != [] && !KeyLe(key, sorted[0]) {
      KeyLeTotal(key, sorted[0]);
      var rest := sorted[1..];
      assert SortedKeys(rest) by {
        forall i | 0 < i < |rest|
          ensures KeyLe(rest[i - 1], rest[i])
        {
          assert rest[i - 1] == sorted[i] && rest[i] == sorted[i + 1];
        }
      }
      InsertKeySorted(key, rest);
      var tail := InsertKey(key, rest);
      assert KeyLe(sorted[0], tail[0]) by {
        if tail[0] != key {
          assert tail[0] == sorted[1];
        }
      }
      var r := [sorted[0]] + tail;
      assert r == InsertKey(key, sorted);
      forall i | 0 < i < |r|
        ensures KeyLe(r[i - 1], r[i])
      {
        if i > 1 {
          assert r[i - 1] == tail[i - 2] && r[i] == tail[i - 1];
        }
      }
    }
  }

  /** `Object.keys(params).sort()`: the keys in ascending order. */
  function SortKeys(keys: seq<string>): (r: seq<string>)
    ensures SortedKeys(r)
    ensures multiset(r) == multiset(keys)
  {
    if keys == [] then []
    else
      assert keys == [keys[0]] + keys[1..];
      InsertKeySorted(keys[0], SortKeys(keys[1..]));
      InsertKey(keys[0], SortKeys(keys[1..]))
  }

  /** Strings joined with a separator, as `Array.prototype.join`. */
  function Join(parts: seq<string>, separator: string): string
  {
    if parts == [] then "" else if |parts| == 1 then parts[0] else parts[0] + separator + Join(parts[1..], separator)
  }

  /** The `key=value` pairs of a parameter object, in ascending key order. */
  function QueryPairs(params: Params): (pairs: seq<string>)
    ensures |pairs| == |params|
  {
    var keys := SortKeys(Keys(params));
    assert |keys| == |params| by {
      assert |multiset(keys)| == |multiset(Keys(params))|;
    }
    assert forall i :: 0 <= i < |keys| ==> keys[i] in Keys(params) by {
      forall i | 0 <= i < |keys|
        ensures keys[i] in Keys(params)
      {
        assert keys[i] in multiset(keys);
      }
    }
    seq(|keys|, i requires 0 <= i < |keys| => keys[i] + "=" + Lookup(params, keys[i]).value)
  }

  /** The `i`-th pair of the query renders the `i`-th key in ascending order with its value. */
  lemma QueryPairAt(params: Params, i: nat) returns (pair: string)
    requires i < |SortKeys(Keys(params))|
    ensures i < |QueryPairs(params)| && pair == QueryPairs(params)[i]
    ensures var key := SortKeys(Keys(params))[i];
      key in Keys(params) && pair == key + "=" + Lookup(params, key).value
  {
    var keys := SortKeys(Keys(params));
    assert keys[i] in multiset(keys);
    pair := QueryPairs(params)[i];
  }

  /** The query string: the sorted `key=value` pairs joined by `&`. */
  function QueryString(params: Params): string
  {
    Join(QueryPairs(params), "&")
  }

  /** The string the signature covers: the endpoint, a NUL character and the query string. */
  function SigningPayload(endpoint: string, queryString: string): string
  {
    endpoint + "\0" + queryString
  }

  datatype Credentials = Credentials(apiKey: Option<string>, apiSecret: Option<string>)

  /** The headers and body of a signed private call. */
  datatype SignedRequest = SignedRequest(apiKey: string, apiSign: string, apiNonce: string, contentType: string, body: string)

  const MissingCredentialsMessage := "API Key and Secret are required for private API calls"
  const FormContentType := "application/x-www-form-urlencoded"

  /** A configured credential: present and not the empty string. */
  predicate Configured(value: Option<string>)
  {
    value.Some? && value.value != ""
  }

  /** `sign`: adds the nonce (the current time in milliseconds, as decimal text) to the
      parameters, builds the sorted query string, and signs `endpoint + "\0" + query` with
      `hmacSha512(secret, payload)`, the base64 HMAC-SHA512 that is not modelled. */
  function Sign(credentials: Credentials, endpoint: string, params: Params, now: nat,
                hmacSha512: (string, string) -> string): (r: Result<SignedRequest>)
    requires DistinctKeys(params)
    ensures r.Err? <==> !Configured(credentials.apiKey) || !Configured(credentials.apiSecret)
    ensures r.Err? ==> r.message == MissingCredentialsMessage
    ensures r.Ok? ==> r.value.apiNonce == NatToString(now)
    ensures r.Ok? ==> r.value.body == QueryString(SetParam(params, "nonce", r.value.apiNonce))
    ensures r.Ok? ==> r.value.apiSign == hmacSha512(credentials.apiSecret.value, SigningPayload(endpoint, r.value.body))
    ensures r.Ok? ==> r.value.apiKey == credentials.apiKey.value && r.value.contentType == FormContentType
  {
    if !Configured(credentials.apiKey) || !Configured(credentials.apiSecret) then Err(MissingCredentialsMessage)
    else
      var nonce := NatToString(now);
      var signedParams := SetParam(params, "nonce", nonce);
      var queryString := QueryString(signedParams);
      var signature := hmacSha512(credentials.apiSecret.value, SigningPayload(endpoint, queryString));
      Ok(SignedRequest(credentials.apiKey.value, signature, nonce, FormContentType, queryString))
  }

  /** The signed query string lists every parameter and the nonce exactly once, in ascending
      key order, with `nonce=<nonce>` among its pairs. */
  lemma SignedQueryCoversParams(params: Params, nonce: string)
    requires DistinctKeys(params)
    ensures var signed := SetParam(params, "nonce", nonce);
      SortedKeys(SortKeys(Keys(signed)))
      && multiset(SortKeys(Keys(signed))) == multiset(Keys(params)) + (if "nonce" in Keys(params) then multiset{} else multiset{"nonce"})
      && "nonce" + "=" + nonce in QueryPairs(signed)
  {
    var signed := SetParam(params, "nonce", nonce);
    var keys := SortKeys(Keys(signed));
    assert "nonce" in multiset(keys) by {
      assert "nonce" in multiset(Keys(signed));
    }
    var i :| 0 <= i < |keys| && keys[i] == "nonce";
    var pair := QueryPairAt(signed, i);
    assert pair == "nonce" + "=" + nonce;
  }

  // ---------------------------------------------------------------------------
  // Orders
  // ---------------------------------------------------------------------------

  datatype Side = Buy | Sell
  datatype OrderType = Market | Limit

  function SideText(side: Side): string
  {
    match side
    case Buy => "buy"
    case Sell => "sell"
  }

  datatype OrderRequest = OrderRequest(symbol: string, side: Side, orderType: OrderType, quantity: real, price: Option<real>)

  /** A JavaScript-truthy optional price: present and not zero. */
  predicate HasPrice(order: OrderRequest)
  {
    order.price.Some? && order.price.value != 0.0
  }

  /** The parameter names of an order differ pairwise. */
  lemma OrderKeyNamesDistinct()
    ensures "order_currency" != "payment_currency" && "order_currency" != "type" && "order_currency" != "units"
    ensures "payment_currency" != "type" && "payment_currency" != "units" && "type" != "units"
    ensures "price" != "order_currency" && "price" != "payment_currency" && "price" != "type" && "price" != "units"
  {
    assert "order_currency"[0] == 'o' && "payment_currency"[1] == 'a' && "type"[0] == 't';
    assert "units"[0] == 'u' && "price"[1] == 'r';
  }

  /** The parameters every order carries, before its optional price. */
  function OrderBase(order: OrderRequest, numberText: real -> string): (base: Params)
    ensures DistinctKeys(base)
    ensures Lookup(base, "order_currency") == Some(order.symbol)
    ensures Lookup(base, "payment_currency") == Some("KRW")
    ensures Lookup(base, "type") == Some(SideText(order.side))
    ensures Lookup(base, "units") == Some(numberText(order.quantity))
    ensures "price" !in Keys(base)
  {
    var base := [("order_currency", order.symbol), ("payment_currency", "KRW"),
                 ("type", SideText(order.side)), ("units", numberText(order.quantity))];
    OrderKeyNamesDistinct();
    assert DistinctKeys(base);
    assert Keys(base) == ["order_currency", "payment_currency", "type", "units"];
    LookupUnique(base, "order_currency", order.symbol);
    LookupUnique(base, "payment_currency", "KRW");
    LookupUnique(base, "type", SideText(order.side));
    LookupUnique(base, "units", numberText(order.quantity));
    base
  }

  /** `placeOrder`'s parameter object; `numberText` is `Number.prototype.toString`, which is
      not modelled. */
  function PlaceOrderParams(order: OrderRequest, numberText: real -> string): (params: Params)
    ensures DistinctKeys(params)
    ensures Lookup(params, "order_currency") == Some(order.symbol)
    ensures Lookup(params, "payment_currency") == Some("KRW")
    ensures Lookup(params, "type") == Some(SideText(order.side))
    ensures Lookup(params, "units") == Some(numberText(order.quantity))
    ensures "price" in Keys(params) <==> order.orderType == Limit && HasPrice(order)
    ensures "price" in Keys(params) ==> Lookup(params, "price") == Some(numberText(order.price.value))
  {
    var base := OrderBase(order, numberText);
    if order.orderType == Limit && HasPrice(order) then SetParam(base, "price", numberText(order.price.value))
    else base
  }

  /** A market order never carries a price, whatever price it was given. */
  lemma MarketOrderHasNoPrice(order: OrderRequest, numberText: real -> string)
    requires order.orderType == Market
    ensures Lookup(PlaceOrderParams(order, numberText), "price") == None
  {
  }

  /** The signed request of `placeOrder` for the `/trade/place` endpoint. */
  function PlaceOrderRequest(credentials: Credentials, order: OrderRequest, now: nat,
                             hmacSha512: (string, string) -> string, numberText: real -> string): (r: Result<SignedRequest>)
    ensures r.Err? <==> !Configured(credentials.apiKey) || !Configured(credentials.apiSecret)
    ensures r.Ok? ==> r.value.body == QueryString(SetParam(PlaceOrderParams(order, numberText), "nonce", NatToString(now)))
  {
    Sign(credentials, "/trade/place", PlaceOrderParams(order, numberText), now, hmacSha512)
  }

  // ---------------------------------------------------------------------------
  // Korean names
  // ---------------------------------------------------------------------------

  const KoreanNames: map<string, string> := map[
      "BTC" := "비트코인", "ETH" := "이더리움", "XRP" := "리플", "ADA" := "에이다",
      "SOL" := "솔라나", "DOGE" := "도지코인", "DOT" := "폴카닷", "MATIC" := "폴리곤",
      "AVAX" := "아발란체", "LINK" := "체인링크", "BCH" := "비트코인캐시", "LTC" := "라이트코인",
      "ATOM" := "코스모스", "NEAR" := "니어프로토콜", "ALGO" := "알고랜드", "TRX" := "트론",
      "ETC" := "이더리움클래식", "SAND" := "샌드박스", "MANA" := "디센트럴랜드", "AXS" := "엑시인피니티",
      "CHZ" := "칠리즈", "THETA" := "쎄타토큰", "VET" := "비체인", "FIL" := "파일코인",
      "HBAR" := "헤데라", "ICP" := "인터넷컴퓨터", "EOS" := "이오스", "AAVE" := "에이브",
      "MKR" := "메이커", "COMP" := "컴파운드", "UNI" := "유니스왑", "SUSHI" := "스시스왑",
      "SNX" := "신세틱스", "GRT" := "더그래프", "ENJ" := "엔진코인", "BAT" := "베이직어텐션토큰",
      "ZRX" := "제로엑스", "CRV" := "커브", "YFI" := "연파이낸스", "1INCH" := "원인치",
      "ANKR" := "앵커", "BAL" := "밸런서", "CVC" := "시빅", "KNC" := "카이버네트워크",
      "LRC" := "루프링", "OMG" := "오미세고", "QTUM" := "퀀텀", "ZIL" := "질리카",
      "ICX" := "아이콘", "KLAY" := "클레이튼", "WEMIX" := "위믹스", "BORA" := "보라",
      "FLOW" := "플로우", "APT" := "앱토스", "ARB" := "아비트럼", "SUI" := "수이",
      "SEI" := "세이", "STRK" := "스타크넷", "BLUR" := "블러", "INJ" := "인젝티브",
      "IMX" := "이뮤터블엑스", "RNDR" := "렌더토큰", "FTM" := "팬텀", "OP" := "옵티미즘",
      "SHIB" := "시바이누", "PEPE" := "페페", "FLOKI" := "플로키", "BONK" := "봉크",
      "WLD" := "월드코인", "PYTH" := "피스네트워크", "TIA" := "셀레스티아", "JTO" := "지토",
      "JUP" := "주피터", "DYM" := "디뮴", "MANTA" := "만타", "ALT" := "알트레이어",
      "BICO" := "비코노미"
    ]

  /** `getKoreanName`: the mapped name, or the symbol itself when it has none. */
  function KoreanName(symbol: string): (name: string)
    ensures symbol in KoreanNames ==> name == KoreanNames[symbol]
    ensures symbol !in KoreanNames ==> name == symbol
  {
    // every mapped name is non-empty, so `nameMap[symbol] || symbol` falls back only when unmapped
    if symbol in KoreanNames then KoreanNames[symbol] else symbol
  }
}
