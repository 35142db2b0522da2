/**
 * The Binance adapter: the symbol codec over the table Run builds, the
 * signed request (payload assembly, GET-versus-body placement and the
 * status classification of the reply), the per-endpoint request counter
 * over a 90-second window, the order normaliser, the open-orders and
 * balance readers, and the order-book cache check.
 */
module Binance {
  import opened Wrappers
  import opened Text
  import opened Pairs
  import opened Exchange
  import opened Orderbook

  const ExchangeName: string := "Binance"
  const BaseURL: string := "https://www.binance.com/"
  const AccountPath: string := "api/v3/account"
  const OpenOrdersPath: string := "api/v3/openOrders"
  const PostOrderPath: string := "api/v3/order"
  const PostOrderTestPath: string := "api/v3/order/test"
  const MethodGet: string := "GET"
  const MethodPost: string := "POST"

  /** The recvWindow every signed request carries, in milliseconds. */
  const RecvWindow: int := 5000
  /** A request counter's window, in seconds; a window older than this starts over. */
  const WindowSeconds: int := 90

  // The exchange's order status vocabulary. REPLACED is the value the
  // normaliser matches as OrderStatusReplaced, a name the types file never declares.
  const StatusNew: string := "NEW"
  const StatusPartiallyFilled: string := "PARTIALLY_FILLED"
  const StatusFilled: string := "FILLED"
  const StatusCanceled: string := "CANCELED"
  const StatusPendingCancel: string := "PENDING_CANCEL"
  const StatusRejected: string := "REJECTED"
  const StatusExpired: string := "EXPIRED"
  const StatusReplaced: string := "REPLACED"

  const SideBuyCode: string := "BUY"
  const SideSellCode: string := "SELL"
  const TypeLimit: string := "LIMIT"

  // ----------------------------------------------------------------- codec

  /** CurrencyPairToSymbol: no delimiter, upper case: the two codes side by side. */
  function CurrencyPairToSymbol(p: Pair): (r: string)
    ensures r == Upper(p.first) + Upper(p.second)
    ensures |r| == |p.first| + |p.second|
  {
    DisplayJoined(p, true);
    Display(p, "", true)
  }

  /**
   * SymbolToCurrencyPair: a lookup in the table Run built; the pair found is
   * answered in upper case, and a symbol the table lacks is an error naming it.
   */
  function SymbolToCurrencyPair(currencyPairs: map<string, CurrencyPairInfo>, symbol: string): (r: Result<Pair, Error>)
    ensures r.Ok? <==> symbol in currencyPairs
    ensures r.Ok? ==> r.value == FormatPair(currencyPairs[symbol].currency, true)
    ensures r.Err? ==> r.error == Message("no currency pair found for '" + symbol + "' symbol")
  {
    if symbol in currencyPairs then Ok(FormatPair(currencyPairs[symbol].currency, true))
    else Err(Message("no currency pair found for '" + symbol + "' symbol"))
  }

  // ------------------------------------------------------------- table build

  /** One entry of the exchange information Run fetches. */
  datatype SymbolInfo = SymbolInfo(symbol: string, baseAsset: string, quoteAsset: string)

  /** currencyPairs as Run leaves it: every symbol with its (base, quote) pair, a later symbol replacing an earlier one. */
  function PairTable(ss: seq<SymbolInfo>): map<string, CurrencyPairInfo>
    decreases |ss|
  {
    if ss == [] then map[]
    else
      var s := ss[|ss| - 1];
      PairTable(ss[..|ss| - 1])[s.symbol := CurrencyPairInfo(Pair(s.baseAsset, s.quoteAsset), "", "")]
  }

  /**
   * The table holds exactly the fetched symbols, and a symbol no later entry
   * repeats converts back to its base and quote assets in upper case.
   */
  lemma {:induction false} PairTableExact(ss: seq<SymbolInfo>, i: nat)
    requires i < |ss|
    requires forall j :: i < j < |ss| ==> ss[j].symbol != ss[i].symbol
    ensures ss[i].symbol in PairTable(ss)
    ensures SymbolToCurrencyPair(PairTable(ss), ss[i].symbol) == Ok(FormatPair(Pair(ss[i].baseAsset, ss[i].quoteAsset), true))
    decreases |ss|
  {
    if i < |ss| - 1 {
      var init := ss[..|ss| - 1];
      assert init[i] == ss[i];
      forall j | i < j < |init| ensures init[j].symbol != init[i].symbol {
        assert init[j] == ss[j];
      }
      PairTableExact(init, i);
    }
  }

  /** A symbol the fetch did not list is not in the table, so it does not convert. */
  lemma {:induction false} UnlistedSymbolFails(ss: seq<SymbolInfo>, symbol: string)
    requires forall j :: 0 <= j < |ss| ==> ss[j].symbol != symbol
    ensures SymbolToCurrencyPair(PairTable(ss), symbol).Err?
    decreases |ss|
  {
    if ss != [] {
      var init := ss[..|ss| - 1];
      forall j | 0 <= j < |init| ensures init[j].symbol != symbol {
        assert init[j] == ss[j];
      }
      UnlistedSymbolFails(init, symbol);
    }
  }

  /**
   * The codec's round trip: when the exchange names a market by its base and
   * quote assets run together in upper case, the symbol of the pair it
   * converts to converts back to that pair.
   */
  lemma SymbolRoundTrip(ss: seq<SymbolInfo>, i: nat)
    requires i < |ss|
    requires forall j :: i < j < |ss| ==> ss[j].symbol != ss[i].symbol
    requires ss[i].symbol == Display(Pair(ss[i].baseAsset, ss[i].quoteAsset), "", true)
    ensures var p := FormatPair(Pair(ss[i].baseAsset, ss[i].quoteAsset), true);
            SymbolToCurrencyPair(PairTable(ss), CurrencyPairToSymbol(p)) == Ok(p)
  {
    PairTableExact(ss, i);
    SymbolOfUpperPair(ss[i].baseAsset, ss[i].quoteAsset);
  }

  /** Upper-casing the pair first does not change its symbol. */
  lemma SymbolOfUpperPair(base: string, quote: string)
    ensures CurrencyPairToSymbol(FormatPair(Pair(base, quote), true)) == Display(Pair(base, quote), "", true)
  {
    var p := FormatPair(Pair(base, quote), true);
    assert p == Pair(Upper(base), Upper(quote));
    assert base + "" + quote == base + quote;
    assert p.first + "" + p.second == p.first + p.second;
    CasedAppend(base, quote, true);
    CasedAppend(p.first, p.second, true);
    UpperIdempotent(base);
    UpperIdempotent(quote);
  }

  // ----------------------------------------------------------- signed requests

  /** The error record the exchange answers with outside the 2xx range. */
  datatype ErrorInfo = ErrorInfo(code: int, message: string)

  datatype HTTPRequest = HTTPRequest(httpMethod: string, url: string, headers: map<string, string>, body: Option<string>)
  datatype HTTPReply = HTTPReply(body: string, statusCode: int)

  /**
   * What a signed request runs on: the hex HMAC-SHA256 of a payload under a
   * secret, the HTTP exchange, and the JSON decoders for the result and for
   * the error record.
   */
  datatype Transport<T> = Transport(
    sign: (string, string) -> string,
    send: HTTPRequest -> Result<HTTPReply, Error>,
    decode: string -> Option<T>,
    decodeError: string -> Option<ErrorInfo>)

  /** The exchange's error code, the error, and the value left in the caller's result. */
  datatype Answer<T> = Answer(code: int, err: Option<Error>, result: T)

  /** The text that is signed: the encoded parameters when there are any, then the timestamp and the receive window. */
  function UnsignedPayload(params: Option<string>, timestamp: int): string
  {
    (if params.Some? then params.value + "&" else "") + "timestamp=" + FormatInt(timestamp) + "&recvWindow=" + FormatInt(RecvWindow)
  }

  /** The payload as sent: the signed text followed by its signature. */
  function SignedPayload(params: Option<string>, timestamp: int, signature: string): string
  {
    UnsignedPayload(params, timestamp) + "&signature=" + signature
  }

  function Headers(apiKey: string): map<string, string>
  {
    map["Content-Type" := "application/x-www-form-urlencoded", "Accept" := "application/json", "X-MBX-APIKEY" := apiKey]
  }

  /** A GET carries the payload in its query string; every other method carries it as the body. */
  function RequestFor(httpMethod: string, path: string, payload: string, apiKey: string): (r: HTTPRequest)
    ensures r.body.None? <==> httpMethod == MethodGet
    ensures r.body.None? ==> r.url == BaseURL + path + "?" + payload
    ensures r.body.Some? ==> r.url == BaseURL + path && r.body.value == payload
    ensures r.httpMethod == httpMethod && r.headers == Headers(apiKey)
  {
    if httpMethod == MethodGet then HTTPRequest(httpMethod, BaseURL + path + "?" + payload, Headers(apiKey), None)
    else HTTPRequest(httpMethod, BaseURL + path, Headers(apiKey), Some(payload))
  }

  predicate Success(statusCode: int)
  {
    200 <= statusCode <= 299
  }

  /**
   * How a reply is read: a 2xx status decodes the result; any other status
   * decodes the error record and answers with its code and message. Each
   * decoding failure has its own error, and only the first one keeps the
   * status code.
   */
  function Classify<T>(reply: HTTPReply, t: Transport<T>, initial: T): (r: Answer<T>)
    ensures r.err.None? <==> Success(reply.statusCode) && t.decode(reply.body).Some?
    ensures r.err.None? ==> r == Answer(0, None, t.decode(reply.body).value)
    ensures Success(reply.statusCode) && t.decode(reply.body).None? ==>
              r == Answer(reply.statusCode, Some(Message("failed to unmarshal response")), initial)
    ensures !Success(reply.statusCode) && t.decodeError(reply.body).None? ==>
              r == Answer(0, Some(Message("failed to unmarshal error info")), initial)
    ensures !Success(reply.statusCode) && t.decodeError(reply.body).Some? ==>
              r == Answer(t.decodeError(reply.body).value.code, Some(Message(t.decodeError(reply.body).value.message)), initial)
  {
    if Success(reply.statusCode) then
      match t.decode(reply.body)
      case Some(v) => Answer(0, None, v)
      case None => Answer(reply.statusCode, Some(Message("failed to unmarshal response")), initial)
    else
      match t.decodeError(reply.body)
      case Some(info) => Answer(info.code, Some(Message(info.message)), initial)
      case None => Answer(0, Some(Message("failed to unmarshal error info")), initial)
  }

  /** The request a signed call sends at clock `nowNanos`: the millisecond timestamp, signed with the secret. */
  function SignedRequestFor<T>(apiKey: string, apiSecret: string, httpMethod: string, path: string,
                               params: Option<string>, nowNanos: int, t: Transport<T>): HTTPRequest
  {
    var unsigned := UnsignedPayload(params, Quo(nowNanos, 1000 * 1000));
    RequestFor(httpMethod, path, unsigned + "&signature=" + t.sign(unsigned, apiSecret), apiKey)
  }

  /**
   * SendAuthenticatedHTTPRequest: without credentials nothing is sent; a
   * failed exchange answers with code 0 and its error; otherwise the reply
   * is classified.
   */
  function Authenticated<T>(authenticated: bool, apiKey: string, apiSecret: string, httpMethod: string, path: string,
                            params: Option<string>, nowNanos: int, t: Transport<T>, initial: T): (r: Answer<T>)
    ensures !authenticated ==> r == Answer(0, Some(NoCredentials(ExchangeName)), initial)
    ensures authenticated && t.send(SignedRequestFor(apiKey, apiSecret, httpMethod, path, params, nowNanos, t)).Err? ==>
              r == Answer(0, Some(t.send(SignedRequestFor(apiKey, apiSecret, httpMethod, path, params, nowNanos, t)).error), initial)
    ensures r.err.None? ==> r.code == 0 && authenticated
  {
    if !authenticated then Answer(0, Some(NoCredentials(ExchangeName)), initial)
    else
      match t.send(SignedRequestFor(apiKey, apiSecret, httpMethod, path, params, nowNanos, t))
      case Err(e) => Answer(0, Some(e), initial)
      case Ok(reply) => Classify(reply, t, initial)
  }

  /**
   * Without parameters the timestamp is the first field of the payload, and
   * reading it back between the first '=' and the next '&' gives the clock
   * reading it was formatted from.
   */
  lemma SignedTimestampReadsBack(timestamp: int, signature: string)
    requires MinInt64 <= timestamp <= MaxInt64
    ensures ParseInt(Before(After(SignedPayload(None, timestamp, signature), '='), '&')) == Parsed(timestamp, true)
  {
    var digits := FormatInt(timestamp);
    var rest := "recvWindow=" + FormatInt(RecvWindow) + "&signature=" + signature;
    var tail := digits + ['&'] + rest;
    PayloadShape(timestamp, signature, rest);
    AfterJoined("timestamp", '=', tail);
    FormatIntChars(timestamp, '&');
    BeforeJoined(digits, '&', rest);
    ParseFormat(timestamp);
  }

  lemma PayloadShape(timestamp: int, signature: string, rest: string)
    requires rest == "recvWindow=" + FormatInt(RecvWindow) + "&signature=" + signature
    ensures SignedPayload(None, timestamp, signature) == "timestamp" + ['='] + (FormatInt(timestamp) + ['&'] + rest)
  {
    FieldsShape(FormatInt(timestamp), FormatInt(RecvWindow), signature);
  }

  lemma FieldsShape(digits: string, window: string, signature: string)
    ensures "" + "timestamp=" + digits + "&recvWindow=" + window + "&signature=" + signature
            == "timestamp" + ['='] + (digits + ['&'] + ("recvWindow=" + window + "&signature=" + signature))
  {
    assert "timestamp=" == "timestamp" + ['='];
    assert "&recvWindow=" == ['&'] + "recvWindow=";
  }

  /** The signature is the last field: it signs the whole text before it, which ends with the receive window. */
  lemma SignatureCoversPayload(params: Option<string>, timestamp: int, signature: string)
    ensures var s := SignedPayload(params, timestamp, signature);
            var u := UnsignedPayload(params, timestamp);
            s[..|u|] == u && s[|u|..] == "&signature=" + signature
            && u[|u| - |"&recvWindow=" + FormatInt(RecvWindow)|..] == "&recvWindow=" + FormatInt(RecvWindow)
  {
    var u := UnsignedPayload(params, timestamp);
    var w := "&recvWindow=" + FormatInt(RecvWindow);
    var front := (if params.Some? then params.value + "&" else "") + "timestamp=" + FormatInt(timestamp);
    assert u == front + w;
    assert u[|front|..] == w;
  }

  /** A failure of any kind never answers with a nil error, and the only code a success carries is 0. */
  lemma AnswerCodes<T>(authenticated: bool, apiKey: string, apiSecret: string, httpMethod: string, path: string,
                       params: Option<string>, nowNanos: int, t: Transport<T>, initial: T)
    requires authenticated
    ensures var req := SignedRequestFor(apiKey, apiSecret, httpMethod, path, params, nowNanos, t);
            var r := Authenticated(authenticated, apiKey, apiSecret, httpMethod, path, params, nowNanos, t, initial);
            r.err.None? <==> t.send(req).Ok? && Success(t.send(req).value.statusCode) && t.decode(t.send(req).value.body).Some?
  {
  }

  // ------------------------------------------------------------ rate limiting

  /** rateLimitInfo: when the current window opened and how many requests it has admitted. */
  datatype RateLimitInfo = RateLimitInfo(startTime: int, requestCount: nat)

  /** The record of an endpoint; one not seen yet is created with a start time of 0. */
  function Record(rateLimits: map<string, RateLimitInfo>, key: string): RateLimitInfo
  {
    if key in rateLimits then rateLimits[key] else RateLimitInfo(0, 0)
  }

  /** The record once the window rule has run: a window never opened, or older than 90 s, starts over at `now`. */
  function Windowed(r: RateLimitInfo, now: int): (w: RateLimitInfo)
    ensures w.startTime != 0 && w.startTime == r.startTime && now - w.startTime <= WindowSeconds ==> w == r
    ensures r.startTime == 0 || now - r.startTime > WindowSeconds ==> w == RateLimitInfo(now, 0)
  {
    if r.startTime == 0 || now - r.startTime > WindowSeconds then RateLimitInfo(now, 0) else r
  }

  /** Whether a call at `now` is let through. */
  predicate Admits(r: RateLimitInfo, requestsPerMin: nat, now: int)
  {
    Windowed(r, now).requestCount < requestsPerMin
  }

  /** The record after a call at `now`: counted when admitted, whatever the request then does. */
  function Step(r: RateLimitInfo, requestsPerMin: nat, now: int): (s: RateLimitInfo)
    ensures s.startTime == Windowed(r, now).startTime
    ensures Admits(r, requestsPerMin, now) <==> s.requestCount == Windowed(r, now).requestCount + 1
    ensures s.requestCount <= requestsPerMin || s == Windowed(r, now)
  {
    var w := Windowed(r, now);
    if w.requestCount < requestsPerMin then w.(requestCount := w.requestCount + 1) else w
  }

  /** The record after calls at the clock readings `times`, and how many of them were admitted. */
  function Replay(r: RateLimitInfo, requestsPerMin: nat, times: seq<int>): (RateLimitInfo, nat)
    decreases |times|
  {
    if times == [] then (r, 0)
    else
      var rest := Replay(Step(r, requestsPerMin, times[0]), requestsPerMin, times[1..]);
      (rest.0, rest.1 + if Admits(r, requestsPerMin, times[0]) then 1 else 0)
  }

  /**
   * Within one open window a record admits no more than what is left of its
   * quota: the admitted calls and the count it started with never exceed
   * requestsPerMin, and the window keeps its start time.
   */
  lemma {:induction false} WindowCap(r: RateLimitInfo, requestsPerMin: nat, times: seq<int>)
    requires r.startTime != 0 && r.requestCount <= requestsPerMin
    requires forall k :: 0 <= k < |times| ==> times[k] - r.startTime <= WindowSeconds
    ensures Replay(r, requestsPerMin, times).1 + r.requestCount <= requestsPerMin
    ensures Replay(r, requestsPerMin, times).0.startTime == r.startTime
    decreases |times|
  {
    if times != [] {
      var next := Step(r, requestsPerMin, times[0]);
      assert Windowed(r, times[0]) == r;
      WindowCap(next, requestsPerMin, times[1..]);
    }
  }

  /**
   * An endpoint seen for the first time, called at a clock past the epoch and
   * then again within the next 90 s, is let through at most requestsPerMin times.
   */
  lemma FirstWindowCap(rateLimits: map<string, RateLimitInfo>, key: string, requestsPerMin: nat, times: seq<int>)
    requires key !in rateLimits && |times| >= 1 && times[0] != 0
    requires forall k :: 0 <= k < |times| ==> times[k] - times[0] <= WindowSeconds
    ensures Replay(Record(rateLimits, key), requestsPerMin, times).1 <= requestsPerMin
  {
    var r := Record(rateLimits, key);
    var next := Step(r, requestsPerMin, times[0]);
    WindowCap(next, requestsPerMin, times[1..]);
  }

  /** A call made when the window is more than 90 s old is let through, whatever the count was. */
  lemma StaleWindowAdmits(r: RateLimitInfo, requestsPerMin: nat, now: int)
    requires requestsPerMin > 0 && now - r.startTime > WindowSeconds
    ensures Admits(r, requestsPerMin, now)
    ensures Step(r, requestsPerMin, now) == RateLimitInfo(now, 1)
  {
  }

  // ----------------------------------------------------------------- post order

  /** PostOrderParams, with the amounts exact. */
  datatype PostOrderParams = PostOrderParams(
    symbol: string, side: string, orderType: string, timeInForce: string,
    quantity: real, price: real, newClientOrderID: string, stopPrice: real, icebergQty: real, validateOnly: bool)

  /** A field that is sent only when it is set. */
  function PutIf(v: map<string, string>, isSet: bool, key: string, value: string): (r: map<string, string>)
    ensures r.Keys == v.Keys + (if isSet then {key} else {})
    ensures isSet ==> r[key] == value
    ensures forall k :: k in v && k != key ==> r[k] == v[k]
  {
    if isSet then v[key := value] else v
  }

  /** The fields PostOrderAck always sends: the caller's six and the ACK response type. */
  function FixedFields(params: PostOrderParams, formatFloat: real -> string): (v: map<string, string>)
    ensures v.Keys == {"symbol", "side", "type", "timeInForce", "quantity", "price", "newOrderRespType"}
    ensures "newOrderRespType" in v && v["newOrderRespType"] == "ACK"
    ensures "symbol" in v && v["symbol"] == params.symbol
    ensures "side" in v && v["side"] == params.side
    ensures "type" in v && v["type"] == params.orderType
    ensures "timeInForce" in v && v["timeInForce"] == params.timeInForce
    ensures "quantity" in v && v["quantity"] == formatFloat(params.quantity)
    ensures "price" in v && v["price"] == formatFloat(params.price)
  {
    map["symbol" := params.symbol, "side" := params.side, "type" := params.orderType,
        "timeInForce" := params.timeInForce, "quantity" := formatFloat(params.quantity),
        "price" := formatFloat(params.price), "newOrderRespType" := "ACK"]
  }

  /**
   * PostOrderAck's form: exactly the six fixed fields, each optional field
   * only when it is set, and an ACK response type; a validate-only order goes
   * to the test endpoint.
   */
  function PostOrderForm(params: PostOrderParams, formatFloat: real -> string): (r: (string, map<string, string>))
    ensures r.0 == (if params.validateOnly then PostOrderTestPath else PostOrderPath)
    ensures "newClientOrderId" in r.1 <==> params.newClientOrderID != ""
    ensures "stopPrice" in r.1 <==> params.stopPrice != 0.0
    ensures "icebergQty" in r.1 <==> params.icebergQty != 0.0
    ensures "newOrderRespType" in r.1 && r.1["newOrderRespType"] == "ACK"
    ensures r.1.Keys == {"symbol", "side", "type", "timeInForce", "quantity", "price", "newOrderRespType"}
                        + (if params.newClientOrderID != "" then {"newClientOrderId"} else {})
                        + (if params.stopPrice != 0.0 then {"stopPrice"} else {})
                        + (if params.icebergQty != 0.0 then {"icebergQty"} else {})
    ensures "symbol" in r.1 && r.1["symbol"] == params.symbol
    ensures "side" in r.1 && r.1["side"] == params.side
    ensures "type" in r.1 && r.1["type"] == params.orderType
    ensures "timeInForce" in r.1 && r.1["timeInForce"] == params.timeInForce
    ensures "quantity" in r.1 && r.1["quantity"] == formatFloat(params.quantity)
    ensures "price" in r.1 && r.1["price"] == formatFloat(params.price)
    ensures "newClientOrderId" in r.1 ==> r.1["newClientOrderId"] == params.newClientOrderID
    ensures "stopPrice" in r.1 ==> r.1["stopPrice"] == formatFloat(params.stopPrice)
    ensures "icebergQty" in r.1 ==> r.1["icebergQty"] == formatFloat(params.icebergQty)
  {
    var v := FixedFields(params, formatFloat);
    var v := PutIf(v, params.newClientOrderID != "", "newClientOrderId", params.newClientOrderID);
    var v := PutIf(v, params.stopPrice != 0.0, "stopPrice", formatFloat(params.stopPrice));
    var v := PutIf(v, params.icebergQty != 0.0, "icebergQty", formatFloat(params.icebergQty));
    (if params.validateOnly then PostOrderTestPath else PostOrderPath, v)
  }

  // ----------------------------------------------------------------- orders

  datatype BinanceOrder = BinanceOrder(
    symbol: string, orderID: int, price: real, origQty: real, executedQty: real,
    status: string, orderType: string, side: string, time: int, isWorking: bool)

  predicate AbortedStatus(status: string)
  {
    status == StatusCanceled || status == StatusExpired || status == StatusRejected || status == StatusReplaced
  }

  /** The status rule: the terminal codes first, then the working flag. */
  function OrderStatus(status: string, isWorking: bool): (r: Exchange.Status)
    ensures r == Aborted <==> AbortedStatus(status)
    ensures r == Filled <==> status == StatusFilled
    ensures r == Active <==> !AbortedStatus(status) && status != StatusFilled && isWorking
    ensures r == Unknown <==> !AbortedStatus(status) && status != StatusFilled && !isWorking
  {
    if AbortedStatus(status) then Aborted
    else if status == StatusFilled then Filled
    else if isWorking then Active
    else Unknown
  }

  /**
   * convertOrderToExchangeOrder. The millisecond time becomes seconds by
   * Go's division, which rounds toward zero; a symbol the table lacks leaves
   * the zero pair.
   */
  function ConvertOrder(currencyPairs: map<string, CurrencyPairInfo>, o: BinanceOrder): (r: Order)
    ensures r.status == OrderStatus(o.status, o.isWorking)
    ensures r.amount == o.origQty && r.filledAmount == o.executedQty && Conserves(r)
    ensures r.rate == o.price && r.side == Lower(o.side)
    ensures r.orderType == (if o.orderType == TypeLimit then TypeExchangeLimit else Unset)
    ensures o.symbol !in currencyPairs ==> r.currencyPair == NoPair
    ensures o.time >= 0 ==> r.createdAt * 1000 <= o.time < r.createdAt * 1000 + 1000
    ensures o.time < 0 ==> r.createdAt * 1000 - 1000 < o.time <= r.createdAt * 1000
  {
    var pair := match SymbolToCurrencyPair(currencyPairs, o.symbol)
                case Ok(p) => p
                case Err(_) => NoPair;
    Order(FormatInt(o.orderID), OrderStatus(o.status, o.isWorking), o.origQty, o.executedQty, o.origQty - o.executedQty,
          o.price, Quo(o.time, 1000), pair, Lower(o.side), if o.orderType == TypeLimit then TypeExchangeLimit else Unset)
  }

  /**
   * What a normalised order gives back: the exchange's order ID parses back
   * from its text, a buy or sell code becomes the canonical side, and the
   * pair is the table's entry in upper case.
   */
  lemma ConvertOrderRecovers(currencyPairs: map<string, CurrencyPairInfo>, o: BinanceOrder)
    requires MinInt64 <= o.orderID <= MaxInt64
    ensures ParseInt(ConvertOrder(currencyPairs, o).orderID) == Parsed(o.orderID, true)
    ensures o.side == SideBuyCode ==> ConvertOrder(currencyPairs, o).side == SideBuy
    ensures o.side == SideSellCode ==> ConvertOrder(currencyPairs, o).side == SideSell
    ensures o.symbol in currencyPairs ==> ConvertOrder(currencyPairs, o).currencyPair == FormatPair(currencyPairs[o.symbol].currency, true)
  {
    ParseFormat(o.orderID);
  }

  /** An order placed one and a half seconds before the epoch is dated one second before it, not two. */
  lemma CreatedAtRoundsTowardZero(currencyPairs: map<string, CurrencyPairInfo>, o: BinanceOrder)
    requires o.time == -1500
    ensures ConvertOrder(currencyPairs, o).createdAt == -1
  {
  }

  /** GetOrders' append loop: one normalised order per open order, in order. */
  method ConvertOrders(currencyPairs: map<string, CurrencyPairInfo>, orders: seq<BinanceOrder>) returns (ret: seq<Order>)
    ensures |ret| == |orders|
    ensures forall i :: 0 <= i < |ret| ==> ret[i] == ConvertOrder(currencyPairs, orders[i])
  {
    ret := [];
    for i := 0 to |orders|
      invariant |ret| == i
      invariant forall k :: 0 <= k < i ==> ret[k] == ConvertOrder(currencyPairs, orders[k])
    {
      ret := ret + [ConvertOrder(currencyPairs, orders[i])];
    }
  }

  // ----------------------------------------------------------------- balances

  datatype Balance = Balance(asset: string, free: real, locked: real)
  datatype BinanceAccount = BinanceAccount(balances: seq<Balance>)

  /** One account entry: the asset, its locked part on hold, free plus locked in total; available is never set. */
  function BalanceEntry(b: Balance): (r: AccountCurrencyInfo)
    ensures r.currencyName == b.asset && r.hold == b.locked && r.available == 0.0
    ensures r.totalValue - r.hold == b.free
  {
    AccountCurrencyInfo(b.asset, b.free + b.locked, b.locked, 0.0)
  }

  /**
   * Run's loop over the fetched symbols: the available list in order and
   * the pair table of base and quote assets.
   */
  method BuildTables(ss: seq<SymbolInfo>) returns (products: seq<string>, pairs: map<string, CurrencyPairInfo>)
    ensures pairs == PairTable(ss)
    ensures |products| == |ss| && forall i :: 0 <= i < |ss| ==> products[i] == ss[i].symbol
  {
    var exchangeProducts := new string[|ss|];
    pairs := map[];
    for i := 0 to |ss|
      invariant pairs == PairTable(ss[..i])
      invariant forall k :: 0 <= k < i ==> exchangeProducts[k] == ss[k].symbol
    {
      assert ss[..i + 1][..i] == ss[..i];
      var symbolInfo := ss[i];
      exchangeProducts[i] := symbolInfo.symbol;
      var currencyPair := Pair(symbolInfo.baseAsset, symbolInfo.quoteAsset);
      pairs := pairs[symbolInfo.symbol := CurrencyPairInfo(currencyPair, "", "")];
    }
    assert ss[..|ss|] == ss;
    products := exchangeProducts[..];
  }

  /** GetExchangeAccountInfo's loop: one entry per balance, in order. */
  method BalanceEntries(balances: seq<Balance>) returns (r: seq<AccountCurrencyInfo>)
    ensures |r| == |balances|
    ensures forall i :: 0 <= i < |r| ==> r[i] == BalanceEntry(balances[i])
  {
    var cs := new AccountCurrencyInfo[|balances|];
    for i := 0 to |balances|
      invariant forall k :: 0 <= k < i ==> cs[k] == BalanceEntry(balances[k])
    {
      cs[i] := BalanceEntry(balances[i]);
    }
    r := cs[..];
  }

  // ----------------------------------------------------------------- the adapter

  /** The Binance exchange object: credentials, the request counters, the symbol table and its order-book store. */
  class Binance {
    var enabled: bool
    var authenticated: bool
    var apiKey: string
    var apiSecret: string
    var rateLimits: map<string, RateLimitInfo>
    var currencyPairs: map<string, CurrencyPairInfo>
    var availablePairs: seq<string>
    const orderbooks: Orderbooks

    /** SetDefaults: disabled, no credentials, no counters, no symbols, an empty order-book store. */
    constructor ()
      ensures !enabled && !authenticated && apiKey == "" && apiSecret == ""
      ensures rateLimits == map[] && currencyPairs == map[] && availablePairs == []
      ensures fresh(orderbooks) && orderbooks.books == map[]
    {
      enabled, authenticated, apiKey, apiSecret := false, false, "", "";
      rateLimits, currencyPairs, availablePairs := map[], map[], [];
      orderbooks := new Orderbooks.Init();
    }

    /**
     * SendAuthenticatedHTTPRequest: the payload is assembled field by field,
     * signed, and placed in the query or the body; the reply is classified.
     */
    method SendAuthenticatedHTTPRequest<T>(httpMethod: string, path: string, params: Option<string>,
                                           nowNanos: int, t: Transport<T>, initial: T)
      returns (code: int, err: Option<Error>, result: T)
      ensures Answer(code, err, result) == Authenticated(authenticated, apiKey, apiSecret, httpMethod, path, params, nowNanos, t, initial)
    {
      if !authenticated {
        return 0, Some(NoCredentials(ExchangeName)), initial;
      }
      var recvWindow := RecvWindow;
      var timestamp := Quo(nowNanos, 1000 * 1000);
      var payload := "timestamp=" + FormatInt(timestamp) + "&recvWindow=" + FormatInt(recvWindow);
      if params.Some? {
        payload := params.value + "&" + payload;
      }
      assert payload == UnsignedPayload(params, timestamp);
      var hmac := t.sign(payload, apiSecret);
      var headers := Headers(apiKey);
      payload := payload + "&signature=" + hmac;
      var request: HTTPRequest;
      if httpMethod == MethodGet {
        request := HTTPRequest(httpMethod, BaseURL + path + "?" + payload, headers, None);
      } else {
        request := HTTPRequest(httpMethod, BaseURL + path, headers, Some(payload));
      }
      assert request == SignedRequestFor(apiKey, apiSecret, httpMethod, path, params, nowNanos, t);
      var sent := t.send(request);
      if sent.Err? {
        return 0, Some(sent.error), initial;
      }
      var resp := sent.value;
      if Success(resp.statusCode) {
        var decoded := t.decode(resp.body);
        if decoded.None? {
          return resp.statusCode, Some(Message("failed to unmarshal response")), initial;
        }
        result := decoded.value;
      } else {
        var errInfo := t.decodeError(resp.body);
        if errInfo.None? {
          return 0, Some(Message("failed to unmarshal error info")), initial;
        }
        return errInfo.value.code, Some(Message(errInfo.value.message)), initial;
      }
      code, err := 0, None;
    }

    /**
     * SendRateLimitedHTTPRequest: the endpoint's record is created on first
     * use, its window restarted when unopened or stale, and the call counted
     * and sent while the quota lasts; an exhausted quota answers with the
     * fallback and a nil error, sending nothing.
     */
    method SendRateLimitedHTTPRequest<T>(requestsPerMin: nat, httpMethod: string, path: string, params: Option<string>,
                                         now: int, nowNanos: int, t: Transport<T>, initial: T, default: T)
      returns (result: T, err: Option<Error>, sent: bool)
      modifies this
      ensures rateLimits == old(rateLimits)[httpMethod + path := Step(Record(old(rateLimits), httpMethod + path), requestsPerMin, now)]
      ensures sent <==> Admits(Record(old(rateLimits), httpMethod + path), requestsPerMin, now)
      ensures !sent ==> result == default && err == None
      ensures sent ==>
                var a := Authenticated(authenticated, apiKey, apiSecret, httpMethod, path, params, nowNanos, t, initial);
                result == a.result && err == a.err
      ensures enabled == old(enabled) && authenticated == old(authenticated)
      ensures apiKey == old(apiKey) && apiSecret == old(apiSecret)
      ensures currencyPairs == old(currencyPairs) && availablePairs == old(availablePairs)
    {
      var key := httpMethod + path;
      var rateLimit: RateLimitInfo;
      if key in rateLimits {
        rateLimit := rateLimits[key];
      } else {
        rateLimit := RateLimitInfo(0, 0);
        rateLimits := rateLimits[key := rateLimit];
      }
      var curTimeStamp := now;
      if rateLimit.startTime == 0 || curTimeStamp - rateLimit.startTime > WindowSeconds {
        rateLimit := rateLimit.(requestCount := 0);
        rateLimit := rateLimit.(startTime := curTimeStamp);
      }
      if rateLimit.requestCount < requestsPerMin {
        rateLimit := rateLimit.(requestCount := rateLimit.requestCount + 1);
        rateLimits := rateLimits[key := rateLimit];
      } else {
        rateLimits := rateLimits[key := rateLimit];
        return default, None, false;
      }
      var code;
      code, err, result := SendAuthenticatedHTTPRequest(httpMethod, path, params, nowNanos, t, initial);
      sent := true;
    }

    /** GetOpenOrders: a signed GET without parameters; the result is whatever the reply decoded to. */
    method GetOpenOrders(nowNanos: int, t: Transport<seq<BinanceOrder>>) returns (orders: seq<BinanceOrder>, err: Option<Error>)
      ensures var a := Authenticated(authenticated, apiKey, apiSecret, MethodGet, OpenOrdersPath, None, nowNanos, t, []);
              orders == a.result && err == a.err
    {
      var code;
      code, err, orders := SendAuthenticatedHTTPRequest(MethodGet, OpenOrdersPath, None, nowNanos, t, []);
    }

    /** GetOrders: one normalised order per open order, in order; an error returns none. */
    method GetOrders(nowNanos: int, t: Transport<seq<BinanceOrder>>) returns (ret: seq<Order>, err: Option<Error>)
      ensures var a := Authenticated(authenticated, apiKey, apiSecret, MethodGet, OpenOrdersPath, None, nowNanos, t, []);
              err == a.err
              && (a.err.Some? ==> ret == [])
              && (a.err.None? ==> |ret| == |a.result| && forall i :: 0 <= i < |ret| ==> ret[i] == ConvertOrder(currencyPairs, a.result[i]))
    {
      var orders, e := GetOpenOrders(nowNanos, t);
      if e.Some? {
        return [], e;
      }
      ret := ConvertOrders(currencyPairs, orders);
      err := None;
    }

    /**
     * GetExchangeAccountInfo: a disabled exchange answers with its name and
     * sends nothing; otherwise one entry per balance, in order, or the
     * account request's error.
     */
    method GetExchangeAccountInfo(nowNanos: int, t: Transport<BinanceAccount>) returns (info: AccountInfo, err: Option<Error>)
      ensures info.exchangeName == ExchangeName
      ensures !enabled ==> info.currencies == [] && err == None
      ensures enabled ==>
                var a := Authenticated(authenticated, apiKey, apiSecret, MethodGet, AccountPath, None, nowNanos, t, BinanceAccount([]));
                err == a.err
                && (a.err.Some? ==> info.currencies == [])
                && (a.err.None? ==> |info.currencies| == |a.result.balances|
                                    && forall i :: 0 <= i < |info.currencies| ==> info.currencies[i] == BalanceEntry(a.result.balances[i]))
    {
      if !enabled {
        return AccountInfo(ExchangeName, []), None;
      }
      var code, e, account := SendAuthenticatedHTTPRequest(MethodGet, AccountPath, None, nowNanos, t, BinanceAccount([]));
      if e.Some? {
        return AccountInfo(ExchangeName, []), e;
      }
      var cs := BalanceEntries(account.balances);
      info, err := AccountInfo(ExchangeName, cs), None;
    }

    /**
     * Run on the fetched exchange information: every symbol goes to the
     * available list, in order, and into the pair table with its base and
     * quote assets. A failed fetch changes nothing.
     */
    method Run(fetched: Result<seq<SymbolInfo>, Error>)
      modifies this
      ensures fetched.Err? ==> currencyPairs == old(currencyPairs) && availablePairs == old(availablePairs)
      ensures fetched.Ok? ==> currencyPairs == PairTable(fetched.value)
      ensures fetched.Ok? ==> |availablePairs| == |fetched.value|
                              && forall i :: 0 <= i < |fetched.value| ==> availablePairs[i] == fetched.value[i].symbol
      ensures rateLimits == old(rateLimits) && enabled == old(enabled) && authenticated == old(authenticated)
      ensures apiKey == old(apiKey) && apiSecret == old(apiSecret)
    {
      if fetched.Err? {
        return;
      }
      var products, pairs := BuildTables(fetched.value);
      currencyPairs, availablePairs := pairs, products;
    }

    /**
     * GetOrderbookEx: a pair the store does not have answers with the zero
     * book and no error; a pair it has goes to UpdateOrderbook, which is not
     * implemented and panics.
     */
    method GetOrderbookEx(p: Pair, assetType: string) returns (b: Base, err: Option<Error>)
      ensures Get(orderbooks.books, p, assetType).Err? ==> b == EmptyBase && err == None
      ensures Get(orderbooks.books, p, assetType).Ok? ==> err == Some(Panic("not implemented"))
    {
      var ob := orderbooks.GetOrderbook(ExchangeName, p, assetType);
      if ob.Ok? {
        return EmptyBase, Some(Panic("not implemented"));
      }
      return EmptyBase, None;
    }
  }
}
