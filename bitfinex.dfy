/**
 * The Bitfinex adapter: the fixed-width symbol codec, the limits read from the
 * symbol details, the order normaliser, the v2 error-triple classification,
 * the rate-limited dispatcher with its per-endpoint spacing and global ban,
 * the caches behind it, and the wrapper's table build, order-book refresh and
 * wallet aggregation.
 */
module Bitfinex {
  import opened Wrappers
  import opened Text
  import opened Pairs
  import opened Exchange
  import opened Orderbook

  const ExchangeName: string := "Bitfinex"
  const MaxRequests: nat := 90
  /** How long a rate-limit answer from the exchange bans every request, in milliseconds. */
  const BanWindow: int := 60 * 1000
  const APIVersion1: int := 1
  const APIVersion2: int := 2
  const BalancesPath: string := "balances"
  const OrdersPath: string := "orders"

  // ---------------------------------------------------------------- symbols

  /** Request format: no delimiter, upper case: the two codes side by side. */
  function CurrencyPairToSymbol(p: Pair): (r: string)
    ensures r == Upper(p.first) + Upper(p.second)
    ensures |r| == |p.first| + |p.second|
  {
    DisplayJoined(p, true);
    Display(p, "", true)
  }

  function SymbolToCurrencyPair(symbol: string): (r: Result<Pair, Error>)
    ensures |symbol| != 6 <==> r.Err?
    ensures r.Err? ==> r.error == Message("symbol " + symbol + " is longer than expected")
    ensures r.Ok? ==> IsUpperPair(r.value) && |r.value.first| == 3 && |r.value.second| == 3
  {
    if |symbol| != 6 then Err(Message("symbol " + symbol + " is longer than expected"))
    else
      UpperIdempotent(symbol[..3]);
      UpperIdempotent(symbol[3..]);
      Ok(FormatPair(Pair(symbol[..3], symbol[3..]), true))
  }

  /** Two upper-case three-letter codes survive the trip to a symbol and back. */
  lemma SymbolRoundTrip(p: Pair)
    requires |p.first| == 3 && |p.second| == 3 && IsUpperPair(p)
    ensures SymbolToCurrencyPair(CurrencyPairToSymbol(p)) == Ok(p)
  {
    var s := CurrencyPairToSymbol(p);
    assert p.first + "" + p.second == p.first + p.second;
    CasedAppend(p.first, p.second, true);
    assert s[..3] == p.first && s[3..] == p.second;
  }

  /** A six-character symbol comes back from its pair in upper case. */
  lemma PairRoundTrip(symbol: string)
    requires |symbol| == 6
    ensures CurrencyPairToSymbol(SymbolToCurrencyPair(symbol).value) == Upper(symbol)
  {
    var p := SymbolToCurrencyPair(symbol).value;
    assert p.first + "" + p.second == p.first + p.second;
    CasedAppend(symbol[..3], symbol[3..], true);
    assert symbol[..3] + symbol[3..] == symbol;
    UpperIdempotent(Upper(symbol[..3]) + Upper(symbol[3..]));
    CasedAppend(Upper(symbol[..3]), Upper(symbol[3..]), true);
    UpperIdempotent(symbol[..3]);
    UpperIdempotent(symbol[3..]);
  }

  // ----------------------------------------------------------------- limits

  datatype SymbolDetails = SymbolDetails(pair: string, pricePrecision: int, minimumOrderSize: real)

  /** The key the limits (and the table build) use for a pair: "first/second" in lower case. */
  function LimitsKey(p: Pair): string
  {
    Display(p, "/", false)
  }

  /** GetPriceDecimalPlaces as written: an unknown pair answers 0. */
  function PriceDecimalPlacesAsWritten(data: map<string, SymbolDetails>, p: Pair): (r: int)
    ensures LimitsKey(p) in data ==> r == ToInt32(data[LimitsKey(p)].pricePrecision)
    ensures LimitsKey(p) !in data ==> r == 0
  {
    if LimitsKey(p) in data then ToInt32(data[LimitsKey(p)].pricePrecision) else 0
  }

  /** With no details at all, the as-written answer claims zero decimal places instead of Undefined. */
  lemma AsWrittenUnknownPairIsDefined(p: Pair)
    ensures PriceDecimalPlacesAsWritten(map[], p) == 0 != Undefined
  {
  }

  /** GetPriceDecimalPlaces as the ILimits contract asks: Undefined for an unknown pair. */
  function PriceDecimalPlaces(data: map<string, SymbolDetails>, p: Pair): (r: int)
    ensures LimitsKey(p) in data ==> r == ToInt32(data[LimitsKey(p)].pricePrecision)
    ensures LimitsKey(p) !in data ==> r == Undefined
  {
    if LimitsKey(p) in data then ToInt32(data[LimitsKey(p)].pricePrecision) else Undefined
  }

  /** currencyLimits: price places and minimum amount from the pair's details, fixed amount places, no minimum total. */
  function CurrencyLimits(data: map<string, SymbolDetails>, p: Pair): (r: Limits)
    ensures r.priceDecimalPlaces == PriceDecimalPlaces(data, p)
    ensures r.amountDecimalPlaces == 8 && r.minTotal == 0.0
    ensures r.minAmount == if LimitsKey(p) in data then data[LimitsKey(p)].minimumOrderSize else 0.0
  {
    Limits(PriceDecimalPlaces(data, p), 8, if LimitsKey(p) in data then data[LimitsKey(p)].minimumOrderSize else 0.0, 0.0)
  }

  /** With sane details (or none), the limits honour the ILimits conventions. */
  lemma CurrencyLimitsWellFormed(data: map<string, SymbolDetails>, p: Pair)
    requires forall k :: k in data ==> 0 <= data[k].pricePrecision <= MaxInt32 && data[k].minimumOrderSize >= 0.0
    ensures WellFormed(CurrencyLimits(data, p))
    ensures LimitsKey(p) !in data ==> CurrencyLimits(data, p).priceDecimalPlaces == Undefined
  {
  }

  // ------------------------------------------------------------------ orders

  /** The fields of a Bitfinex order the normaliser reads. */
  datatype BitfinexOrder = BitfinexOrder(
    id: int, symbol: string, price: real, averageExecutionPrice: real,
    side: string, orderType: string, timestamp: string,
    isLive: bool, isCancelled: bool,
    originalAmount: real, remainingAmount: real, executedAmount: real)

  /** convertOrderToExchangeOrder. */
  function ConvertOrder(o: BitfinexOrder): (r: Order)
    ensures r.orderID == FormatInt(o.id)
    ensures r.status in {Active, Filled, Aborted}
    ensures r.status == Aborted <==> o.isCancelled
    ensures r.status == Active <==> !o.isCancelled && o.isLive
    ensures r.amount == o.originalAmount && r.filledAmount == o.executedAmount
    ensures r.remainingAmount == o.remainingAmount
    ensures r.rate == ChosenRate(r.status, o.price, o.averageExecutionPrice)
    ensures r.createdAt == TimestampSeconds(o.timestamp)
    ensures r.currencyPair == (if |o.symbol| == 6 then SymbolToCurrencyPair(o.symbol).value else NoPair)
    ensures r.side == o.side && r.orderType == o.orderType
  {
    var status := if o.isCancelled then Aborted else if o.isLive then Active else Filled;
    var pair := match SymbolToCurrencyPair(o.symbol)
      case Ok(p) => p
      case Err(_) => NoPair;
    Order(FormatInt(o.id), status, o.originalAmount, o.executedAmount, o.remainingAmount,
          ChosenRate(status, o.price, o.averageExecutionPrice), TimestampSeconds(o.timestamp),
          pair, o.side, o.orderType)
  }

  /**
   * An order whose symbol was made from a pair of three-letter codes and whose
   * timestamp is "seconds.fraction" converts back to that pair and those
   * seconds, and its canonical ID parses back to the exchange's ID.
   */
  lemma ConvertOrderRecovers(o: BitfinexOrder, p: Pair, seconds: int, fraction: string)
    requires MinInt64 <= o.id <= MaxInt64 && MinInt64 <= seconds <= MaxInt64
    requires |p.first| == 3 && |p.second| == 3 && IsUpperPair(p)
    requires o.symbol == CurrencyPairToSymbol(p)
    requires o.timestamp == FormatInt(seconds) + "." + fraction
    ensures ConvertOrder(o).currencyPair == p
    ensures ConvertOrder(o).createdAt == seconds
    ensures ParseInt(ConvertOrder(o).orderID) == Parsed(o.id, true)
  {
    SymbolRoundTrip(p);
    TimestampSecondsOfText(seconds, fraction);
    ParseFormat(o.id);
  }

  /** GetOrder: the ID must parse as an int64; the order found under it is normalised. */
  function GetOrder(orderID: string, status: int -> Result<BitfinexOrder, Error>): (r: Result<Order, Error>)
    ensures !ParseInt(orderID).ok ==> r == Err(ParseFailure(orderID))
    ensures ParseInt(orderID).ok && status(ParseInt(orderID).value).Err? ==> r == Err(status(ParseInt(orderID).value).error)
    ensures ParseInt(orderID).ok && status(ParseInt(orderID).value).Ok? ==> r == Ok(ConvertOrder(status(ParseInt(orderID).value).value))
  {
    var id := ParseInt(orderID);
    if !id.ok then Err(ParseFailure(orderID))
    else match status(id.value)
      case Err(e) => Err(e)
      case Ok(o) => Ok(ConvertOrder(o))
  }

  /** Looking up a canonical order by its own ID finds the exchange order it came from. */
  lemma GetOrderOfConverted(o: BitfinexOrder, status: int -> Result<BitfinexOrder, Error>)
    requires MinInt64 <= o.id <= MaxInt64
    requires status(o.id) == Ok(o)
    ensures GetOrder(ConvertOrder(o).orderID, status) == Ok(ConvertOrder(o))
  {
    ParseFormat(o.id);
  }

  function ConvertAll(orders: seq<BitfinexOrder>): (r: seq<Order>)
    ensures |r| == |orders|
    ensures forall i :: 0 <= i < |orders| ==> r[i] == ConvertOrder(orders[i])
  {
    if orders == [] then [] else [ConvertOrder(orders[0])] + ConvertAll(orders[1..])
  }

  /** GetOrders' append loop: the orders converted one by one, in order. */
  method ConvertOrders(orders: seq<BitfinexOrder>) returns (ret: seq<Order>)
    ensures ret == ConvertAll(orders)
  {
    ret := [];
    for i := 0 to |orders|
      invariant |ret| == i
      invariant forall k :: 0 <= k < i ==> ret[k] == ConvertOrder(orders[k])
    {
      ret := ret + [ConvertOrder(orders[i])];
    }
  }

  // ------------------------------------------------------- v2 error triples

  /** A decoded JSON value, as far as the classification looks into it. */
  datatype Json = JNull | JBool(b: bool) | JNumber(n: real) | JString(s: string) | JArray(items: seq<Json>) | JObject

  /** Go's int(float64): truncation toward zero. */
  function Truncate(x: real): (r: int)
    ensures x >= 0.0 ==> r == x.Floor
    ensures x < 0.0 ==> r == -((-x).Floor)
  {
    if x >= 0.0 then x.Floor else -((-x).Floor)
  }

  /** What SendAuthenticatedHTTPRequest2 returns: the Bitfinex error code and the error. */
  datatype V2Reply = V2Reply(code: int, err: Option<Error>)

  /** The elements of a non-2xx body that decodes as an array; JSON null decodes as the empty array. */
  function Elements(body: Json): seq<Json>
  {
    if body.JArray? then body.items else []
  }

  /** The first element that keeps `items` from being an ["error", code, message] triple, if any: 0 to 3, or 4 for a triple. */
  function FirstFault(items: seq<Json>): (k: nat)
    ensures k <= 4
    ensures k == 4 <==> |items| >= 3 && items[0] == JString("error") && items[1].JNumber? && items[2].JString?
  {
    if |items| < 3 then 0
    else if items[0] != JString("error") then 1
    else if !items[1].JNumber? then 2
    else if !items[2].JString? then 3
    else 4
  }

  /** The four malformed-reply texts, in the order the checks are made. */
  function FaultText(k: nat): string
    requires k < 4
  {
    if k == 0 then "Expected response to have three elements but got "
    else if k == 1 then "Expected first element to be \"error\" but got "
    else if k == 2 then "Expected second element to be error code but got "
    else "Expected third element to be error message but got "
  }

  /**
   * The status classification of SendAuthenticatedHTTPRequest2. `decodes`
   * says whether a 2xx body decodes into the caller's result; `render` is
   * Go's `%#v` of the decoded array (its nil form for a JSON null), which
   * every malformed-reply error ends with.
   */
  function ClassifyV2(statusCode: int, body: Json, decodes: bool, render: Json -> string): (r: V2Reply)
    ensures 200 <= statusCode <= 299 ==> r == (if decodes then V2Reply(0, None)
      else V2Reply(statusCode, Some(Message("SendAuthenticatedHTTPRequest2: Unable to JSON Unmarshal response"))))
    ensures statusCode == 429 ==> r == V2Reply(0, Some(RateLimitExceeded))
    ensures r.code != 0 ==> r.err.Some?
    ensures !(200 <= statusCode <= 299) && statusCode != 429 && !body.JArray? && !body.JNull? ==> r == V2Reply(0, None)
    ensures !(200 <= statusCode <= 299) && statusCode != 429 && (body.JArray? || body.JNull?) && FirstFault(Elements(body)) < 4 ==>
              r == V2Reply(0, Some(Message(FaultText(FirstFault(Elements(body))) + render(body))))
  {
    if 200 <= statusCode <= 299 then
      if decodes then V2Reply(0, None)
      else V2Reply(statusCode, Some(Message("SendAuthenticatedHTTPRequest2: Unable to JSON Unmarshal response")))
    else if statusCode == 429 then V2Reply(0, Some(RateLimitExceeded))
    else if body.JArray? || body.JNull? then
      var items := Elements(body);
      var k := FirstFault(items);
      if k < 4 then V2Reply(0, Some(Message(FaultText(k) + render(body))))
      else V2Reply(Truncate(items[1].n), Some(Message(items[2].s)))
    else V2Reply(0, None)
  }

  /** A well-formed error triple yields its code and message, whatever else follows it. */
  lemma ErrorTriple(statusCode: int, code: int, msg: string, rest: seq<Json>, decodes: bool, render: Json -> string)
    requires !(200 <= statusCode <= 299) && statusCode != 429
    ensures ClassifyV2(statusCode, JArray([JString("error"), JNumber(code as real), JString(msg)] + rest), decodes, render)
            == V2Reply(code, Some(Message(msg)))
  {
    assert (code as real).Floor == code;
  }

  /**
   * Any non-2xx, non-429 reply that is an array but not an error triple is an
   * error with code 0, whose text names the failed check and ends with the
   * rendered array.
   */
  lemma MalformedTriple(statusCode: int, items: seq<Json>, decodes: bool, render: Json -> string)
    requires !(200 <= statusCode <= 299) && statusCode != 429
    requires FirstFault(items) < 4
    ensures ClassifyV2(statusCode, JArray(items), decodes, render).code == 0
    ensures ClassifyV2(statusCode, JArray(items), decodes, render).err
            == Some(Message(FaultText(FirstFault(items)) + render(JArray(items))))
  {
  }

  /** The tenth character tells the four malformed-reply texts apart. */
  function FaultMark(k: nat): char
    requires k < 4
  {
    if k == 0 then 'r' else if k == 1 then 'f' else if k == 2 then 's' else 't'
  }

  lemma FaultTextMark(k: nat)
    requires k < 4
    ensures |FaultText(k)| > 9 && FaultText(k)[9] == FaultMark(k)
  {
  }

  /** Each failed check has its own text, so the error says which check failed. */
  lemma FaultTextsDistinct(j: nat, k: nat)
    requires j < 4 && k < 4 && j != k
    ensures FaultText(j) != FaultText(k)
  {
    FaultTextMark(j);
    FaultTextMark(k);
  }

  // ------------------------------------------------------- v1 reply checks

  const UnmarshalV1: string := "sendAuthenticatedHTTPRequest: Unable to JSON Unmarshal response"

  /**
   * The reply checks of the v1 SendAuthenticatedHTTPRequest, as written.
   * `capture` and `rateLimit` are the two decodes of the body: the message of
   * an ErrorCapture and the "error" field, or None when that decode fails
   * (the field then keeps its zero value ""). `decodes` says whether the body
   * decodes into the caller's result. A non-empty "error" other than
   * ERR_RATE_LIMIT is reported with the ErrorCapture message, which is empty
   * whenever that branch is reached.
   */
  function ClassifyV1AsWritten(capture: Option<string>, rateLimit: Option<string>, statusCode: int, decodes: bool): (r: Option<Error>)
    ensures capture.Some? && capture.value != "" ==> r == Some(Message(capture.value))
    ensures (capture.None? || capture.value == "") && rateLimit == Some("ERR_RATE_LIMIT") ==> r == Some(RateLimitExceeded)
    ensures (capture.None? || capture.value == "") && rateLimit.Some? && rateLimit.value != "" && rateLimit.value != "ERR_RATE_LIMIT" ==>
              r == Some(Message(""))
    ensures r.None? <==> (capture.None? || capture.value == "") && (rateLimit.None? || rateLimit.value == "") && statusCode != 429 && decodes
  {
    var captured := if capture.Some? then capture.value else "";
    if capture.Some? && |capture.value| != 0 then Some(Message(capture.value))
    else if rateLimit.Some? && rateLimit.value == "ERR_RATE_LIMIT" then Some(RateLimitExceeded)
    else if rateLimit.Some? && |rateLimit.value| != 0 then Some(Message(captured))
    else if statusCode == 429 then Some(RateLimitExceeded)
    else if !decodes then Some(Message(UnmarshalV1))
    else None
  }

  /** The v1 reply checks with the "error" field's own text reported. */
  function ClassifyV1(capture: Option<string>, rateLimit: Option<string>, statusCode: int, decodes: bool): (r: Option<Error>)
    ensures capture.Some? && capture.value != "" ==> r == Some(Message(capture.value))
    ensures (capture.None? || capture.value == "") && rateLimit == Some("ERR_RATE_LIMIT") ==> r == Some(RateLimitExceeded)
    ensures (capture.None? || capture.value == "") && rateLimit.Some? && rateLimit.value != "" && rateLimit.value != "ERR_RATE_LIMIT" ==>
              r == Some(Message(rateLimit.value))
    ensures r.None? <==> (capture.None? || capture.value == "") && (rateLimit.None? || rateLimit.value == "") && statusCode != 429 && decodes
    ensures r.Some? && r.value.Message? ==> r.value.text != ""
  {
    if capture.Some? && |capture.value| != 0 then Some(Message(capture.value))
    else if rateLimit.Some? && rateLimit.value == "ERR_RATE_LIMIT" then Some(RateLimitExceeded)
    else if rateLimit.Some? && |rateLimit.value| != 0 then Some(Message(rateLimit.value))
    else if statusCode == 429 then Some(RateLimitExceeded)
    else if !decodes then Some(Message(UnmarshalV1))
    else None
  }

  /**
   * A body {"error": "Nonce is too small."} decodes with an empty ErrorCapture
   * message; as written the caller gets an error with no text, the
   * corrected checks pass the exchange's text on. Only that branch differs.
   */
  lemma AsWrittenDropsErrorText(capture: Option<string>, rateLimit: Option<string>, statusCode: int, decodes: bool)
    ensures ClassifyV1AsWritten(Some(""), Some("Nonce is too small."), 400, true) == Some(Message(""))
    ensures ClassifyV1(Some(""), Some("Nonce is too small."), 400, true) == Some(Message("Nonce is too small."))
    ensures ClassifyV1AsWritten(capture, rateLimit, statusCode, decodes) != ClassifyV1(capture, rateLimit, statusCode, decodes) ==>
              (capture.None? || capture.value == "") && rateLimit.Some? && rateLimit.value != "" && rateLimit.value != "ERR_RATE_LIMIT"
  {
  }

  // -------------------------------------------------------------- dispatcher

  /** The dispatcher's state: the last success per method+path, and the start of the current ban. */
  datatype Limiter = Limiter(rateLimits: map<string, int>, ipBanStartTime: int)

  /** The outcome of one call: the new state, the value left in the result, the error, and whether the authenticated send was called. */
  datatype Dispatched<T> = Dispatched(limiter: Limiter, result: T, err: Option<Error>, sent: bool)

  /** The minimum spacing between two requests to one endpoint, in milliseconds. */
  function RequestDelay(requestsPerMin: nat): int
    requires requestsPerMin > 0
  {
    BanWindow / requestsPerMin
  }

  /** A missing entry reads as a last success at time 0. */
  function LastRequestTime(l: Limiter, key: string): int
  {
    if key in l.rateLimits then l.rateLimits[key] else 0
  }

  predicate Banned(l: Limiter, now: int)
  {
    l.ipBanStartTime != 0 && now - l.ipBanStartTime < BanWindow
  }

  predicate Skips(l: Limiter, key: string, requestsPerMin: nat, now: int)
    requires requestsPerMin > 0
  {
    Banned(l, now) || now - LastRequestTime(l, key) < RequestDelay(requestsPerMin)
  }

  /**
   * SendRateLimitedHTTPRequest. `reply` is what the request would return if it
   * were sent; `initial` is the caller's result before the call and
   * `default` the fallback written on a skip.
   */
  function Dispatch<T>(l: Limiter, requestsPerMin: nat, httpMethod: string, apiVersion: int, path: string,
                       now: int, reply: Result<T, Error>, initial: T, default: T): (r: Dispatched<T>)
    requires requestsPerMin > 0
    ensures Skips(l, httpMethod + path, requestsPerMin, now) ==>
              r == Dispatched(l, default, Some(RateLimitedWarning), false)
    ensures r.sent <==> !Skips(l, httpMethod + path, requestsPerMin, now) && apiVersion in {APIVersion1, APIVersion2}
    ensures r.sent && reply == Err(RateLimitExceeded) ==>
              r == Dispatched(l.(ipBanStartTime := now), default, Some(RateLimitedWarning), true)
    ensures r.sent && reply.Err? && reply.error != RateLimitExceeded ==>
              r == Dispatched(l, initial, Some(reply.error), true)
    ensures r.sent && reply.Ok? ==>
              r == Dispatched(Limiter(l.rateLimits[httpMethod + path := now], 0), reply.value, None, true)
    ensures r.err.None? ==> r.sent
  {
    var key := httpMethod + path;
    if Skips(l, key, requestsPerMin, now) then Dispatched(l, default, Some(RateLimitedWarning), false)
    else
      var sent := apiVersion == APIVersion1 || apiVersion == APIVersion2;
      var outcome := if sent then reply else Err(Message("invalid API version"));
      match outcome
      case Err(e) =>
        if e == RateLimitExceeded then Dispatched(l.(ipBanStartTime := now), default, Some(RateLimitedWarning), sent)
        else Dispatched(l, initial, Some(e), sent)
      case Ok(v) => Dispatched(Limiter(l.rateLimits[key := now], 0), v, None, sent)
  }

  /** One call to the dispatcher, for a run of calls with results of one type. */
  datatype Call<T> = Call(requestsPerMin: nat, httpMethod: string, apiVersion: int, path: string,
                          now: int, reply: Result<T, Error>, initial: T, default: T)

  predicate ValidCalls<T>(calls: seq<Call<T>>)
  {
    forall i :: 0 <= i < |calls| ==> calls[i].requestsPerMin > 0
  }

  /** The state after a run of calls and how many of them sent a request. */
  function RunCalls<T>(l: Limiter, calls: seq<Call<T>>): (Limiter, nat)
    requires ValidCalls(calls)
    decreases |calls|
  {
    if calls == [] then (l, 0)
    else
      var c := calls[0];
      var d := Dispatch(l, c.requestsPerMin, c.httpMethod, c.apiVersion, c.path, c.now, c.reply, c.initial, c.default);
      var rest := RunCalls(d.limiter, calls[1..]);
      (rest.0, rest.1 + if d.sent then 1 else 0)
  }

  /**
   * After the exchange answers with a rate limit at time `start`, every call
   * made within the next minute, to any endpoint, is skipped: nothing is
   * sent and the state stays as it is.
   */
  lemma {:induction false} BanSkipsEverything<T>(l: Limiter, calls: seq<Call<T>>)
    requires ValidCalls(calls)
    requires l.ipBanStartTime != 0
    requires forall i :: 0 <= i < |calls| ==> l.ipBanStartTime <= calls[i].now < l.ipBanStartTime + BanWindow
    ensures RunCalls(l, calls) == (l, 0)
    decreases |calls|
  {
    if calls != [] {
      BanSkipsEverything(l, calls[1..]);
    }
  }

  /** The first call after the ban window to an endpoint idle for long enough is sent. */
  lemma CallAfterBanIsSent<T>(l: Limiter, c: Call<T>)
    requires c.requestsPerMin > 0 && c.apiVersion in {APIVersion1, APIVersion2}
    requires c.now >= l.ipBanStartTime + BanWindow
    requires c.now - LastRequestTime(l, c.httpMethod + c.path) >= RequestDelay(c.requestsPerMin)
    ensures Dispatch(l, c.requestsPerMin, c.httpMethod, c.apiVersion, c.path, c.now, c.reply, c.initial, c.default).sent
  {
  }

  /**
   * Two requests to the same endpoint are sent at least RequestDelay apart:
   * right after a success at `now`, a call to the same endpoint earlier than
   * `now + RequestDelay` is skipped and answers with the fallback.
   */
  lemma SuccessSpacesCalls<T>(l: Limiter, rpm: nat, m: string, v: int, path: string, now: int, reply: Result<T, Error>,
                              initial: T, default: T, later: int, reply2: Result<T, Error>, initial2: T, default2: T)
    requires rpm > 0
    requires Dispatch(l, rpm, m, v, path, now, reply, initial, default).sent && reply.Ok?
    requires now <= later < now + RequestDelay(rpm)
    ensures var l2 := Dispatch(l, rpm, m, v, path, now, reply, initial, default).limiter;
            Dispatch(l2, rpm, m, v, path, later, reply2, initial2, default2)
              == Dispatched(l2, default2, Some(RateLimitedWarning), false)
  {
  }

  /**
   * At 10 requests a minute on a clock past the first spacing: a first call
   * succeeds, a second call 500 ms later is skipped and answers with the
   * fallback, and a call a full spacing after the first is sent again.
   */
  lemma SpacingScenario(t: int, a: int, b: int, c: int)
    requires t >= 6000
    ensures var l0 := Limiter(map[], 0);
            var d1 := Dispatch(l0, 10, "POST", 1, OrdersPath, t, Ok(a), 0, 0);
            var d2 := Dispatch(d1.limiter, 10, "POST", 1, OrdersPath, t + 500, Ok(b), 0, 7);
            var d3 := Dispatch(d2.limiter, 10, "POST", 1, OrdersPath, t + 6000, Ok(c), 0, 7);
            d1.sent && d1.result == a && d1.err == None
            && !d2.sent && d2.result == 7 && d2.err == Some(RateLimitedWarning)
            && d3.sent && d3.result == c
  {
  }

  // ----------------------------------------------------------------- wallets

  datatype Balance = Balance(walletType: string, currency: string, amount: real, available: real)

  /** The per-currency accumulator of GetExchangeAccountInfo. */
  datatype WalletBalance = WalletBalance(onHold: real, available: real)

  /** Sum of the available amounts of every wallet in `currency`. */
  function AvailableSum(bs: seq<Balance>, currency: string): real
  {
    if bs == [] then 0.0
    else AvailableSum(bs[..|bs| - 1], currency) + (if bs[|bs| - 1].currency == currency then bs[|bs| - 1].available else 0.0)
  }

  /** Sum of amount minus available over every wallet in `currency`. */
  function OnHoldSum(bs: seq<Balance>, currency: string): real
  {
    if bs == [] then 0.0
    else OnHoldSum(bs[..|bs| - 1], currency)
         + (if bs[|bs| - 1].currency == currency then bs[|bs| - 1].amount - bs[|bs| - 1].available else 0.0)
  }

  function AmountSum(bs: seq<Balance>, currency: string): real
  {
    if bs == [] then 0.0
    else AmountSum(bs[..|bs| - 1], currency) + (if bs[|bs| - 1].currency == currency then bs[|bs| - 1].amount else 0.0)
  }

  function Currencies(bs: seq<Balance>): set<string>
  {
    set i | 0 <= i < |bs| :: bs[i].currency
  }

  /** What a currency holds across its wallets: on hold plus available is the total amount. */
  lemma {:induction false} WalletTotals(bs: seq<Balance>, currency: string)
    ensures OnHoldSum(bs, currency) + AvailableSum(bs, currency) == AmountSum(bs, currency)
    decreases |bs|
  {
    if bs != [] {
      WalletTotals(bs[..|bs| - 1], currency);
    }
  }

  /** A currency no wallet holds sums to nothing. */
  lemma {:induction false} AbsentCurrencySumsToZero(bs: seq<Balance>, currency: string)
    requires currency !in Currencies(bs)
    ensures OnHoldSum(bs, currency) == 0.0 && AvailableSum(bs, currency) == 0.0
    decreases |bs|
  {
    if bs != [] {
      var init := bs[..|bs| - 1];
      assert forall j :: 0 <= j < |init| ==> init[j] == bs[j];
      assert bs[|bs| - 1].currency in Currencies(bs);
      AbsentCurrencySumsToZero(init, currency);
    }
  }

  /** The `accounts` map GetExchangeAccountInfo accumulates, one entry per currency seen. */
  method AggregateWallets(bs: seq<Balance>) returns (accounts: map<string, WalletBalance>)
    ensures accounts.Keys == Currencies(bs)
    ensures forall c :: c in accounts ==> accounts[c] == WalletBalance(OnHoldSum(bs, c), AvailableSum(bs, c))
  {
    accounts := map[];
    var i := 0;
    while i < |bs|
      invariant 0 <= i <= |bs|
      invariant accounts.Keys == Currencies(bs[..i])
      invariant forall c :: c in accounts ==> accounts[c] == WalletBalance(OnHoldSum(bs[..i], c), AvailableSum(bs[..i], c))
    {
      var src := bs[i];
      var balance := WalletBalance(src.amount - src.available, src.available);
      assert bs[..i + 1][..i] == bs[..i];
      assert Currencies(bs[..i + 1]) == Currencies(bs[..i]) + {src.currency} by {
        assert forall j :: 0 <= j < i ==> bs[..i + 1][j] == bs[..i][j];
        assert bs[..i + 1][i] == src;
      }
      assert bs[..i + 1][i] == src;
      forall c ensures OnHoldSum(bs[..i + 1], c) == OnHoldSum(bs[..i], c) + (if src.currency == c then balance.onHold else 0.0)
                  && AvailableSum(bs[..i + 1], c) == AvailableSum(bs[..i], c) + (if src.currency == c then balance.available else 0.0)
      {
      }
      if src.currency !in accounts {
        AbsentCurrencySumsToZero(bs[..i], src.currency);
        accounts := accounts[src.currency := balance];
      } else {
        var result := accounts[src.currency];
        accounts := accounts[src.currency := WalletBalance(result.onHold + balance.onHold, result.available + balance.available)];
      }
      i := i + 1;
    }
    assert bs[..i] == bs;
  }

  /** One account entry: the upper-cased currency, its hold, available and their sum. */
  function AccountEntry(currency: string, w: WalletBalance): (r: AccountCurrencyInfo)
    ensures r.totalValue == r.available + r.hold
  {
    AccountCurrencyInfo(Upper(currency), w.available + w.onHold, w.onHold, w.available)
  }

  /**
   * The loop over the `accounts` map: one entry per currency, in the map's
   * (unspecified) order, recorded in `order`.
   */
  method AccountEntries(accounts: map<string, WalletBalance>) returns (cs: seq<AccountCurrencyInfo>, ghost order: seq<string>)
    ensures |cs| == |order| == |accounts.Keys|
    ensures forall i, j :: 0 <= i < j < |order| ==> order[i] != order[j]
    ensures forall c :: c in accounts <==> c in order
    ensures forall i :: 0 <= i < |cs| ==> order[i] in accounts && cs[i] == AccountEntry(order[i], accounts[order[i]])
  {
    cs, order := [], [];
    var todo := accounts.Keys;
    while todo != {}
      invariant todo <= accounts.Keys
      invariant |cs| == |order|
      invariant forall i, j :: 0 <= i < j < |order| ==> order[i] != order[j]
      invariant forall c :: c in accounts ==> (c in order <==> c !in todo)
      invariant forall i :: 0 <= i < |order| ==> order[i] in accounts && cs[i] == AccountEntry(order[i], accounts[order[i]])
      invariant |order| + |todo| == |accounts.Keys|
      decreases |todo|
    {
      var c :| c in todo;
      cs := cs + [AccountEntry(c, accounts[c])];
      order := order + [c];
      todo := todo - {c};
    }
    assert forall c :: c in order ==> c in accounts;
  }

  // ----------------------------------------------------------------- books

  datatype BookEntry = BookEntry(price: real, amount: real)
  datatype RawBook = RawBook(bids: seq<BookEntry>, asks: seq<BookEntry>)

  function EntryAmount(e: BookEntry): real { e.amount }
  function EntryPrice(e: BookEntry): real { e.price }

  /** The snapshot UpdateOrderbook stores for a fetched book: both sides row by row, in order. */
  function BookOf(raw: RawBook): (r: Base)
    ensures |r.bids| == |raw.bids| && |r.asks| == |raw.asks|
    ensures forall i :: 0 <= i < |raw.bids| ==> r.bids[i] == Item(raw.bids[i].amount, raw.bids[i].price)
    ensures forall i :: 0 <= i < |raw.asks| ==> r.asks[i] == Item(raw.asks[i].amount, raw.asks[i].price)
    ensures r.pair == NoPair && r.currencyPair == "" && r.lastUpdated == 0
  {
    Snapshot(raw.bids, raw.asks, EntryAmount, EntryPrice)
  }


  // ------------------------------------------------------------- table build

  /** CurrencyPairs as Run leaves it: every symbol that converts, mapped to its pair. */
  function PairTable(ds: seq<SymbolDetails>): map<string, Pair>
  {
    if ds == [] then map[]
    else
      var t := PairTable(ds[..|ds| - 1]);
      var d := ds[|ds| - 1];
      match SymbolToCurrencyPair(d.pair)
      case Ok(p) => t[d.pair := p]
      case Err(_) => t
  }

  /** symbolDetails as Run leaves it: the details of every converted symbol, keyed like the limits read them. */
  function DetailsTable(ds: seq<SymbolDetails>): map<string, SymbolDetails>
  {
    if ds == [] then map[]
    else
      var t := DetailsTable(ds[..|ds| - 1]);
      var d := ds[|ds| - 1];
      match SymbolToCurrencyPair(d.pair)
      case Ok(p) => t[LimitsKey(p) := d]
      case Err(_) => t
  }

  /**
   * The pair table holds exactly the symbols that convert, each with the pair
   * it converts to; a symbol that does not convert (any length but 6) is left out.
   */
  lemma {:induction false} PairTableExact(ds: seq<SymbolDetails>)
    ensures forall s :: s in PairTable(ds) ==> SymbolToCurrencyPair(s) == Ok(PairTable(ds)[s])
    ensures forall i :: 0 <= i < |ds| ==> (ds[i].pair in PairTable(ds) <==> |ds[i].pair| == 6)
    decreases |ds|
  {
    if ds != [] {
      var init := ds[..|ds| - 1];
      PairTableExact(init);
      forall i | 0 <= i < |ds| - 1 ensures ds[i] == init[i] { }
    }
  }

  /**
   * The limits of a listed pair are the details it was listed with, provided
   * no later symbol converts to the same pair.
   */
  lemma {:induction false} LimitsAfterRun(ds: seq<SymbolDetails>, i: nat)
    requires i < |ds| && |ds[i].pair| == 6
    requires forall j :: i < j < |ds| && |ds[j].pair| == 6 ==>
               LimitsKey(SymbolToCurrencyPair(ds[j].pair).value) != LimitsKey(SymbolToCurrencyPair(ds[i].pair).value)
    ensures CurrencyLimits(DetailsTable(ds), SymbolToCurrencyPair(ds[i].pair).value)
            == Limits(ToInt32(ds[i].pricePrecision), 8, ds[i].minimumOrderSize, 0.0)
    decreases |ds|
  {
    var key := LimitsKey(SymbolToCurrencyPair(ds[i].pair).value);
    if i < |ds| - 1 {
      var init := ds[..|ds| - 1];
      assert init[i] == ds[i];
      forall j | i < j < |init| && |init[j].pair| == 6
        ensures LimitsKey(SymbolToCurrencyPair(init[j].pair).value) != key
      {
        assert init[j] == ds[j];
      }
      LimitsAfterRun(init, i);
    }
  }

  /**
   * Run's loop over the fetched symbols: the available list in order, the
   * pair table of the symbols that convert and their details by limits key.
   */
  method BuildTables(ds: seq<SymbolDetails>) returns (products: seq<string>, pairs: map<string, Pair>, details: map<string, SymbolDetails>)
    ensures pairs == PairTable(ds) && details == DetailsTable(ds)
    ensures |products| == |ds| && forall i :: 0 <= i < |ds| ==> products[i] == ds[i].pair
  {
    var exchangeProducts := new string[|ds|];
    pairs, details := map[], map[];
    var i := 0;
    while i < |ds|
      invariant 0 <= i <= |ds|
      invariant pairs == PairTable(ds[..i]) && details == DetailsTable(ds[..i])
      invariant forall k :: 0 <= k < i ==> exchangeProducts[k] == ds[k].pair
    {
      assert ds[..i + 1][..i] == ds[..i];
      exchangeProducts[i] := ds[i].pair;
      var converted := SymbolToCurrencyPair(ds[i].pair);
      if converted.Ok? {
        pairs := pairs[ds[i].pair := converted.value];
        details := details[LimitsKey(converted.value) := ds[i]];
      }
      i := i + 1;
    }
    assert ds[..i] == ds;
    products := exchangeProducts[..];
  }

  // ------------------------------------------------------------- the adapter

  /** The exchange's switches and the tables Run fills. */
  datatype Settings = Settings(enabled: bool, authenticated: bool, currencyPairs: map<string, Pair>,
                               symbolDetails: map<string, SymbolDetails>, availablePairs: seq<string>)

  /**
   * What the dispatcher's call of the v1 or v2 authenticated send answers:
   * without credentials both return the no-credentials error before anything
   * else; with them, the exchange's reply.
   */
  function AuthenticatedReply<T>(authenticated: bool, reply: Result<T, Error>): Result<T, Error>
  {
    if authenticated then reply else Err(NoCredentials(ExchangeName))
  }

  /** The nonce after a dispatcher call: stepped exactly when an authenticated send got past its credential check. */
  function NonceAfter(called: bool, authenticated: bool, value: int, clockNanos: int): int
  {
    if called && authenticated then NextNonce(value, clockNanos) else value
  }

  /** The Bitfinex exchange object: dispatcher state, caches, symbol tables and its order-book store. */
  class Bitfinex {
    var enabled: bool
    var authenticated: bool
    var rateLimits: map<string, int>
    var ipBanStartTime: int
    var lastBalances: seq<Balance>
    var lastActiveOrders: seq<BitfinexOrder>
    var currencyPairs: map<string, Pair>
    var symbolDetails: map<string, SymbolDetails>
    var availablePairs: seq<string>
    const orderbooks: Orderbooks
    const nonce: Nonce

    /** The dispatcher's part of the exchange state. */
    function State(): Limiter
      reads this
    {
      Limiter(rateLimits, ipBanStartTime)
    }

    /** The fields no request changes: the switches and the tables Run fills. */
    function Config(): Settings
      reads this
    {
      Settings(enabled, authenticated, currencyPairs, symbolDetails, availablePairs)
    }

    /** SetDefaults: disabled, no rate-limit history, empty caches, an empty order-book store. */
    constructor ()
      ensures !enabled && !authenticated
      ensures rateLimits == map[] && ipBanStartTime == 0
      ensures lastBalances == [] && lastActiveOrders == []
      ensures currencyPairs == map[] && symbolDetails == map[] && availablePairs == []
      ensures fresh(orderbooks) && orderbooks.books == map[]
      ensures fresh(nonce) && nonce.value == 0
    {
      enabled, authenticated := false, false;
      rateLimits, ipBanStartTime := map[], 0;
      lastBalances, lastActiveOrders := [], [];
      currencyPairs, symbolDetails, availablePairs := map[], map[], [];
      orderbooks := new Orderbooks.Init();
      nonce := new Nonce();
    }

    /** GetLimits: the limits answered from the symbol details Run stored. */
    function GetLimits(p: Pair): (r: Limits)
      reads this
      ensures r == CurrencyLimits(symbolDetails, p)
      ensures LimitsKey(p) !in symbolDetails ==> r.priceDecimalPlaces == Undefined && r.minAmount == 0.0
    {
      CurrencyLimits(symbolDetails, p)
    }

    /**
     * SendRateLimitedHTTPRequest on this exchange's dispatcher state. `now` is
     * the dispatcher's millisecond clock and `clockNanos` the nanosecond clock
     * the authenticated send seeds a zero nonce from; `reply` is what the
     * exchange answers a request made with credentials.
     */
    method SendRateLimitedHTTPRequest<T>(requestsPerMin: nat, httpMethod: string, apiVersion: int, path: string,
                                         now: int, clockNanos: int, reply: Result<T, Error>, initial: T, default: T)
      returns (result: T, err: Option<Error>, sent: bool)
      requires requestsPerMin > 0
      modifies this, nonce
      ensures var d := Dispatch(old(State()), requestsPerMin, httpMethod, apiVersion, path, now,
                                AuthenticatedReply(old(authenticated), reply), initial, default);
              State() == d.limiter && result == d.result && err == d.err && sent == d.sent
      ensures nonce.value == NonceAfter(sent, old(authenticated), old(nonce.value), clockNanos)
      ensures Config() == old(Config())
      ensures lastBalances == old(lastBalances) && lastActiveOrders == old(lastActiveOrders)
    {
      var key := httpMethod + path;
      var curTimestamp := now;
      var requestDelay := BanWindow / requestsPerMin;
      var lastRequestTime := if key in rateLimits then rateLimits[key] else 0;
      var skipRequest := ipBanStartTime != 0 && curTimestamp - ipBanStartTime < BanWindow;
      if !skipRequest {
        skipRequest := curTimestamp - lastRequestTime < requestDelay;
      }
      result, sent := initial, false;
      if !skipRequest {
        var outcome: Result<T, Error>;
        if apiVersion == APIVersion1 || apiVersion == APIVersion2 {
          sent := true;
          if !authenticated {
            outcome := Err(NoCredentials(ExchangeName));
          } else {
            var _ := nonce.Advance(clockNanos);
            outcome := reply;
          }
        } else {
          outcome := Err(Message("invalid API version"));
        }
        if outcome == Err(RateLimitExceeded) {
          ipBanStartTime := curTimestamp;
          skipRequest := true;
        } else if outcome.Err? {
          err := Some(outcome.error);
          return;
        } else {
          result := outcome.value;
          ipBanStartTime := 0;
          rateLimits := rateLimits[key := curTimestamp];
        }
      }
      if skipRequest {
        result := default;
        err := Some(RateLimitedWarning);
        return;
      }
      err := None;
    }

    /** GetAccountBalance: 12 requests a minute; the cache is replaced only by a call that succeeds. */
    method GetAccountBalance(now: int, clockNanos: int, reply: Result<seq<Balance>, Error>)
      returns (balances: seq<Balance>, err: Option<Error>)
      modifies this, nonce
      ensures var d := Dispatch(old(State()), 12, "POST", APIVersion1, BalancesPath, now,
                                AuthenticatedReply(old(authenticated), reply), [], old(lastBalances));
              State() == d.limiter && balances == d.result && err == d.err
              && nonce.value == NonceAfter(d.sent, old(authenticated), old(nonce.value), clockNanos)
      ensures err.None? ==> lastBalances == balances
      ensures err.Some? ==> lastBalances == old(lastBalances)
      ensures lastActiveOrders == old(lastActiveOrders) && Config() == old(Config())
    {
      var sent;
      balances, err, sent := SendRateLimitedHTTPRequest(12, "POST", APIVersion1, BalancesPath, now, clockNanos, reply, [], lastBalances);
      if err.Some? {
        return;
      }
      lastBalances := balances;
    }

    /** GetActiveOrders: 10 requests a minute; the cache is replaced only by a call that succeeds. */
    method GetActiveOrders(now: int, clockNanos: int, reply: Result<seq<BitfinexOrder>, Error>)
      returns (orders: seq<BitfinexOrder>, err: Option<Error>)
      modifies this, nonce
      ensures var d := Dispatch(old(State()), 10, "POST", APIVersion1, OrdersPath, now,
                                AuthenticatedReply(old(authenticated), reply), [], old(lastActiveOrders));
              State() == d.limiter && orders == d.result && err == d.err
              && nonce.value == NonceAfter(d.sent, old(authenticated), old(nonce.value), clockNanos)
      ensures err.None? ==> lastActiveOrders == orders
      ensures err.Some? ==> lastActiveOrders == old(lastActiveOrders)
      ensures lastBalances == old(lastBalances) && Config() == old(Config())
    {
      var sent;
      orders, err, sent := SendRateLimitedHTTPRequest(10, "POST", APIVersion1, OrdersPath, now, clockNanos, reply, [], lastActiveOrders);
      if err.Some? {
        return;
      }
      lastActiveOrders := orders;
    }

    /**
     * GetOrders: the rate-limit warning is soft, so the cached orders are
     * still converted and returned with it; any other error returns no orders.
     */
    method GetOrders(now: int, clockNanos: int, reply: Result<seq<BitfinexOrder>, Error>)
      returns (ret: seq<Order>, err: Option<Error>)
      modifies this, nonce
      ensures var d := Dispatch(old(State()), 10, "POST", APIVersion1, OrdersPath, now,
                                AuthenticatedReply(old(authenticated), reply), [], old(lastActiveOrders));
              State() == d.limiter && err == d.err
              && nonce.value == NonceAfter(d.sent, old(authenticated), old(nonce.value), clockNanos)
              && (d.err.None? || d.err == Some(RateLimitedWarning) ==> ret == ConvertAll(d.result))
              && (d.err.Some? && d.err != Some(RateLimitedWarning) ==> ret == [])
              && (d.err.None? ==> lastActiveOrders == d.result)
      ensures err.Some? ==> lastActiveOrders == old(lastActiveOrders)
      ensures lastBalances == old(lastBalances) && Config() == old(Config())
    {
      var orders, e := GetActiveOrders(now, clockNanos, reply);
      var retErr: Option<Error> := None;
      if e == Some(RateLimitedWarning) {
        retErr := e;
      } else if e.Some? {
        return [], e;
      }
      ret := ConvertOrders(orders);
      err := retErr;
    }

    /**
     * The request body of an authenticated v1 request: the nonce is seeded
     * or incremented first, then the path and nonce are set and the caller's
     * parameters merged over them.
     */
    method AuthenticatedPayload(path: string, params: map<string, string>, now: int)
      returns (r: Result<map<string, string>, Error>)
      modifies nonce
      ensures !authenticated ==> r == Err(NoCredentials(ExchangeName)) && nonce.value == old(nonce.value)
      ensures authenticated ==> nonce.value == NextNonce(old(nonce.value), now)
      ensures authenticated ==> r == Ok(map["request" := "/v1/" + path, "nonce" := FormatInt(nonce.value)] + params)
    {
      if !authenticated {
        return Err(NoCredentials(ExchangeName));
      }
      var n := nonce.Advance(now);
      var request := map["request" := "/v1/" + path, "nonce" := FormatInt(n)];
      request := request + params;
      r := Ok(request);
    }

    /**
     * Run's table build: every symbol goes to the available list; a symbol
     * that converts gets a pair-table entry and its details stored under
     * its pair's limits key.
     */
    method Run(fetched: Result<seq<SymbolDetails>, Error>)
      modifies this
      ensures fetched.Err? ==> currencyPairs == old(currencyPairs) && symbolDetails == old(symbolDetails)
                               && availablePairs == old(availablePairs)
      ensures fetched.Ok? ==> currencyPairs == PairTable(fetched.value) && symbolDetails == DetailsTable(fetched.value)
      ensures fetched.Ok? ==> |availablePairs| == |fetched.value|
                              && forall i :: 0 <= i < |fetched.value| ==> availablePairs[i] == fetched.value[i].pair
      ensures State() == old(State()) && lastBalances == old(lastBalances) && lastActiveOrders == old(lastActiveOrders)
      ensures enabled == old(enabled) && authenticated == old(authenticated)
    {
      if fetched.Err? {
        return;
      }
      var products, pairs, details := BuildTables(fetched.value);
      currencyPairs, symbolDetails, availablePairs := pairs, details, products;
    }

    /**
     * UpdateOrderbook: fetch the book for the pair's symbol, copy its rows,
     * store it under (pair, asset type) and answer with what the store then holds.
     */
    method UpdateOrderbook(p: Pair, assetType: string, fetch: string -> Result<RawBook, Error>, now: int)
      returns (b: Base, err: Option<Error>)
      modifies orderbooks
      ensures fetch(CurrencyPairToSymbol(p)).Err? ==>
                b == EmptyBase && err == Some(fetch(CurrencyPairToSymbol(p)).error)
                && orderbooks.books == old(orderbooks.books)
      ensures fetch(CurrencyPairToSymbol(p)).Ok? ==>
                var stored := Stamped(p, BookOf(fetch(CurrencyPairToSymbol(p)).value), now);
                b == stored && err == None && orderbooks.books == Put(old(orderbooks.books), p, assetType, stored)
    {
      var symbol := CurrencyPairToSymbol(p);
      var orderbookNew := fetch(symbol);
      if orderbookNew.Err? {
        return EmptyBase, Some(orderbookNew.error);
      }
      b := StoreSnapshot(orderbooks, ExchangeName, p, assetType, orderbookNew.value.bids, orderbookNew.value.asks,
                         EntryAmount, EntryPrice, now);
      err := None;
    }

    /**
     * GetOrderbookEx as written: a pair the store already has is fetched
     * again; a pair it does not have answers with the zero book and no error.
     */
    method GetOrderbookEx(p: Pair, assetType: string, fetch: string -> Result<RawBook, Error>, now: int)
      returns (b: Base, err: Option<Error>)
      modifies orderbooks
      ensures old(Get(orderbooks.books, p, assetType)).Err? ==>
                b == EmptyBase && err == None && orderbooks.books == old(orderbooks.books)
      ensures old(Get(orderbooks.books, p, assetType)).Ok? && fetch(CurrencyPairToSymbol(p)).Ok? ==>
                var stored := Stamped(p, BookOf(fetch(CurrencyPairToSymbol(p)).value), now);
                b == stored && err == None && orderbooks.books == Put(old(orderbooks.books), p, assetType, stored)
      ensures old(Get(orderbooks.books, p, assetType)).Ok? && fetch(CurrencyPairToSymbol(p)).Err? ==>
                b == EmptyBase && err == Some(fetch(CurrencyPairToSymbol(p)).error)
                && orderbooks.books == old(orderbooks.books)
    {
      var ob := orderbooks.GetOrderbook(ExchangeName, p, assetType);
      if ob.Ok? {
        b, err := UpdateOrderbook(p, assetType, fetch, now);
        return;
      }
      return EmptyBase, None;
    }

    /**
     * GetExchangeAccountInfo: the balance call's error (the rate-limit warning
     * included) comes back first; a disabled exchange answers with its name
     * only; otherwise one entry per currency, summed over its wallets.
     */
    method GetExchangeAccountInfo(now: int, clockNanos: int, reply: Result<seq<Balance>, Error>)
      returns (info: AccountInfo, err: Option<Error>, ghost order: seq<string>)
      modifies this, nonce
      ensures info.exchangeName == ExchangeName
      ensures var d := Dispatch(old(State()), 12, "POST", APIVersion1, BalancesPath, now,
                                AuthenticatedReply(old(authenticated), reply), [], old(lastBalances));
              State() == d.limiter && err == d.err
              && nonce.value == NonceAfter(d.sent, old(authenticated), old(nonce.value), clockNanos)
              && (d.err.None? ==> lastBalances == d.result)
              && (err.Some? || !enabled ==> info.currencies == [])
              && (err.None? && enabled ==>
                    |info.currencies| == |order| == |Currencies(d.result)|
                    && (forall i, j :: 0 <= i < j < |order| ==> order[i] != order[j])
                    && (forall c :: c in Currencies(d.result) <==> c in order)
                    && (forall i :: 0 <= i < |order| ==>
                          info.currencies[i] == AccountEntry(order[i], WalletBalance(OnHoldSum(d.result, order[i]), AvailableSum(d.result, order[i])))))
      ensures err.Some? ==> lastBalances == old(lastBalances)
      ensures lastActiveOrders == old(lastActiveOrders) && Config() == old(Config())
    {
      order := [];
      var balances, e := GetAccountBalance(now, clockNanos, reply);
      if e.Some? {
        return AccountInfo(ExchangeName, []), e, [];
      }
      if !enabled {
        return AccountInfo(ExchangeName, []), None, [];
      }
      var accounts := AggregateWallets(balances);
      var cs;
      cs, order := AccountEntries(accounts);
      info, err := AccountInfo(ExchangeName, cs), None;
    }
  }
}
