/**
 * The Bittrex adapter: the inverted "-" symbol codec, the limits with their
 * minimum-trade table, the order normaliser, the side dispatch of NewOrder,
 * the order-type fallback of getOrder, the success envelope, the signed
 * query with its nonce, and the wrapper's market tables with the forced
 * configuration upgrade, balances, order-book refresh and pair inversion.
 */
module Bittrex {
  import opened Wrappers
  import opened Text
  import opened Pairs
  import opened Exchange
  import opened Orderbook

  const ExchangeName: string := "Bittrex"
  const Delimiter: char := '-'
  const TypeLimitBuy: string := "LIMIT_BUY"
  const TypeLimitSell: string := "LIMIT_SELL"
  const BuyLimitPath: string := "market/buylimit"
  const SellLimitPath: string := "market/selllimit"
  /** The only pair left enabled when the configuration has to be upgraded. */
  const UpgradePair: string := "USDT-BTC"

  // ---------------------------------------------------------------- symbols

  /** A Bittrex symbol is the inverted pair, "-"-delimited, upper case: the second currency comes first. */
  function CurrencyPairToSymbol(p: Pair): (r: string)
    ensures r == Upper(p.second) + "-" + Upper(p.first)
  {
    DisplayParts(Invert(p), Delimiter, true);
    Display(Invert(p), [Delimiter], true)
  }

  /** The field before the first "-" is the second currency, the field after it the first. */
  function SymbolToCurrencyPair(symbol: string): (r: Pair)
    ensures r.second == Before(symbol, Delimiter) && r.first == Before(After(symbol, Delimiter), Delimiter)
    ensures FreeOf(r, Delimiter)
  {
    Invert(FromDelimited(symbol, Delimiter))
  }

  /** A pair whose codes hold no "-" comes back from its symbol, in upper case. */
  lemma SymbolRoundTrip(p: Pair)
    requires FreeOf(p, Delimiter)
    ensures SymbolToCurrencyPair(CurrencyPairToSymbol(p)) == FormatPair(p, true)
  {
    SplitDisplay(Invert(p), Delimiter, true);
  }

  /** A symbol "base-market" comes back from its pair, in upper case. */
  lemma PairRoundTrip(base: string, market: string)
    requires Delimiter !in base && Delimiter !in market
    ensures CurrencyPairToSymbol(SymbolToCurrencyPair(base + [Delimiter] + market)) == Upper(base + [Delimiter] + market)
  {
    DisplaySplit(base, market, Delimiter, true);
  }

  // ----------------------------------------------------------------- limits

  /** The key of the minimum-trade table: the pair, "/"-delimited, lower case. */
  function MinTradeKey(p: Pair): (r: string)
    ensures r == Lower(p.first) + "/" + Lower(p.second)
  {
    DisplayParts(p, '/', false);
    Display(p, "/", false)
  }

  /**
   * currencyLimits: 8 price and 8 amount places for every pair, the minimum
   * trade size from the table or 0. The type has no GetMinTotal; 0 stands in.
   */
  function CurrencyLimits(minTradeSizes: map<string, real>, p: Pair): (r: Limits)
    ensures r.priceDecimalPlaces == 8 && r.amountDecimalPlaces == 8 && r.minTotal == 0.0
    ensures MinTradeKey(p) in minTradeSizes ==> r.minAmount == minTradeSizes[MinTradeKey(p)]
    ensures MinTradeKey(p) !in minTradeSizes ==> r.minAmount == 0.0
  {
    var k := MinTradeKey(p);
    Limits(8, 8, if k in minTradeSizes then minTradeSizes[k] else 0.0, 0.0)
  }

  /** The limits key does not depend on the case the pair is written in. */
  lemma MinTradeKeyIgnoresCase(p: Pair)
    ensures MinTradeKey(FormatPair(p, true)) == MinTradeKey(p)
  {
    var s := p.first + "/" + p.second;
    CasedAppend(p.first, "/", true);
    CasedAppend(p.first + "/", p.second, true);
    assert Upper(p.first) + "/" + Upper(p.second) == Upper(s);
    LowerOfUpper(s);
  }

  /** With no negative sizes in the table the limits keep the ILimits conventions, whatever the case of the pair. */
  lemma CurrencyLimitsWellFormed(t: map<string, real>, p: Pair)
    requires forall k :: k in t ==> t[k] >= 0.0
    ensures WellFormed(CurrencyLimits(t, p))
    ensures CurrencyLimits(t, p) == CurrencyLimits(t, FormatPair(p, true))
  {
    MinTradeKeyIgnoresCase(p);
  }

  // ------------------------------------------------------------------ orders

  /** An order as the market and account endpoints list it. */
  datatype BittrexOrder = BittrexOrder(
    orderUUID: string, exchange: string, orderType: string,
    quantity: real, quantityRemaining: real, limit: real, pricePerUnit: real,
    openedAt: string, closedAt: string)

  /** The status vocabulary: an order with a close time is aborted while something remains, else filled. */
  function OrderStatus(closed: string, quantityRemaining: real): (r: Status)
    ensures r == Active <==> closed == ""
    ensures r == Aborted <==> closed != "" && quantityRemaining > 0.0
    ensures r == Filled <==> closed != "" && quantityRemaining <= 0.0
  {
    if |closed| > 0 then (if quantityRemaining > 0.0 then Aborted else Filled) else Active
  }

  /** LIMIT_BUY is a buy and LIMIT_SELL a sell; any other type leaves the side unset. */
  function OrderSide(orderType: string): (r: string)
    ensures r == SideBuy <==> orderType == TypeLimitBuy
    ensures r == SideSell <==> orderType == TypeLimitSell
    ensures r == Unset <==> orderType != TypeLimitBuy && orderType != TypeLimitSell
  {
    if orderType == TypeLimitBuy then SideBuy else if orderType == TypeLimitSell then SideSell else Unset
  }

  /**
   * convertOrderToExchangeOrder. `parseTime` is time.Parse in the
   * "2006-01-02T15:04:05" layout, as Unix seconds, None when it fails.
   */
  function ConvertOrder(o: BittrexOrder, parseTime: string -> Option<int>): (r: Order)
    ensures r.orderID == o.orderUUID && r.status == OrderStatus(o.closedAt, o.quantityRemaining)
    ensures r.amount == o.quantity && r.remainingAmount == o.quantityRemaining && Conserves(r)
    ensures o.pricePerUnit > 0.0 ==> r.rate == o.pricePerUnit
    ensures o.pricePerUnit <= 0.0 ==> r.rate == o.limit
    ensures parseTime(o.openedAt).Some? ==> r.createdAt == parseTime(o.openedAt).value
    ensures parseTime(o.openedAt).None? ==> r.createdAt == 0
    ensures r.currencyPair == SymbolToCurrencyPair(o.exchange)
    ensures r.side == OrderSide(o.orderType) && r.orderType == Unset
  {
    var rate := if o.pricePerUnit > 0.0 then o.pricePerUnit else o.limit;
    var createdAt := match parseTime(o.openedAt) case Some(t) => t case None => 0;
    Order(o.orderUUID, OrderStatus(o.closedAt, o.quantityRemaining), o.quantity, o.quantity - o.quantityRemaining,
          o.quantityRemaining, rate, createdAt, SymbolToCurrencyPair(o.exchange), OrderSide(o.orderType), Unset)
  }

  /**
   * A closed order is filled exactly when its filled part reaches the whole
   * amount; an order on a market made from a pair carries that pair.
   */
  lemma ConvertOrderRecovers(o: BittrexOrder, p: Pair, parseTime: string -> Option<int>)
    requires o.exchange == CurrencyPairToSymbol(p) && FreeOf(p, Delimiter)
    ensures var r := ConvertOrder(o, parseTime);
            r.currencyPair == FormatPair(p, true)
            && (r.status == Filled ==> r.filledAmount >= r.amount)
            && (r.status == Aborted ==> r.filledAmount < r.amount)
  {
    SymbolRoundTrip(p);
  }

  /** GetOrders: one converted order per open order, in order; a failed fetch gives none. */
  method GetOrders(reply: Result<seq<BittrexOrder>, Error>, parseTime: string -> Option<int>)
    returns (ret: seq<Order>, err: Option<Error>)
    ensures reply.Err? ==> ret == [] && err == Some(reply.error)
    ensures reply.Ok? ==> err == None && |ret| == |reply.value|
    ensures reply.Ok? ==> forall i :: 0 <= i < |ret| ==> ret[i] == ConvertOrder(reply.value[i], parseTime)
  {
    ret := [];
    if reply.Err? {
      return ret, Some(reply.error);
    }
    var orders := reply.value;
    for i := 0 to |orders|
      invariant |ret| == i
      invariant forall k :: 0 <= k < i ==> ret[k] == ConvertOrder(orders[k], parseTime)
    {
      ret := ret + [ConvertOrder(orders[i], parseTime)];
    }
    err := None;
  }

  // --------------------------------------------------------------- NewOrder

  /** A limit order request: the endpoint and its form. */
  datatype LimitOrder = LimitOrder(path: string, values: map<string, string>)

  /** PlaceBuyLimit / PlaceSellLimit's form; `formatFloat` is strconv.FormatFloat(x, 'E', -1, 64). */
  function PlaceLimit(path: string, symbol: string, quantity: real, rate: real, formatFloat: real -> string): (r: LimitOrder)
    ensures r.path == path && r.values.Keys == {"market", "quantity", "rate"}
    ensures r.values["market"] == symbol
    ensures r.values["quantity"] == formatFloat(quantity) && r.values["rate"] == formatFloat(rate)
  {
    LimitOrder(path, map["market" := symbol, "quantity" := formatFloat(quantity), "rate" := formatFloat(rate)])
  }

  /** What NewOrder did: the order ID or error it returned and the request it sent, if any. */
  datatype Placed = Placed(orderID: Result<string, Error>, request: Option<LimitOrder>)

  /** NewOrder: a buy goes to buylimit, a sell to selllimit, any other side is refused before sending. */
  function NewOrder(p: Pair, amount: real, price: real, side: string, formatFloat: real -> string,
                    send: LimitOrder -> Result<string, Error>): (r: Placed)
    ensures side == SideBuy ==> r.request == Some(PlaceLimit(BuyLimitPath, CurrencyPairToSymbol(p), amount, price, formatFloat))
    ensures side == SideSell ==> r.request == Some(PlaceLimit(SellLimitPath, CurrencyPairToSymbol(p), amount, price, formatFloat))
    ensures r.request.Some? ==> r.orderID == send(r.request.value)
    ensures r.request.None? <==> side != SideBuy && side != SideSell
    ensures r.request.None? ==>
              r.orderID == Err(Message("can't create order on " + ExchangeName + " exchange invalid value '" + side + "' for side"))
  {
    var symbol := CurrencyPairToSymbol(p);
    if side == SideBuy then
      var req := PlaceLimit(BuyLimitPath, symbol, amount, price, formatFloat);
      Placed(send(req), Some(req))
    else if side == SideSell then
      var req := PlaceLimit(SellLimitPath, symbol, amount, price, formatFloat);
      Placed(send(req), Some(req))
    else
      Placed(Err(Message("can't create order on " + ExchangeName + " exchange invalid value '" + side + "' for side")), None)
  }

  /** The market a placed order names is the pair it was placed for, and an order sent is a buy or a sell. */
  lemma NewOrderNamesPair(p: Pair, amount: real, price: real, side: string, formatFloat: real -> string,
                          send: LimitOrder -> Result<string, Error>)
    requires FreeOf(p, Delimiter)
    ensures var r := NewOrder(p, amount, price, side, formatFloat, send);
            r.request.Some? ==>
              SymbolToCurrencyPair(r.request.value.values["market"]) == FormatPair(p, true)
              && (r.request.value.path == BuyLimitPath <==> side == SideBuy)
  {
    SymbolRoundTrip(p);
  }

  // ---------------------------------------------------------------- envelope

  /** The envelope every Bittrex reply comes in. */
  datatype Response = Response(success: bool, message: string, result: string)

  /** HTTPRequestJSON: the raw result when the envelope reports success, its message as the error otherwise. */
  function HTTPRequestJSON(reply: Result<Response, Error>): (r: Result<string, Error>)
    ensures reply.Err? ==> r == Err(reply.error)
    ensures reply.Ok? ==> (r.Ok? <==> reply.value.success)
    ensures r.Ok? ==> r.value == reply.value.result
    ensures reply.Ok? && !reply.value.success ==> r == Err(Message(reply.value.message))
  {
    match reply
    case Err(e) => Err(e)
    case Ok(response) => if response.success then Ok(response.result) else Err(Message(response.message))
  }

  /** HTTPRequest: the envelope's error, or the decode of a successful result. */
  function HTTPRequest<T>(reply: Result<Response, Error>, decode: string -> Result<T, Error>): (r: Result<T, Error>)
    ensures HTTPRequestJSON(reply).Err? ==> r == Err(HTTPRequestJSON(reply).error)
    ensures HTTPRequestJSON(reply).Ok? ==> r == decode(reply.value.result)
  {
    var msg := HTTPRequestJSON(reply);
    if msg.Err? then Err(msg.error) else decode(msg.value)
  }

  /** A reply that is not a success is never decoded, and its message is the error. */
  lemma UnsuccessfulReplyIsNotDecoded<T>(response: Response, decode: string -> Result<T, Error>)
    requires !response.success
    ensures HTTPRequest(Ok(response), decode) == Err(Message(response.message))
  {
  }

  /**
   * getOrder on the raw result: decode the order, and when that leaves its
   * type empty, decode the result again for the "Type" field the getorder
   * endpoint uses instead.
   */
  function GetOrderReply(msg: Result<string, Error>, decodeOrder: string -> Result<BittrexOrder, Error>,
                         decodeType: string -> Result<string, Error>): (r: Result<BittrexOrder, Error>)
    ensures msg.Err? ==> r == Err(msg.error)
    ensures msg.Ok? && decodeOrder(msg.value).Err? ==> r == Err(decodeOrder(msg.value).error)
    ensures r.Ok? ==> msg.Ok? && decodeOrder(msg.value).Ok?
    ensures r.Ok? ==> r.value == decodeOrder(msg.value).value.(orderType := r.value.orderType)
    ensures r.Ok? && decodeOrder(msg.value).value.orderType != "" ==> r == decodeOrder(msg.value)
    ensures msg.Ok? && decodeOrder(msg.value).Ok? && decodeOrder(msg.value).value.orderType == "" ==>
              (r.Ok? <==> decodeType(msg.value).Ok?)
              && (r.Ok? ==> r.value.orderType == decodeType(msg.value).value)
              && (r.Err? ==> r.error == decodeType(msg.value).error)
  {
    match msg
    case Err(e) => Err(e)
    case Ok(raw) =>
      match decodeOrder(raw)
      case Err(e) => Err(e)
      case Ok(order) =>
        if order.orderType != "" then Ok(order)
        else
          match decodeType(raw)
          case Err(e) => Err(e)
          case Ok(t) => Ok(order.(orderType := t))
  }

  /** GetOrder: the fetched order, converted. */
  function GetOrder(msg: Result<string, Error>, decodeOrder: string -> Result<BittrexOrder, Error>,
                    decodeType: string -> Result<string, Error>, parseTime: string -> Option<int>): (r: Result<Order, Error>)
    ensures r.Ok? <==> GetOrderReply(msg, decodeOrder, decodeType).Ok?
    ensures r.Ok? ==> r.value == ConvertOrder(GetOrderReply(msg, decodeOrder, decodeType).value, parseTime)
    ensures r.Err? ==> r.error == GetOrderReply(msg, decodeOrder, decodeType).error
  {
    match GetOrderReply(msg, decodeOrder, decodeType)
    case Err(e) => Err(e)
    case Ok(o) => Ok(ConvertOrder(o, parseTime))
  }

  /** An order the getorder endpoint types only in its "Type" field still gets its side. */
  lemma FallbackTypeGivesSide(raw: string, decodeOrder: string -> Result<BittrexOrder, Error>,
                              decodeType: string -> Result<string, Error>, parseTime: string -> Option<int>)
    requires decodeOrder(raw).Ok? && decodeOrder(raw).value.orderType == ""
    requires decodeType(raw) == Ok(TypeLimitSell)
    ensures GetOrder(Ok(raw), decodeOrder, decodeType, parseTime).Ok?
    ensures GetOrder(Ok(raw), decodeOrder, decodeType, parseTime).value.side == SideSell
  {
  }

  // -------------------------------------------------------------- run tables

  /** A market as getmarkets lists it. */
  datatype Market = Market(marketName: string, marketCurrencyLong: string, baseCurrencyLong: string,
                           minTradeSize: real, isActive: bool)

  /** The entry Run files under a market's name. */
  function PairInfo(m: Market): (r: CurrencyPairInfo)
    ensures r.currency == SymbolToCurrencyPair(m.marketName)
    ensures r.firstCurrencyName == m.marketCurrencyLong && r.secondCurrencyName == m.baseCurrencyLong
  {
    CurrencyPairInfo(SymbolToCurrencyPair(m.marketName), m.marketCurrencyLong, m.baseCurrencyLong)
  }

  /** currencyPairs as Run leaves it: every market under its name, a later market replacing an earlier one. */
  function PairTable(ms: seq<Market>): map<string, CurrencyPairInfo>
    decreases |ms|
  {
    if ms == [] then map[] else PairTable(ms[..|ms| - 1])[ms[|ms| - 1].marketName := PairInfo(ms[|ms| - 1])]
  }

  /** minTradeSizes as Run leaves it: every market's minimum under its pair's limits key. */
  function MinTradeTable(ms: seq<Market>): map<string, real>
    decreases |ms|
  {
    if ms == [] then map[]
    else MinTradeTable(ms[..|ms| - 1])[MinTradeKey(SymbolToCurrencyPair(ms[|ms| - 1].marketName)) := ms[|ms| - 1].minTradeSize]
  }

  /** A market goes into the available list when it is active and has a name. */
  predicate Listed(m: Market)
  {
    m.isActive && m.marketName != ""
  }

  /** The names of the listed markets, in the order they were fetched. */
  function ActiveMarkets(ms: seq<Market>): (names: seq<string>)
    ensures |names| <= |ms|
    ensures forall k :: 0 <= k < |names| ==> names[k] != ""
    decreases |ms|
  {
    if ms == [] then []
    else ActiveMarkets(ms[..|ms| - 1]) + (if Listed(ms[|ms| - 1]) then [ms[|ms| - 1].marketName] else [])
  }

  /**
   * The pair table holds exactly the fetched market names, each with the
   * inverted pair its name splits into.
   */
  lemma {:induction false} PairTableExact(ms: seq<Market>)
    ensures forall s :: s in PairTable(ms) ==> PairTable(ms)[s].currency == SymbolToCurrencyPair(s)
    ensures forall i :: 0 <= i < |ms| ==> ms[i].marketName in PairTable(ms)
    decreases |ms|
  {
    if ms != [] {
      var init := ms[..|ms| - 1];
      PairTableExact(init);
      forall i | 0 <= i < |ms| - 1 ensures ms[i] == init[i] { }
    }
  }

  /**
   * The minimum of a fetched market is what the limits report for its pair,
   * provided no later market files a minimum under the same key: the table
   * and the limits use the same key.
   */
  lemma {:induction false} LimitsAfterRun(ms: seq<Market>, i: nat)
    requires i < |ms|
    requires forall j :: i < j < |ms| ==>
               MinTradeKey(SymbolToCurrencyPair(ms[j].marketName)) != MinTradeKey(SymbolToCurrencyPair(ms[i].marketName))
    ensures CurrencyLimits(MinTradeTable(ms), SymbolToCurrencyPair(ms[i].marketName)).minAmount == ms[i].minTradeSize
    decreases |ms|
  {
    var key := MinTradeKey(SymbolToCurrencyPair(ms[i].marketName));
    if i < |ms| - 1 {
      var init := ms[..|ms| - 1];
      assert init[i] == ms[i];
      forall j | i < j < |init|
        ensures MinTradeKey(SymbolToCurrencyPair(init[j].marketName)) != key
      {
        assert init[j] == ms[j];
      }
      LimitsAfterRun(init, i);
    }
  }

  /** Every listed market is in the available list, and every name in it is a listed market's. */
  lemma {:induction false} ActiveMarketsExact(ms: seq<Market>)
    ensures forall i :: 0 <= i < |ms| && Listed(ms[i]) ==> ms[i].marketName in ActiveMarkets(ms)
    ensures forall n :: n in ActiveMarkets(ms) ==> exists i :: 0 <= i < |ms| && Listed(ms[i]) && ms[i].marketName == n
    decreases |ms|
  {
    if ms != [] {
      var init := ms[..|ms| - 1];
      ActiveMarketsExact(init);
      forall i | 0 <= i < |ms| - 1 ensures ms[i] == init[i] { }
    }
  }

  /** common.DataContains(pairs, "-"): some configured pair holds a "-". */
  predicate HasDelimited(pairs: seq<string>)
  {
    exists i :: 0 <= i < |pairs| && Delimiter in pairs[i]
  }

  /** The configuration is upgraded when either pair list has no "-" anywhere. */
  predicate NeedsUpgrade(enabledPairs: seq<string>, availablePairs: seq<string>)
  {
    !HasDelimited(enabledPairs) || !HasDelimited(availablePairs)
  }

  // ----------------------------------------------------------------- books

  datatype BookEntry = BookEntry(quantity: real, rate: real)
  /** getorderbook's reply: the buy side becomes the bids, the sell side the asks. */
  datatype RawBook = RawBook(buy: seq<BookEntry>, sell: seq<BookEntry>)

  function EntryAmount(e: BookEntry): real { e.quantity }
  function EntryPrice(e: BookEntry): real { e.rate }

  /** The snapshot UpdateOrderbook stores: buy rows become the bids and sell rows the asks, row by row in order. */
  function BookOf(raw: RawBook): (r: Base)
    ensures |r.bids| == |raw.buy| && |r.asks| == |raw.sell|
    ensures forall i :: 0 <= i < |raw.buy| ==> r.bids[i] == Item(raw.buy[i].quantity, raw.buy[i].rate)
    ensures forall i :: 0 <= i < |raw.sell| ==> r.asks[i] == Item(raw.sell[i].quantity, raw.sell[i].rate)
    ensures r.pair == NoPair && r.currencyPair == "" && r.lastUpdated == 0
  {
    Snapshot(raw.buy, raw.sell, EntryAmount, EntryPrice)
  }

  // --------------------------------------------------------------- balances

  datatype Balance = Balance(currency: string, balance: real, available: real)

  /** One balance: the whole balance as the total, the available part, and the rest on hold. */
  function BalanceEntry(b: Balance): (r: AccountCurrencyInfo)
    ensures r.currencyName == b.currency && r.totalValue == b.balance && r.available == b.available
    ensures r.hold + r.available == r.totalValue
  {
    AccountCurrencyInfo(b.currency, b.balance, b.balance - b.available, b.available)
  }

  /** GetExchangeAccountInfo: one entry per balance, in order; a failed fetch gives only the name and its error. */
  method GetExchangeAccountInfo(reply: Result<seq<Balance>, Error>) returns (info: AccountInfo, err: Option<Error>)
    ensures info.exchangeName == ExchangeName
    ensures reply.Err? ==> info.currencies == [] && err == Some(reply.error)
    ensures reply.Ok? ==> err == None && |info.currencies| == |reply.value|
    ensures reply.Ok? ==> forall i :: 0 <= i < |reply.value| ==> info.currencies[i] == BalanceEntry(reply.value[i])
  {
    if reply.Err? {
      return AccountInfo(ExchangeName, []), Some(reply.error);
    }
    var balances := reply.value;
    var cs: seq<AccountCurrencyInfo> := [];
    var i := 0;
    while i < |balances|
      invariant 0 <= i <= |balances|
      invariant |cs| == i
      invariant forall k :: 0 <= k < i ==> cs[k] == BalanceEntry(balances[k])
    {
      cs := cs + [BalanceEntry(balances[i])];
      i := i + 1;
    }
    info, err := AccountInfo(ExchangeName, cs), None;
  }

  /** Run's first loop: the pair table and the minimum trade sizes of every market. */
  method BuildTables(ms: seq<Market>) returns (pairs: map<string, CurrencyPairInfo>, mins: map<string, real>)
    ensures pairs == PairTable(ms) && mins == MinTradeTable(ms)
  {
    pairs, mins := map[], map[];
    var i := 0;
    while i < |ms|
      invariant 0 <= i <= |ms|
      invariant pairs == PairTable(ms[..i]) && mins == MinTradeTable(ms[..i])
    {
      assert ms[..i + 1][..i] == ms[..i];
      var currencyPair := SymbolToCurrencyPair(ms[i].marketName);
      pairs := pairs[ms[i].marketName := CurrencyPairInfo(currencyPair, ms[i].marketCurrencyLong, ms[i].baseCurrencyLong)];
      mins := mins[MinTradeKey(currencyPair) := ms[i].minTradeSize];
      i := i + 1;
    }
    assert ms[..i] == ms;
  }

  /** Run's second loop: the names of the active markets, in order. */
  method ListActive(ms: seq<Market>) returns (currencies: seq<string>)
    ensures currencies == ActiveMarkets(ms)
  {
    currencies := [];
    var x := 0;
    while x < |ms|
      invariant 0 <= x <= |ms|
      invariant currencies == ActiveMarkets(ms[..x])
    {
      assert ms[..x + 1][..x] == ms[..x];
      if Listed(ms[x]) {
        currencies := currencies + [ms[x].marketName];
      }
      x := x + 1;
    }
    assert ms[..x] == ms;
  }

  // ------------------------------------------------------------- the adapter

  /** What SendAuthenticatedHTTPRequest sends: the query and its apisign header. */
  datatype SignedQuery = SignedQuery(rawQuery: string, apisign: string)

  /** The pairs the configuration lists, split on "-" the way the configuration writes them. */
  function ConfigPairs(names: seq<string>): (r: seq<Pair>)
    ensures |r| == |names|
    ensures forall i :: 0 <= i < |names| ==> r[i] == FromDelimited(names[i], Delimiter)
  {
    seq(|names|, i requires 0 <= i < |names| => FromDelimited(names[i], Delimiter))
  }

  /** The inverted configuration pairs are exactly what the codec makes of each configured symbol. */
  lemma InvertedConfigIsSymbols(names: seq<string>)
    ensures forall i :: 0 <= i < |names| ==> InvertEach(ConfigPairs(names))[i] == SymbolToCurrencyPair(names[i])
    ensures InvertEach(InvertEach(ConfigPairs(names))) == ConfigPairs(names)
  {
    InvertEachTwice(ConfigPairs(names));
  }

  /** The Bittrex exchange object. */
  class Bittrex {
    var authenticated: bool
    var apiKey: string
    var apiSecret: string
    var currencyPairs: map<string, CurrencyPairInfo>
    var minTradeSizes: map<string, real>
    var enabledPairs: seq<string>
    var availablePairs: seq<string>
    const orderbooks: Orderbooks
    const nonce: Nonce

    /** SetDefaults: no credentials, no tables, no pairs, an empty order-book store. */
    constructor ()
      ensures !authenticated && apiKey == "" && apiSecret == ""
      ensures currencyPairs == map[] && minTradeSizes == map[] && enabledPairs == [] && availablePairs == []
      ensures fresh(orderbooks) && orderbooks.books == map[]
      ensures fresh(nonce) && nonce.value == 0
    {
      authenticated, apiKey, apiSecret := false, "", "";
      currencyPairs, minTradeSizes := map[], map[];
      enabledPairs, availablePairs := [], [];
      orderbooks := new Orderbooks.Init();
      nonce := new Nonce();
    }

    /** GetLimits, read for one pair. */
    function GetLimits(p: Pair): (r: Limits)
      reads this
      ensures r == CurrencyLimits(minTradeSizes, p)
      ensures r.priceDecimalPlaces == 8 && r.amountDecimalPlaces == 8
    {
      CurrencyLimits(minTradeSizes, p)
    }

    /**
     * Run on the fetched markets: the pair and minimum tables, the forced
     * configuration upgrade and the available list. A failed fetch changes
     * nothing.
     */
    method Run(fetched: Result<seq<Market>, Error>)
      modifies this
      ensures fetched.Err? ==> currencyPairs == old(currencyPairs) && minTradeSizes == old(minTradeSizes)
      ensures fetched.Err? ==> enabledPairs == old(enabledPairs) && availablePairs == old(availablePairs)
      ensures fetched.Ok? ==> currencyPairs == PairTable(fetched.value) && minTradeSizes == MinTradeTable(fetched.value)
      ensures fetched.Ok? ==> availablePairs == ActiveMarkets(fetched.value)
      ensures fetched.Ok? && NeedsUpgrade(old(enabledPairs), old(availablePairs)) ==> enabledPairs == [UpgradePair]
      ensures fetched.Ok? && !NeedsUpgrade(old(enabledPairs), old(availablePairs)) ==> enabledPairs == old(enabledPairs)
      ensures authenticated == old(authenticated) && apiKey == old(apiKey) && apiSecret == old(apiSecret)
    {
      if fetched.Err? {
        return;
      }
      var pairs, mins := BuildTables(fetched.value);
      currencyPairs, minTradeSizes := pairs, mins;
      var forceUpgrade := NeedsUpgrade(enabledPairs, availablePairs);
      var currencies := ListActive(fetched.value);
      if forceUpgrade {
        enabledPairs := [UpgradePair];
      }
      availablePairs := currencies;
    }

    /**
     * SendAuthenticatedHTTPRequest's query: the nonce is stepped, the key,
     * the secret and the nonce are set in the form, and the query
     * "path?form" is signed with the secret.
     */
    method SignedRequest(path: string, values: map<string, string>, now: int,
                         encode: map<string, string> -> string, sign: (string, string) -> string)
      returns (r: Result<SignedQuery, Error>)
      modifies nonce
      ensures !authenticated ==> r == Err(NoCredentials(ExchangeName)) && nonce.value == old(nonce.value)
      ensures authenticated ==> nonce.value == NextNonce(old(nonce.value), now)
      ensures authenticated ==>
                var form := values["apikey" := apiKey]["apisecret" := apiSecret]["nonce" := FormatInt(nonce.value)];
                var rawQuery := path + "?" + encode(form);
                r == Ok(SignedQuery(rawQuery, sign(rawQuery, apiSecret)))
    {
      if !authenticated {
        return Err(NoCredentials(ExchangeName));
      }
      var n := nonce.Advance(now);
      var form := values["apikey" := apiKey];
      form := form["apisecret" := apiSecret];
      form := form["nonce" := FormatInt(n)];
      var rawQuery := path + "?" + encode(form);
      r := Ok(SignedQuery(rawQuery, sign(rawQuery, apiSecret)));
    }

    /** UpdateOrderbook: fetch the inverted symbol's book, store the copy, answer with what the store holds. */
    method UpdateOrderbook(p: Pair, assetType: string, fetch: string -> Result<RawBook, Error>, now: int)
      returns (b: Base, err: Option<Error>)
      modifies orderbooks
      ensures fetch(CurrencyPairToSymbol(p)).Err? ==>
                b == EmptyBase && err == Some(fetch(CurrencyPairToSymbol(p)).error)
                && orderbooks.books == old(orderbooks.books)
      ensures fetch(CurrencyPairToSymbol(p)).Ok? ==>
                var stored := Stamped(p, BookOf(fetch(CurrencyPairToSymbol(p)).value), now);
                b == stored && err == None && orderbooks.books == Put(old(orderbooks.books), p, assetType, stored)
    {
      var symbol := CurrencyPairToSymbol(p);
      var orderbookNew := fetch(symbol);
      if orderbookNew.Err? {
        return EmptyBase, Some(orderbookNew.error);
      }
      b := StoreSnapshot(orderbooks, ExchangeName, p, assetType, orderbookNew.value.buy, orderbookNew.value.sell,
                         EntryAmount, EntryPrice, now);
      err := None;
    }

    /** GetOrderbookEx as written: refetch on a hit, the zero book and no error on a miss. */
    method GetOrderbookEx(p: Pair, assetType: string, fetch: string -> Result<RawBook, Error>, now: int)
      returns (b: Base, err: Option<Error>)
      modifies orderbooks
      ensures old(Get(orderbooks.books, p, assetType)).Err? ==>
                b == EmptyBase && err == None && orderbooks.books == old(orderbooks.books)
      ensures old(Get(orderbooks.books, p, assetType)).Ok? && fetch(CurrencyPairToSymbol(p)).Ok? ==>
                var stored := Stamped(p, BookOf(fetch(CurrencyPairToSymbol(p)).value), now);
                b == stored && err == None && orderbooks.books == Put(old(orderbooks.books), p, assetType, stored)
      ensures old(Get(orderbooks.books, p, assetType)).Ok? && fetch(CurrencyPairToSymbol(p)).Err? ==>
                b == EmptyBase && err == Some(fetch(CurrencyPairToSymbol(p)).error)
                && orderbooks.books == old(orderbooks.books)
    {
      var ob := orderbooks.GetOrderbook(ExchangeName, p, assetType);
      if ob.Ok? {
        b, err := UpdateOrderbook(p, assetType, fetch, now);
        return;
      }
      return EmptyBase, None;
    }

    /** GetEnabledCurrencies: the configured enabled pairs, each inverted in place to the usual order. */
    method GetEnabledCurrencies() returns (pairs: seq<Pair>)
      ensures pairs == InvertEach(ConfigPairs(enabledPairs))
    {
      var a := new Pair[|enabledPairs|](i requires 0 <= i < |enabledPairs| reads this => FromDelimited(enabledPairs[i], Delimiter));
      InvertAll(a);
      pairs := a[..];
    }

    /** GetAvailableCurrencies: the configured available pairs, each inverted in place. */
    method GetAvailableCurrencies() returns (pairs: seq<Pair>)
      ensures pairs == InvertEach(ConfigPairs(availablePairs))
    {
      var a := new Pair[|availablePairs|](i requires 0 <= i < |availablePairs| reads this => FromDelimited(availablePairs[i], Delimiter));
      InvertAll(a);
      pairs := a[..];
    }
  }
}
