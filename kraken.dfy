/**
 * The Kraken adapter: the table-driven symbol codec and the Run loops that
 * build its tables, the limits, the order normaliser and the GetOrders loop
 * that drops what it cannot convert, the AddOrder form, the error envelope
 * of every reply, the signed request, and the order-book refresh.
 */
module Kraken {
  import opened Wrappers
  import opened Text
  import opened Pairs
  import opened Exchange
  import opened Orderbook
  import opened Iteration

  const ExchangeName: string := "Kraken"
  const CodeDelimiter: char := '/'
  const DarkPoolSuffix: string := ".d"
  const OrderTypeLimit: string := "limit"
  const PrivatePathPrefix: string := "/0/private/"

  // ------------------------------------------------------------------ tables

  datatype Asset = Asset(altName: string)
  datatype AssetPair = AssetPair(altname: string, base: string, quote: string)

  /** The code a pair is looked up by: "FIRST/SECOND". */
  function PairCode(p: Pair): string
  {
    Display(p, [CodeDelimiter], true)
  }

  /** CurrencyPairToSymbol: the asset-pair name recorded for the pair's code. */
  function CurrencyPairToSymbol(codeToSymbol: map<string, string>, p: Pair): (r: Result<string, Error>)
    ensures r.Ok? <==> PairCode(p) in codeToSymbol
    ensures r.Ok? ==> r.value == codeToSymbol[PairCode(p)]
    ensures r.Err? ==> r.error == Message("failed to map currency pair '" + PairCode(p) + "' to a Kraken asset pair")
  {
    var code := PairCode(p);
    if code in codeToSymbol then Ok(codeToSymbol[code])
    else Err(Message("failed to map currency pair '" + code + "' to a Kraken asset pair"))
  }

  /** SymbolToCurrencyPair: the pair recorded for an asset-pair name, in upper case. */
  function SymbolToCurrencyPair(currencyPairs: map<string, Pair>, symbol: string): (r: Result<Pair, Error>)
    ensures r.Ok? <==> symbol in currencyPairs
    ensures r.Ok? ==> r.value == FormatPair(currencyPairs[symbol], true)
    ensures r.Err? ==> r.error == Message("failed to map Kraken asset pair '" + symbol + "' to a currency pair")
  {
    if symbol in currencyPairs then Ok(FormatPair(currencyPairs[symbol], true))
    else Err(Message("failed to map Kraken asset pair '" + symbol + "' to a currency pair"))
  }

  /** The two tables agree: every code names a listed asset pair with that code, and every listed pair's code is recorded. */
  predicate TablesCoherent(codeToSymbol: map<string, string>, currencyPairs: map<string, Pair>)
  {
    (forall c :: c in codeToSymbol ==> codeToSymbol[c] in currencyPairs && PairCode(currencyPairs[codeToSymbol[c]]) == c)
    && (forall s :: s in currencyPairs ==> PairCode(currencyPairs[s]) in codeToSymbol)
  }

  /** Every listed pair is in upper case and free of the code delimiter. */
  predicate CleanPairs(currencyPairs: map<string, Pair>)
  {
    forall s :: s in currencyPairs ==> IsUpperPair(currencyPairs[s]) && FreeOf(currencyPairs[s], CodeDelimiter)
  }

  /**
   * With coherent tables, a listed pair survives the trip to its symbol and
   * back, even when several asset pairs share its code.
   */
  lemma TableRoundTrip(codeToSymbol: map<string, string>, currencyPairs: map<string, Pair>, symbol: string)
    requires TablesCoherent(codeToSymbol, currencyPairs) && CleanPairs(currencyPairs)
    requires symbol in currencyPairs
    ensures var q := currencyPairs[symbol];
            CurrencyPairToSymbol(codeToSymbol, q).Ok?
            && SymbolToCurrencyPair(currencyPairs, CurrencyPairToSymbol(codeToSymbol, q).value) == Ok(q)
  {
    var q := currencyPairs[symbol];
    var other := codeToSymbol[PairCode(q)];
    DisplayInjective(currencyPairs[other], q, CodeDelimiter, true);
    FormatPairUpper(currencyPairs[other]);
    FormatPairUpper(q);
  }

  /** assetNameToCurrency: each asset name mapped to its alternative name. */
  function AssetNames(assets: map<string, Asset>): map<string, string>
  {
    map a | a in assets :: assets[a].altName
  }

  /** An asset pair gets table entries unless it is a dark pool or one of its assets is unknown. */
  predicate Retained(name: string, info: AssetPair, names: map<string, string>)
  {
    !HasSuffix(name, DarkPoolSuffix) && info.base in names && info.quote in names
  }

  function TablePair(info: AssetPair, names: map<string, string>): (r: Pair)
    requires info.base in names && info.quote in names
    ensures IsUpperPair(r)
  {
    UpperIdempotent(names[info.base]);
    UpperIdempotent(names[info.quote]);
    FormatPair(Pair(names[info.base], names[info.quote]), true)
  }

  /** The pairs table built from the asset pairs named in `done`. */
  function PairTableOf(pairs: map<string, AssetPair>, names: map<string, string>, done: set<string>): map<string, Pair>
  {
    map s | s in done && s in pairs && Retained(s, pairs[s], names) :: TablePair(pairs[s], names)
  }

  /** CurrencyPairs as Run leaves it: every retained asset pair mapped to its pair. */
  function PairTable(pairs: map<string, AssetPair>, names: map<string, string>): map<string, Pair>
  {
    PairTableOf(pairs, names, pairs.Keys)
  }

  /** The codes of the pairs listed in a pairs table. */
  function Codes(currencyPairs: map<string, Pair>): set<string>
  {
    set s | s in currencyPairs :: PairCode(currencyPairs[s])
  }

  /** Coherent tables record exactly the codes of the listed pairs. */
  lemma CoherentCodes(codeToSymbol: map<string, string>, currencyPairs: map<string, Pair>)
    requires TablesCoherent(codeToSymbol, currencyPairs)
    ensures codeToSymbol.Keys == Codes(currencyPairs)
  {
    forall c | c in codeToSymbol ensures c in Codes(currencyPairs) {
      assert PairCode(currencyPairs[codeToSymbol[c]]) == c;
    }
  }

  /** The tables after handling the asset pairs named in `done`. */
  predicate TablesFor(pairs: map<string, AssetPair>, names: map<string, string>, done: set<string>,
                      codeToSymbol: map<string, string>, currencyPairs: map<string, Pair>)
  {
    currencyPairs == PairTableOf(pairs, names, done) && TablesCoherent(codeToSymbol, currencyPairs)
  }

  /** One more asset pair handled: a retained one adds its entry and its code, any other changes nothing. */
  lemma TablesStep(pairs: map<string, AssetPair>, names: map<string, string>, done: set<string>, name: string)
    requires name in pairs && name !in done
    ensures Retained(name, pairs[name], names) ==>
              PairTableOf(pairs, names, done + {name}) == PairTableOf(pairs, names, done)[name := TablePair(pairs[name], names)]
    ensures !Retained(name, pairs[name], names) ==>
              PairTableOf(pairs, names, done + {name}) == PairTableOf(pairs, names, done)
  {
  }

  /** Recording a new asset pair under its code keeps the tables coherent. */
  lemma CoherentStep(codeToSymbol: map<string, string>, currencyPairs: map<string, Pair>, name: string, q: Pair)
    requires TablesCoherent(codeToSymbol, currencyPairs) && name !in currencyPairs
    ensures TablesCoherent(codeToSymbol[PairCode(q) := name], currencyPairs[name := q])
  {
  }

  // ------------------------------------------------------------------ limits

  /** Kraken's published minimum order sizes, by currency. */
  const MinTradeSizes: map<string, real> := map[
    "REP" := 0.3, "XBT" := 0.002, "BCH" := 0.002, "DASH" := 0.03, "DOGE" := 3000.0,
    "EOS" := 3.0, "ETH" := 0.02, "ETC" := 0.3, "GNO" := 0.03, "ICN" := 2.0,
    "LTC" := 0.1, "MLN" := 0.1, "XMR" := 0.1, "XRP" := 30.0, "XLM" := 300.0,
    "ZEC" := 0.03, "USDT" := 5.0]

  /** currencyLimits: price places from the table or Undefined, 8 amount places, the first currency's minimum or 0. */
  function CurrencyLimits(priceDecimalPlaces: map<string, int>, p: Pair): (r: Limits)
    ensures r.priceDecimalPlaces == if PairCode(p) in priceDecimalPlaces then priceDecimalPlaces[PairCode(p)] else Undefined
    ensures r.amountDecimalPlaces == 8 && r.minTotal == 0.0
    ensures r.minAmount == if Upper(p.first) in MinTradeSizes then MinTradeSizes[Upper(p.first)] else 0.0
  {
    var code := PairCode(p);
    Limits(if code in priceDecimalPlaces then priceDecimalPlaces[code] else Undefined, 8,
           if Upper(p.first) in MinTradeSizes then MinTradeSizes[Upper(p.first)] else 0.0, 0.0)
  }

  /** The limits keep the ILimits conventions, and the minimum does not depend on the case of the code. */
  lemma CurrencyLimitsWellFormed(t: map<string, int>, p: Pair)
    requires forall c :: c in t ==> t[c] >= 0
    ensures WellFormed(CurrencyLimits(t, p))
    ensures CurrencyLimits(t, p).minAmount == CurrencyLimits(t, FormatPair(p, true)).minAmount
  {
    UpperIdempotent(p.first);
  }

  /** A bitcoin pair needs at least 0.002 XBT whatever the case it is written in; an unknown currency has no minimum. */
  lemma BitcoinMinimum(t: map<string, int>)
    ensures CurrencyLimits(t, Pair("xbt", "eur")).minAmount == 0.002
    ensures CurrencyLimits(t, Pair("ABC", "EUR")).minAmount == 0.0
  {
    assert Upper("xbt") == "XBT";
    assert Upper("ABC") == "ABC";
  }

  // ------------------------------------------------------------------ orders

  datatype OrderInfo = OrderInfo(pair: string, side: string, orderType: string, price: real)
  datatype KrakenOrder = KrakenOrder(status: string, openTimestamp: string, info: OrderInfo,
                                     volume: real, volumeExecuted: real, avgPrice: real)

  /** The status vocabulary: pending and open are active, canceled and expired aborted, closed filled. */
  function OrderStatus(status: string): (r: Result<Status, Error>)
    ensures r == Ok(Active) <==> status == "pending" || status == "open"
    ensures r == Ok(Aborted) <==> status == "canceled" || status == "expired"
    ensures r == Ok(Filled) <==> status == "closed"
    ensures r.Err? ==> r.error == Message("unsupported order with status '" + status + "'")
  {
    if status == "pending" || status == "open" then Ok(Active)
    else if status == "canceled" || status == "expired" then Ok(Aborted)
    else if status == "closed" then Ok(Filled)
    else Err(Message("unsupported order with status '" + status + "'"))
  }

  /** convertOrderToExchangeOrder; an unknown asset pair leaves the pair empty. */
  function ConvertOrder(currencyPairs: map<string, Pair>, orderID: string, o: KrakenOrder): (r: Result<Order, Error>)
    ensures r.Ok? <==> OrderStatus(o.status).Ok? && o.info.orderType == OrderTypeLimit
    ensures OrderStatus(o.status).Err? ==> r == Err(OrderStatus(o.status).error)
    ensures OrderStatus(o.status).Ok? && o.info.orderType != OrderTypeLimit ==>
              r == Err(Message("unsupported order with type '" + o.info.orderType + "'"))
    ensures r.Ok? ==> r.value.orderID == orderID && r.value.status == OrderStatus(o.status).value
    ensures r.Ok? ==> r.value.amount == o.volume && r.value.filledAmount == o.volumeExecuted && Conserves(r.value)
    ensures r.Ok? ==> r.value.rate == ChosenRate(r.value.status, o.info.price, o.avgPrice)
    ensures r.Ok? ==> r.value.createdAt == TimestampSeconds(o.openTimestamp)
    ensures r.Ok? && o.info.pair in currencyPairs ==> r.value.currencyPair == FormatPair(currencyPairs[o.info.pair], true)
    ensures r.Ok? && o.info.pair !in currencyPairs ==> r.value.currencyPair == NoPair
    ensures r.Ok? ==> r.value.side == o.info.side && r.value.orderType == TypeExchangeLimit
  {
    match OrderStatus(o.status)
    case Err(e) => Err(e)
    case Ok(status) =>
      if o.info.orderType != OrderTypeLimit then
        Err(Message("unsupported order with type '" + o.info.orderType + "'"))
      else
        var pair := match SymbolToCurrencyPair(currencyPairs, o.info.pair)
          case Ok(q) => q
          case Err(_) => NoPair;
        Ok(Order(orderID, status, o.volume, o.volumeExecuted, o.volume - o.volumeExecuted,
                 ChosenRate(status, o.info.price, o.avgPrice), TimestampSeconds(o.openTimestamp),
                 pair, o.info.side, TypeExchangeLimit))
  }

  /** An open limit order on a listed pair keeps the pair and the seconds of its open time. */
  lemma ConvertOrderRecovers(codeToSymbol: map<string, string>, currencyPairs: map<string, Pair>,
                             orderID: string, o: KrakenOrder, seconds: int, fraction: string)
    requires TablesCoherent(codeToSymbol, currencyPairs) && CleanPairs(currencyPairs)
    requires o.info.pair in currencyPairs && o.status == "open" && o.info.orderType == OrderTypeLimit
    requires MinInt64 <= seconds <= MaxInt64 && o.openTimestamp == FormatInt(seconds) + "." + fraction
    ensures ConvertOrder(currencyPairs, orderID, o).Ok?
    ensures ConvertOrder(currencyPairs, orderID, o).value.currencyPair == currencyPairs[o.info.pair]
    ensures ConvertOrder(currencyPairs, orderID, o).value.rate == o.info.price
    ensures ConvertOrder(currencyPairs, orderID, o).value.createdAt == seconds
  {
    FormatPairUpper(currencyPairs[o.info.pair]);
    TimestampSecondsOfText(seconds, fraction);
  }

  // ---------------------------------------------------------------- AddOrder

  datatype AddOrderParams = AddOrderParams(pair: string, side: string, orderType: string,
                                           price: real, volume: real, userRef: int, onlyValidate: bool)

  /** The error AddOrder returns for a non-limit order as written: the format has no argument for its verb. */
  function UnsupportedTypeAsWritten(orderType: string): Error
  {
    Message("support for '%!s(MISSING)' orders hasn't been implemented")
  }

  /** The as-written error cannot tell a market order from a stop-loss order. */
  lemma AsWrittenErrorLosesType()
    ensures UnsupportedTypeAsWritten("market") == UnsupportedTypeAsWritten("stop-loss")
  {
  }

  /** The error naming the unsupported type, as the format string means. */
  function UnsupportedType(orderType: string): (r: Error)
    ensures r.Message? && r.text == "support for '" + orderType + "' orders hasn't been implemented"
  {
    Message("support for '" + orderType + "' orders hasn't been implemented")
  }

  /** Different order types give different errors. */
  lemma UnsupportedTypeNamesType(a: string, b: string)
    requires UnsupportedType(a) == UnsupportedType(b)
    ensures a == b
  {
    var pre := "support for '";
    var post := "' orders hasn't been implemented";
    assert (pre + a + post)[|pre|..|pre| + |a|] == a;
    assert (pre + b + post)[|pre|..|pre| + |b|] == b;
  }

  /** The form AddOrder posts: the five order fields, and validate only when asked for. */
  predicate IsOrderForm(values: map<string, string>, params: AddOrderParams, formatFloat: real -> string)
  {
    values.Keys == {"pair", "type", "ordertype", "price", "volume"} + (if params.onlyValidate then {"validate"} else {})
    && values["pair"] == params.pair && values["type"] == params.side && values["ordertype"] == OrderTypeLimit
    && values["price"] == formatFloat(params.price) && values["volume"] == formatFloat(params.volume)
    && (params.onlyValidate ==> values["validate"] == "true")
  }

  /** AddOrder's form, built field by field; any type but exchange limit is refused before anything is sent. */
  method AddOrderValues(params: AddOrderParams, formatFloat: real -> string) returns (r: Result<map<string, string>, Error>)
    ensures params.orderType != TypeExchangeLimit ==> r == Err(UnsupportedType(params.orderType))
    ensures params.orderType == TypeExchangeLimit ==> r.Ok? && IsOrderForm(r.value, params, formatFloat)
  {
    var values: map<string, string> := map[];
    values := values["pair" := params.pair];
    values := values["type" := params.side];
    if params.orderType == TypeExchangeLimit {
      values := values["ordertype" := OrderTypeLimit];
    } else {
      return Err(UnsupportedType(params.orderType));
    }
    values := values["price" := formatFloat(params.price)];
    values := values["volume" := formatFloat(params.volume)];
    if params.onlyValidate {
      values := values["validate" := "true"];
    }
    r := Ok(values);
  }

  /** The parameters NewOrder passes: always validate-only. */
  function NewOrderParams(symbol: string, amount: real, price: real, side: string, orderType: string): (r: AddOrderParams)
    ensures r.onlyValidate && r.pair == symbol && r.volume == amount && r.price == price
    ensures r.side == side && r.orderType == orderType && r.userRef == 0
  {
    AddOrderParams(symbol, side, orderType, price, amount, 0, true)
  }

  // --------------------------------------------------------------- envelope

  /** Kraken's reply envelope: error texts and the raw result. */
  datatype Response = Response(errors: seq<string>, result: string)

  /** HTTPRequestJSON after the call: the raw result, and an error joining every error text with newlines. */
  function Envelope(response: Response): (r: (string, Option<Error>))
    ensures r.0 == response.result
    ensures r.1.Some? <==> |response.errors| > 0
    ensures r.1.Some? ==> r.1.value == Message(Join(response.errors, '\n'))
  {
    if |response.errors| > 0 then (response.result, Some(Message(Join(response.errors, '\n'))))
    else (response.result, None)
  }

  /** Single-line error texts can be read back one by one from the joined error. */
  lemma EnvelopeKeepsErrors(response: Response)
    requires |response.errors| > 0
    requires forall i :: 0 <= i < |response.errors| ==> '\n' !in response.errors[i]
    ensures Split(Envelope(response).1.value.text, '\n') == response.errors
  {
    SplitJoin(response.errors, '\n');
  }

  /** HTTPRequestJSON: a failed call gives no result and its error. */
  function HTTPRequestJSON(reply: Result<Response, Error>): (r: (string, Option<Error>))
    ensures reply.Err? ==> r == ("", Some(reply.error))
    ensures reply.Ok? ==> r == Envelope(reply.value)
  {
    match reply
    case Err(e) => ("", Some(e))
    case Ok(response) => Envelope(response)
  }

  /** HTTPRequest: any error of the envelope first, then the decode of the raw result. */
  function HTTPRequest<T>(reply: Result<Response, Error>, decode: string -> Result<T, Error>): (r: Result<T, Error>)
    ensures HTTPRequestJSON(reply).1.Some? ==> r == Err(HTTPRequestJSON(reply).1.value)
    ensures HTTPRequestJSON(reply).1.None? ==> r == decode(reply.value.result)
  {
    var (raw, err) := HTTPRequestJSON(reply);
    if err.Some? then Err(err.value) else decode(raw)
  }

  /**
   * GetOrders' loop over the open orders, in the map's (unspecified) order:
   * every order that converts, each ID once.
   */
  method ConvertOrders(currencyPairs: map<string, Pair>, orders: map<string, KrakenOrder>)
    returns (ret: seq<Order>, ghost ids: seq<string>)
    ensures |ret| == |ids|
    ensures forall id :: id in ids <==> id in orders && ConvertOrder(currencyPairs, id, orders[id]).Ok?
    ensures forall i :: 0 <= i < |ids| ==>
              ids[i] in orders && ret[i] == ConvertOrder(currencyPairs, ids[i], orders[ids[i]]).value
    ensures forall i, j :: 0 <= i < j < |ret| ==> ret[i].orderID != ret[j].orderID
  {
    ret, ids := [], [];
    var todo := orders.Keys;
    while todo != {}
      invariant todo <= orders.Keys && |ret| == |ids|
      invariant forall id :: id in ids <==> id in orders && id !in todo && ConvertOrder(currencyPairs, id, orders[id]).Ok?
      invariant forall i :: 0 <= i < |ids| ==> ids[i] in orders && ret[i] == ConvertOrder(currencyPairs, ids[i], orders[ids[i]]).value
      invariant forall i :: 0 <= i < |ret| ==> ret[i].orderID == ids[i]
      invariant forall i, j :: 0 <= i < j < |ids| ==> ids[i] != ids[j]
      decreases |todo|
    {
      var orderID :| orderID in todo;
      var exchangeOrder := ConvertOrder(currencyPairs, orderID, orders[orderID]);
      if exchangeOrder.Ok? {
        ret := ret + [exchangeOrder.value];
        ids := ids + [orderID];
      }
      todo := todo - {orderID};
    }
  }

  // ------------------------------------------------------------- the adapter

  datatype BookEntry = BookEntry(price: real, amount: real)
  datatype RawBook = RawBook(bids: seq<BookEntry>, asks: seq<BookEntry>)

  function EntryAmount(e: BookEntry): real { e.amount }
  function EntryPrice(e: BookEntry): real { e.price }

  /** What SendAuthenticatedHTTPRequest posts: the private path, the form and its signature. */
  datatype SignedForm = SignedForm(path: string, values: map<string, string>, signature: string)

  /** The Kraken exchange object. */
  class Kraken {
    var authenticated: bool
    var codeToSymbol: map<string, string>
    var currencyPairs: map<string, Pair>
    var priceDecimalPlaces: map<string, int>
    var availablePairs: seq<string>
    const orderbooks: Orderbooks
    const nonce: Nonce

    /** SetDefaults: no tables, no price table, an empty order-book store. */
    constructor ()
      ensures !authenticated && codeToSymbol == map[] && currencyPairs == map[]
      ensures priceDecimalPlaces == map[] && availablePairs == []
      ensures fresh(orderbooks) && orderbooks.books == map[]
      ensures fresh(nonce) && nonce.value == 0
    {
      authenticated := false;
      codeToSymbol, currencyPairs, priceDecimalPlaces, availablePairs := map[], map[], map[], [];
      orderbooks := new Orderbooks.Init();
      nonce := new Nonce();
    }

    /** GetLimits over the price table; nothing in the adapter ever fills that table. */
    function GetLimits(p: Pair): (r: Limits)
      reads this
      ensures r == CurrencyLimits(priceDecimalPlaces, p)
      ensures PairCode(p) !in priceDecimalPlaces ==> r.priceDecimalPlaces == Undefined
    {
      CurrencyLimits(priceDecimalPlaces, p)
    }

    /** The first loop of Run: asset name to currency code. */
    static method AssetNameToCurrency(assets: map<string, Asset>) returns (names: map<string, string>)
      ensures names == AssetNames(assets)
    {
      names := map[];
      var todo := assets.Keys;
      while todo != {}
        invariant todo <= assets.Keys
        invariant names == map a | a in assets.Keys - todo :: assets[a].altName
        decreases |todo|
      {
        var a :| a in todo;
        names := names[a := assets[a].altName];
        todo := todo - {a};
      }
    }

    /** The body of Run's second loop for a retained asset pair: record its code and its pair. */
    static method AddAssetPair(pairs: map<string, AssetPair>, names: map<string, string>, ghost done: set<string>,
                               codeToSymbol: map<string, string>, currencyPairs: map<string, Pair>, name: string)
      returns (codeToSymbol': map<string, string>, currencyPairs': map<string, Pair>)
      requires name in pairs && name !in done && TablesFor(pairs, names, done, codeToSymbol, currencyPairs)
      ensures TablesFor(pairs, names, done + {name}, codeToSymbol', currencyPairs')
    {
      var info := pairs[name];
      TablesStep(pairs, names, done, name);
      codeToSymbol', currencyPairs' := codeToSymbol, currencyPairs;
      if Retained(name, info, names) {
        var currencyPair := TablePair(info, names);
        CoherentStep(codeToSymbol, currencyPairs, name, currencyPair);
        codeToSymbol' := codeToSymbol[PairCode(currencyPair) := name];
        currencyPairs' := currencyPairs[name := currencyPair];
      }
    }

    /**
     * The second loop of Run: every asset pair's alternative name goes into
     * the products, dark pools included, in the map's order (`order`); only
     * retained asset pairs get table entries, and the two tables stay coherent.
     */
    static method BuildTables(pairs: map<string, AssetPair>, names: map<string, string>)
      returns (codeToSymbol: map<string, string>, currencyPairs: map<string, Pair>,
               exchangeProducts: seq<string>, ghost order: seq<string>)
      ensures currencyPairs == PairTable(pairs, names)
      ensures codeToSymbol.Keys == Codes(currencyPairs)
      ensures TablesCoherent(codeToSymbol, currencyPairs)
      ensures |exchangeProducts| == |order| == |pairs.Keys|
      ensures Distinct(order) && forall s :: s in pairs <==> s in order
      ensures forall i :: 0 <= i < |order| ==> exchangeProducts[i] == pairs[order[i]].altname
    {
      codeToSymbol, currencyPairs := map[], map[];
      exchangeProducts := [];
      var keys := RangeOrder(pairs.Keys);
      order := keys;
      ghost var done: set<string> := {};
      for i := 0 to |keys|
        invariant done <= pairs.Keys
        invariant forall k :: 0 <= k < i ==> keys[k] in done
        invariant forall k :: i <= k < |keys| ==> keys[k] !in done
        invariant TablesFor(pairs, names, done, codeToSymbol, currencyPairs)
        invariant |exchangeProducts| == i
        invariant forall k :: 0 <= k < i ==> exchangeProducts[k] == pairs[keys[k]].altname
      {
        var name := keys[i];
        exchangeProducts := exchangeProducts + [pairs[name].altname];
        codeToSymbol, currencyPairs := AddAssetPair(pairs, names, done, codeToSymbol, currencyPairs, name);
        done := done + {name};
      }
      assert done == pairs.Keys;
    }

    /** Run: both fetches must succeed; the tables and the available pairs are then replaced. */
    method Run(assets: Result<map<string, Asset>, Error>, assetPairs: Result<map<string, AssetPair>, Error>)
      returns (ghost order: seq<string>)
      modifies this
      ensures assets.Err? || assetPairs.Err? ==>
                codeToSymbol == old(codeToSymbol) && currencyPairs == old(currencyPairs) && availablePairs == old(availablePairs)
      ensures assets.Ok? && assetPairs.Ok? ==>
                var names := AssetNames(assets.value);
                currencyPairs == PairTable(assetPairs.value, names)
                && codeToSymbol.Keys == Codes(currencyPairs)
                && TablesCoherent(codeToSymbol, currencyPairs)
      ensures assets.Ok? && assetPairs.Ok? ==>
                |availablePairs| == |order| == |assetPairs.value.Keys|
                && (forall i, j :: 0 <= i < j < |order| ==> order[i] != order[j])
                && (forall s :: s in assetPairs.value <==> s in order)
                && (forall i :: 0 <= i < |order| ==> availablePairs[i] == assetPairs.value[order[i]].altname)
      ensures priceDecimalPlaces == old(priceDecimalPlaces) && authenticated == old(authenticated)
    {
      order := [];
      if assets.Err? {
        return;
      }
      var names := AssetNameToCurrency(assets.value);
      if assetPairs.Err? {
        return;
      }
      var exchangeProducts;
      codeToSymbol, currencyPairs, exchangeProducts, order := BuildTables(assetPairs.value, names);
      availablePairs := exchangeProducts;
    }

    /**
     * GetOrders: every open order that converts, in the map's order (`ids`);
     * the ones that do not are dropped, and no conversion error is returned.
     */
    method GetOrders(reply: Result<map<string, KrakenOrder>, Error>)
      returns (ret: seq<Order>, err: Option<Error>, ghost ids: seq<string>)
      ensures reply.Err? ==> ret == [] && err == Some(reply.error)
      ensures reply.Ok? ==> err == None && |ret| == |ids|
      ensures reply.Ok? ==> forall id :: id in ids <==> id in reply.value && ConvertOrder(currencyPairs, id, reply.value[id]).Ok?
      ensures reply.Ok? ==> forall i :: 0 <= i < |ids| ==>
                ids[i] in reply.value && ret[i] == ConvertOrder(currencyPairs, ids[i], reply.value[ids[i]]).value
      ensures forall i, j :: 0 <= i < j < |ret| ==> ret[i].orderID != ret[j].orderID
    {
      ids := [];
      if reply.Err? {
        return [], Some(reply.error), [];
      }
      ret, ids := ConvertOrders(currencyPairs, reply.value);
      err := None;
    }

    /**
     * NewOrder: the pair must map to an asset pair; the order is then sent
     * as a validate-only AddOrder, and its first transaction ID returned
     * (a reply without one is an index-out-of-range panic).
     */
    method NewOrder(p: Pair, amount: real, price: real, side: string, orderType: string,
                    formatFloat: real -> string, send: map<string, string> -> Result<seq<string>, Error>)
      returns (r: Result<string, Error>, ghost sent: Option<map<string, string>>)
      ensures CurrencyPairToSymbol(codeToSymbol, p).Err? ==> r == Err(CurrencyPairToSymbol(codeToSymbol, p).error) && sent == None
      ensures CurrencyPairToSymbol(codeToSymbol, p).Ok? && orderType != TypeExchangeLimit ==>
                r == Err(UnsupportedType(orderType)) && sent == None
      ensures sent.Some? ==> CurrencyPairToSymbol(codeToSymbol, p).Ok?
      ensures sent.Some? ==>
                IsOrderForm(sent.value, NewOrderParams(CurrencyPairToSymbol(codeToSymbol, p).value, amount, price, side, orderType), formatFloat)
      ensures sent.Some? ==> "validate" in sent.value && sent.value["validate"] == "true"
      ensures sent.Some? && send(sent.value).Err? ==> r == Err(send(sent.value).error)
      ensures sent.Some? && send(sent.value) == Ok([]) ==> r == Err(Panic("index out of range"))
      ensures sent.Some? && send(sent.value).Ok? && send(sent.value).value != [] ==> r == Ok(send(sent.value).value[0])
      ensures r.Ok? ==> sent.Some?
      ensures CurrencyPairToSymbol(codeToSymbol, p).Ok? && orderType == TypeExchangeLimit ==> sent.Some?
    {
      sent := None;
      var symbol := CurrencyPairToSymbol(codeToSymbol, p);
      if symbol.Err? {
        return Err(symbol.error), None;
      }
      var params := NewOrderParams(symbol.value, amount, price, side, orderType);
      var values := AddOrderValues(params, formatFloat);
      if values.Err? {
        return Err(values.error), None;
      }
      sent := Some(values.value);
      var result := send(values.value);
      if result.Err? {
        return Err(result.error), sent;
      }
      if result.value == [] {
        return Err(Panic("index out of range")), sent;
      }
      r := Ok(result.value[0]);
    }

    /**
     * SendAuthenticatedHTTPRequest's form: the nonce is stepped first, then
     * set in the form; the secret must decode; the signature covers the path
     * and the nonce followed by the encoded form.
     */
    method SignedRequest(endpoint: string, values: map<string, string>, now: int, secret: Result<string, Error>,
                         encode: map<string, string> -> string, sign: (string, string, string) -> string)
      returns (r: Result<SignedForm, Error>)
      modifies nonce
      ensures !authenticated ==> r == Err(NoCredentials(ExchangeName)) && nonce.value == old(nonce.value)
      ensures authenticated ==> nonce.value == NextNonce(old(nonce.value), now)
      ensures authenticated && secret.Err? ==> r == Err(secret.error)
      ensures authenticated && secret.Ok? ==>
                var form := values["nonce" := FormatInt(nonce.value)];
                var path := PrivatePathPrefix + endpoint;
                r == Ok(SignedForm(path, form, sign(secret.value, path, FormatInt(nonce.value) + encode(form))))
    {
      if !authenticated {
        return Err(NoCredentials(ExchangeName));
      }
      var path := PrivatePathPrefix + endpoint;
      var n := nonce.Advance(now);
      var form := values["nonce" := FormatInt(n)];
      if secret.Err? {
        return Err(secret.error);
      }
      r := Ok(SignedForm(path, form, sign(secret.value, path, FormatInt(n) + encode(form))));
    }

    /** UpdateOrderbook: the depth of the pair in the request format, copied into the store. */
    method UpdateOrderbook(p: Pair, assetType: string, fetch: string -> Result<RawBook, Error>, now: int)
      returns (b: Base, err: Option<Error>)
      modifies orderbooks
      ensures fetch(Display(p, "", true)).Err? ==>
                b == EmptyBase && err == Some(fetch(Display(p, "", true)).error) && orderbooks.books == old(orderbooks.books)
      ensures fetch(Display(p, "", true)).Ok? ==>
                var raw := fetch(Display(p, "", true)).value;
                b == Stamped(p, Snapshot(raw.bids, raw.asks, EntryAmount, EntryPrice), now) && err == None
                && orderbooks.books == Put(old(orderbooks.books), p, assetType, b)
    {
      var orderbookNew := fetch(Display(p, "", true));
      if orderbookNew.Err? {
        return EmptyBase, Some(orderbookNew.error);
      }
      b := StoreSnapshot(orderbooks, ExchangeName, p, assetType, orderbookNew.value.bids, orderbookNew.value.asks,
                         EntryAmount, EntryPrice, now);
      err := None;
    }

    /** GetOrderbookEx as written: refetch on a hit, the zero book and no error on a miss. */
    method GetOrderbookEx(p: Pair, assetType: string, fetch: string -> Result<RawBook, Error>, now: int)
      returns (b: Base, err: Option<Error>)
      modifies orderbooks
      ensures old(Get(orderbooks.books, p, assetType)).Err? ==>
                b == EmptyBase && err == None && orderbooks.books == old(orderbooks.books)
      ensures old(Get(orderbooks.books, p, assetType)).Ok? && fetch(Display(p, "", true)).Ok? ==>
                var raw := fetch(Display(p, "", true)).value;
                b == Stamped(p, Snapshot(raw.bids, raw.asks, EntryAmount, EntryPrice), now) && err == None
                && orderbooks.books == Put(old(orderbooks.books), p, assetType, b)
      ensures old(Get(orderbooks.books, p, assetType)).Ok? && fetch(Display(p, "", true)).Err? ==>
                b == EmptyBase && err == Some(fetch(Display(p, "", true)).error)
                && orderbooks.books == old(orderbooks.books)
    {
      var ob := orderbooks.GetOrderbook(ExchangeName, p, assetType);
      if ob.Ok? {
        b, err := UpdateOrderbook(p, assetType, fetch, now);
        return;
      }
      return EmptyBase, None;
    }
  }

  /** GetExchangeAccountInfo: the exchange name and no currencies. */
  function GetExchangeAccountInfo(): (r: AccountInfo)
    ensures r.exchangeName == ExchangeName && r.currencies == []
  {
    AccountInfo(ExchangeName, [])
  }
}
