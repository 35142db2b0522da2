/**
 * The Poloniex adapter: the inverted "_" symbol codec, the open-order
 * normaliser, the trade aggregation of GetOrder, the success-flag checks of
 * the trading calls, the signed request form with its nonce, and the
 * wrapper's table build, order-book refresh, balances and pair inversion.
 */
module Poloniex {
  import opened Wrappers
  import opened Text
  import opened Pairs
  import opened Exchange
  import opened Orderbook

  const ExchangeName: string := "Poloniex"
  const Delimiter: char := '_'
  const OrderCancelCommand: string := "cancelOrder"
  /** The depth UpdateOrderbook asks for. */
  const BookDepth: int := 1000

  // ---------------------------------------------------------------- symbols

  /** A Poloniex symbol is the inverted pair, "_"-delimited, upper case: the second currency comes first. */
  function CurrencyPairToSymbol(p: Pair): (r: string)
    ensures r == Upper(p.second) + "_" + Upper(p.first)
  {
    DisplayParts(Invert(p), Delimiter, true);
    Display(Invert(p), [Delimiter], true)
  }

  /** The field before the first "_" is the second currency, the field after it the first. */
  function SymbolToCurrencyPair(symbol: string): (r: Pair)
    ensures r.second == Before(symbol, Delimiter) && r.first == Before(After(symbol, Delimiter), Delimiter)
    ensures FreeOf(r, Delimiter)
  {
    Invert(FromDelimited(symbol, Delimiter))
  }

  /** A pair whose codes hold no "_" comes back from its symbol, in upper case. */
  lemma SymbolRoundTrip(p: Pair)
    requires FreeOf(p, Delimiter)
    ensures SymbolToCurrencyPair(CurrencyPairToSymbol(p)) == FormatPair(p, true)
  {
    SplitDisplay(Invert(p), Delimiter, true);
  }

  /** A symbol "quote_base" comes back from its pair, in upper case. */
  lemma PairRoundTrip(quote: string, base: string)
    requires Delimiter !in quote && Delimiter !in base
    ensures CurrencyPairToSymbol(SymbolToCurrencyPair(quote + [Delimiter] + base)) == Upper(quote + [Delimiter] + base)
  {
    DisplaySplit(quote, base, Delimiter, true);
  }

  // ------------------------------------------------------------------ orders

  /** An open order as returnOpenOrders lists it; `date` is already in Unix seconds. */
  datatype PoloniexOrder = PoloniexOrder(orderNumber: int, orderType: string, rate: real, amount: real, total: real, date: int)

  /** convertOrderToExchangeOrder: every listed order is active, `total` is the filled part. */
  function ConvertOrder(o: PoloniexOrder, symbol: string): (r: Order)
    ensures r.orderID == FormatInt(o.orderNumber) && r.status == Active
    ensures r.amount == o.amount && r.filledAmount == o.total && Conserves(r)
    ensures r.rate == o.rate && r.createdAt == o.date
    ensures r.currencyPair == SymbolToCurrencyPair(symbol)
    ensures r.side == o.orderType && r.orderType == Unset
  {
    Order(FormatInt(o.orderNumber), Active, o.amount, o.total, o.amount - o.total, o.rate, o.date,
          SymbolToCurrencyPair(symbol), o.orderType, Unset)
  }

  /** A listed order keeps its number and the pair its market was made from. */
  lemma ConvertOrderRecovers(o: PoloniexOrder, p: Pair)
    requires MinInt64 <= o.orderNumber <= MaxInt64 && FreeOf(p, Delimiter)
    ensures ParseInt(ConvertOrder(o, CurrencyPairToSymbol(p)).orderID) == Parsed(o.orderNumber, true)
    ensures ConvertOrder(o, CurrencyPairToSymbol(p)).currencyPair == FormatPair(p, true)
  {
    ParseFormat(o.orderNumber);
    SymbolRoundTrip(p);
  }

  /** The open orders of one market, as the response map lists them. */
  datatype Market = Market(symbol: string, orders: seq<PoloniexOrder>)

  /** The orders of every market, converted with the market's symbol, market by market. */
  function ConvertMarkets(ms: seq<Market>): (r: seq<Order>)
    decreases |ms|
  {
    if ms == [] then [] else ConvertMarkets(ms[..|ms| - 1]) + ConvertMarket(ms[|ms| - 1])
  }

  function ConvertMarket(m: Market): (r: seq<Order>)
    ensures |r| == |m.orders|
    ensures forall i :: 0 <= i < |r| ==> r[i] == ConvertOrder(m.orders[i], m.symbol)
  {
    seq(|m.orders|, i requires 0 <= i < |m.orders| => ConvertOrder(m.orders[i], m.symbol))
  }

  /** One more market appends its converted orders. */
  lemma ConvertMarketsStep(ms: seq<Market>, i: nat)
    requires i < |ms|
    ensures ConvertMarkets(ms[..i + 1]) == ConvertMarkets(ms[..i]) + ConvertMarket(ms[i])
  {
    assert ms[..i + 1][..i] == ms[..i];
  }

  function OrderCount(ms: seq<Market>): nat
    decreases |ms|
  {
    if ms == [] then 0 else OrderCount(ms[..|ms| - 1]) + |ms[|ms| - 1].orders|
  }

  /** One converted order per listed order, and each is active with its filled and remaining parts adding up. */
  lemma {:induction false} ConvertMarketsCounts(ms: seq<Market>)
    ensures |ConvertMarkets(ms)| == OrderCount(ms)
    ensures forall i :: 0 <= i < |ConvertMarkets(ms)| ==>
              ConvertMarkets(ms)[i].status == Active && Conserves(ConvertMarkets(ms)[i])
    decreases |ms|
  {
    if ms != [] {
      ConvertMarketsCounts(ms[..|ms| - 1]);
    }
  }

  /** GetOrders' inner loop: the market's orders converted and appended one by one. */
  method AppendMarket(prefix: seq<Order>, m: Market) returns (ret: seq<Order>)
    ensures ret == prefix + ConvertMarket(m)
  {
    ret := prefix;
    ghost var converted := ConvertMarket(m);
    var j := 0;
    while j < |m.orders|
      invariant 0 <= j <= |m.orders|
      invariant ret == prefix + converted[..j]
    {
      var o := ConvertOrder(m.orders[j], m.symbol);
      assert o == converted[j];
      assert converted[..j + 1] == converted[..j] + [o];
      ret := ret + [o];
      j := j + 1;
    }
    assert converted[..j] == converted;
  }

  /** GetOrders: the nested loop over markets and their orders. */
  method GetOrders(reply: Result<seq<Market>, Error>) returns (ret: seq<Order>, err: Option<Error>)
    ensures reply.Err? ==> ret == [] && err == Some(reply.error)
    ensures reply.Ok? ==> ret == ConvertMarkets(reply.value) && err == None
  {
    ret := [];
    if reply.Err? {
      return ret, Some(reply.error);
    }
    var ms := reply.value;
    var i := 0;
    while i < |ms|
      invariant 0 <= i <= |ms|
      invariant ret == ConvertMarkets(ms[..i])
    {
      ret := AppendMarket(ret, ms[i]);
      ConvertMarketsStep(ms, i);
      i := i + 1;
    }
    assert ms[..i] == ms;
    err := None;
  }

  /** One trade of an order, as returnOrderTrades lists it. */
  datatype Trade = Trade(currencyPair: string, rate: real, tradeType: string, total: real)

  function TotalOf(trades: seq<Trade>): real
    decreases |trades|
  {
    if trades == [] then 0.0 else TotalOf(trades[..|trades| - 1]) + trades[|trades| - 1].total
  }

  function RateSum(trades: seq<Trade>): real
    decreases |trades|
  {
    if trades == [] then 0.0 else RateSum(trades[..|trades| - 1]) + trades[|trades| - 1].rate
  }

  /** The order GetOrder reports for a list of trades, given the average rate it computed. */
  function TradesOrder(orderID: string, trades: seq<Trade>, rate: real): (r: Order)
    ensures r.orderID == orderID && r.status == Aborted && r.filledAmount == TotalOf(trades) && r.rate == rate
    ensures trades != [] ==> r.currencyPair == SymbolToCurrencyPair(trades[0].currencyPair) && r.side == trades[0].tradeType
    ensures trades == [] ==> r.currencyPair == NoPair && r.side == Unset
  {
    var pair := if trades == [] then NoPair else SymbolToCurrencyPair(trades[0].currencyPair);
    var side := if trades == [] then Unset else trades[0].tradeType;
    Order(orderID, Aborted, 0.0, TotalOf(trades), 0.0, rate, 0, pair, side, Unset)
  }

  /** GetOrder as written: the rate sum takes only the first trade's rate, but is divided by every trade. */
  function GetOrderAsWritten(orderID: string, reply: Result<seq<Trade>, Error>): (r: Result<Order, Error>)
    ensures reply.Err? ==> r == Err(reply.error)
    ensures reply.Ok? && reply.value != [] ==>
              r == Ok(TradesOrder(orderID, reply.value, reply.value[0].rate / (|reply.value| as real)))
    ensures reply.Ok? && reply.value == [] ==> r == Ok(TradesOrder(orderID, [], 0.0))
  {
    match reply
    case Err(e) => Err(e)
    case Ok(trades) =>
      var rate := if trades == [] then 0.0 else trades[0].rate / (|trades| as real);
      Ok(TradesOrder(orderID, trades, rate))
  }

  /** Two trades at the same rate: the as-written average is half the rate every trade was made at. */
  lemma AsWrittenRateIsNotTheAverage()
    ensures var trades := [Trade("BTC_ETH", 1.0, "buy", 2.0), Trade("BTC_ETH", 1.0, "buy", 3.0)];
            GetOrderAsWritten("7", Ok(trades)).value.rate == 0.5
  {
    var trades := [Trade("BTC_ETH", 1.0, "buy", 2.0), Trade("BTC_ETH", 1.0, "buy", 3.0)];
    assert trades[0].rate / (|trades| as real) == 0.5;
  }

  /** The mean of the trades' rates, 0 when there are none. */
  function MeanRate(trades: seq<Trade>): real
  {
    if trades == [] then 0.0 else RateSum(trades) / (|trades| as real)
  }

  /** Trades all made at one rate average to that rate. */
  lemma {:induction false} MeanOfEqualRates(trades: seq<Trade>, rate: real)
    requires trades != [] && forall i :: 0 <= i < |trades| ==> trades[i].rate == rate
    ensures MeanRate(trades) == rate
  {
    RateSumOfEqualRates(trades, rate);
  }

  lemma {:induction false} RateSumOfEqualRates(trades: seq<Trade>, rate: real)
    requires forall i :: 0 <= i < |trades| ==> trades[i].rate == rate
    ensures RateSum(trades) == (|trades| as real) * rate
    decreases |trades|
  {
    if trades != [] {
      RateSumOfEqualRates(trades[..|trades| - 1], rate);
    }
  }

  /**
   * GetOrder with the average taken over every trade's rate: the loop over
   * the trades takes the pair and side from the first one and sums the
   * totals and the rates.
   */
  method GetOrder(orderID: string, reply: Result<seq<Trade>, Error>) returns (r: Result<Order, Error>)
    ensures reply.Err? ==> r == Err(reply.error)
    ensures reply.Ok? ==> r == Ok(TradesOrder(orderID, reply.value, MeanRate(reply.value)))
  {
    if reply.Err? {
      return Err(reply.error);
    }
    var trades := reply.value;
    var currencyPair := NoPair;
    var side := Unset;
    var rateSum := 0.0;
    var filledAmount := 0.0;
    var i := 0;
    while i < |trades|
      invariant 0 <= i <= |trades|
      invariant rateSum == RateSum(trades[..i]) && filledAmount == TotalOf(trades[..i])
      invariant i > 0 ==> currencyPair == SymbolToCurrencyPair(trades[0].currencyPair) && side == trades[0].tradeType
      invariant i == 0 ==> currencyPair == NoPair && side == Unset
    {
      assert trades[..i + 1][..i] == trades[..i];
      if i == 0 {
        currencyPair := SymbolToCurrencyPair(trades[i].currencyPair);
        side := trades[i].tradeType;
      }
      rateSum := rateSum + trades[i].rate;
      filledAmount := filledAmount + trades[i].total;
      i := i + 1;
    }
    assert trades[..i] == trades;
    var avgRate := 0.0;
    if |trades| > 0 {
      avgRate := rateSum / (|trades| as real);
    }
    r := Ok(Order(orderID, Aborted, 0.0, filledAmount, 0.0, avgRate, 0, currencyPair, side, Unset));
  }

  // ----------------------------------------------------- success-flag checks

  /** PoloniexGenericResponse: a success flag and an error text. */
  datatype GenericResponse = GenericResponse(success: int, error: string)

  /** cancelOrder, and MoveOrder after it: anything but success 1 is an error carrying the exchange's text. */
  function CheckSuccess(reply: Result<GenericResponse, Error>): (r: Result<bool, Error>)
    ensures r.Ok? <==> reply.Ok? && reply.value.success == 1
    ensures r.Ok? ==> r.value
    ensures reply.Err? ==> r == Err(reply.error)
    ensures reply.Ok? && reply.value.success != 1 ==> r == Err(Message(reply.value.error))
  {
    match reply
    case Err(e) => Err(e)
    case Ok(g) => if g.success != 1 then Err(Message(g.error)) else Ok(true)
  }

  /** TransferBalance: an error only when there is an error text and success is not 1. */
  function CheckTransfer(reply: Result<GenericResponse, Error>): (r: Result<bool, Error>)
    ensures r.Ok? <==> reply.Ok? && (reply.value.error == "" || reply.value.success == 1)
    ensures r.Ok? ==> r.value
    ensures reply.Err? ==> r == Err(reply.error)
    ensures r.Err? && reply.Ok? ==> r == Err(Message(reply.value.error))
  {
    match reply
    case Err(e) => Err(e)
    case Ok(g) => if g.error != "" && g.success != 1 then Err(Message(g.error)) else Ok(true)
  }

  /** Withdraw: an error exactly when there is an error text. */
  function CheckWithdraw(reply: Result<GenericResponse, Error>): (r: Result<bool, Error>)
    ensures r.Ok? <==> reply.Ok? && reply.value.error == ""
    ensures reply.Err? ==> r == Err(reply.error)
    ensures r.Err? && reply.Ok? ==> r == Err(Message(reply.value.error))
  {
    match reply
    case Err(e) => Err(e)
    case Ok(g) => if g.error != "" then Err(Message(g.error)) else Ok(true)
  }

  /**
   * The transfer check is the most lenient: every reply the cancel or the
   * withdraw check accepts it accepts too, and a reply with success 0 and no
   * error text passes it although the cancel check rejects it.
   */
  lemma TransferIsLenient(reply: Result<GenericResponse, Error>)
    ensures CheckSuccess(reply).Ok? ==> CheckTransfer(reply).Ok?
    ensures CheckWithdraw(reply).Ok? ==> CheckTransfer(reply).Ok?
    ensures reply == Ok(GenericResponse(0, "")) ==> CheckTransfer(reply).Ok? && CheckSuccess(reply).Err?
  {
  }

  /** What a cancel call did: its error, and the order number it asked the exchange to cancel, if any. */
  datatype CancelOutcome = CancelOutcome(err: Option<Error>, requested: Option<int>)

  /** cancelOrder with the exchange's reply to a cancel of each order number. */
  function CancelNumber(orderID: int, cancel: int -> Result<GenericResponse, Error>): (r: CancelOutcome)
    ensures r.requested == Some(orderID)
    ensures r.err.None? <==> CheckSuccess(cancel(orderID)).Ok?
  {
    var checked := CheckSuccess(cancel(orderID));
    CancelOutcome(if checked.Err? then Some(checked.error) else None, Some(orderID))
  }

  /**
   * CancelOrder as written: the early return is taken when the ID parses, so
   * a valid ID cancels nothing, and an invalid one cancels the number the
   * failed parse left behind (0, or the clamped bound on overflow).
   */
  function CancelOrderAsWritten(orderstr: string, cancel: int -> Result<GenericResponse, Error>): (r: CancelOutcome)
    ensures ParseInt(orderstr).ok ==> r == CancelOutcome(None, None)
    ensures !ParseInt(orderstr).ok ==> r == CancelNumber(ParseInt(orderstr).value, cancel)
  {
    var parsed := ParseInt(orderstr);
    if parsed.ok then CancelOutcome(None, None) else CancelNumber(parsed.value, cancel)
  }

  /** Cancelling order "42" as written sends nothing and claims success; "x" cancels order 0. */
  lemma AsWrittenCancelSkipsValidIDs(cancel: int -> Result<GenericResponse, Error>)
    ensures CancelOrderAsWritten("42", cancel) == CancelOutcome(None, None)
    ensures CancelOrderAsWritten("x", cancel).requested == Some(0)
  {
    ParseFormat(42);
    assert FormatInt(42) == "42";
  }

  /** CancelOrder as intended: a parse failure is returned, a valid ID is cancelled. */
  function CancelOrder(orderstr: string, cancel: int -> Result<GenericResponse, Error>): (r: CancelOutcome)
    ensures !ParseInt(orderstr).ok ==> r == CancelOutcome(Some(ParseFailure(orderstr)), None)
    ensures ParseInt(orderstr).ok ==> r == CancelNumber(ParseInt(orderstr).value, cancel)
  {
    var parsed := ParseInt(orderstr);
    if !parsed.ok then CancelOutcome(Some(ParseFailure(orderstr)), None) else CancelNumber(parsed.value, cancel)
  }

  /** Cancelling a listed order by its canonical ID asks the exchange to cancel exactly that order. */
  lemma CancelConvertedOrder(o: PoloniexOrder, symbol: string, cancel: int -> Result<GenericResponse, Error>)
    requires MinInt64 <= o.orderNumber <= MaxInt64
    ensures CancelOrder(ConvertOrder(o, symbol).orderID, cancel).requested == Some(o.orderNumber)
    ensures CancelOrder(ConvertOrder(o, symbol).orderID, cancel).err.None? <==> CheckSuccess(cancel(o.orderNumber)).Ok?
  {
    ParseFormat(o.orderNumber);
  }

  // ----------------------------------------------------------------- books

  datatype BookEntry = BookEntry(price: real, amount: real)
  datatype RawBook = RawBook(bids: seq<BookEntry>, asks: seq<BookEntry>)

  function EntryAmount(e: BookEntry): real { e.amount }
  function EntryPrice(e: BookEntry): real { e.price }

  /** The snapshot UpdateOrderbook stores for a fetched book: both sides row by row, in order. */
  function BookOf(raw: RawBook): (r: Base)
    ensures |r.bids| == |raw.bids| && |r.asks| == |raw.asks|
    ensures forall i :: 0 <= i < |raw.bids| ==> r.bids[i] == Item(raw.bids[i].amount, raw.bids[i].price)
    ensures forall i :: 0 <= i < |raw.asks| ==> r.asks[i] == Item(raw.asks[i].amount, raw.asks[i].price)
    ensures r.pair == NoPair && r.currencyPair == "" && r.lastUpdated == 0
  {
    Snapshot(raw.bids, raw.asks, EntryAmount, EntryPrice)
  }


  // ------------------------------------------------------------- the adapter

  /** The form body of an authenticated request and its signature. */
  datatype SignedForm = SignedForm(values: map<string, string>, sign: string)

  /** The Poloniex exchange object. */
  class Poloniex {
    var authenticated: bool
    var currencyPairs: map<string, Pair>
    var enabledPairs: seq<Pair>
    var availablePairs: seq<Pair>
    const orderbooks: Orderbooks
    const nonce: Nonce

    /** SetDefaults: no credentials, no pairs, an empty order-book store. */
    constructor ()
      ensures !authenticated && currencyPairs == map[] && enabledPairs == [] && availablePairs == []
      ensures fresh(orderbooks) && orderbooks.books == map[]
      ensures fresh(nonce) && nonce.value == 0
    {
      authenticated := false;
      currencyPairs, enabledPairs, availablePairs := map[], [], [];
      orderbooks := new Orderbooks.Init();
      nonce := new Nonce();
    }

    /**
     * The form SendAuthenticatedHTTPRequest posts: the nonce is seeded from
     * the clock on first use and incremented after, and both it and the
     * command are set before the encoded form is signed.
     */
    method SignedRequest(endpoint: string, values: map<string, string>, now: int,
                         encode: map<string, string> -> string, sign: string -> string)
      returns (r: Result<SignedForm, Error>)
      modifies nonce
      ensures !authenticated ==> r == Err(NoCredentials(ExchangeName)) && nonce.value == old(nonce.value)
      ensures authenticated ==> nonce.value == NextNonce(old(nonce.value), now)
      ensures authenticated ==>
                var form := values["nonce" := FormatInt(nonce.value)]["command" := endpoint];
                r == Ok(SignedForm(form, sign(encode(form))))
    {
      if !authenticated {
        return Err(NoCredentials(ExchangeName));
      }
      var n := nonce.Advance(now);
      var form := values["nonce" := FormatInt(n)];
      form := form["command" := endpoint];
      r := Ok(SignedForm(form, sign(encode(form))));
    }

    /** Run's table build: one entry per ticker symbol, mapped to its (inverted) pair; none when the fetch fails. */
    method Run(ticker: Result<set<string>, Error>)
      modifies this
      ensures ticker.Err? ==> currencyPairs == map[]
      ensures ticker.Ok? ==> currencyPairs == map s | s in ticker.value :: SymbolToCurrencyPair(s)
      ensures enabledPairs == old(enabledPairs) && availablePairs == old(availablePairs)
      ensures authenticated == old(authenticated)
    {
      currencyPairs := map[];
      if ticker.Err? {
        return;
      }
      var todo := ticker.value;
      while todo != {}
        invariant todo <= ticker.value
        invariant currencyPairs == map s | s in ticker.value - todo :: SymbolToCurrencyPair(s)
        invariant enabledPairs == old(enabledPairs) && availablePairs == old(availablePairs)
        invariant authenticated == old(authenticated)
        decreases |todo|
      {
        var symbol :| symbol in todo;
        currencyPairs := currencyPairs[symbol := SymbolToCurrencyPair(symbol)];
        todo := todo - {symbol};
      }
    }

    /** UpdateOrderbook: fetch the inverted symbol's book, store the copy, answer with what the store holds. */
    method UpdateOrderbook(p: Pair, assetType: string, fetch: (string, int) -> Result<RawBook, Error>, now: int)
      returns (b: Base, err: Option<Error>)
      modifies orderbooks
      ensures fetch(CurrencyPairToSymbol(p), BookDepth).Err? ==>
                b == EmptyBase && err == Some(fetch(CurrencyPairToSymbol(p), BookDepth).error)
                && orderbooks.books == old(orderbooks.books)
      ensures fetch(CurrencyPairToSymbol(p), BookDepth).Ok? ==>
                var stored := Stamped(p, BookOf(fetch(CurrencyPairToSymbol(p), BookDepth).value), now);
                b == stored && err == None && orderbooks.books == Put(old(orderbooks.books), p, assetType, stored)
    {
      var symbol := CurrencyPairToSymbol(p);
      var orderbookNew := fetch(symbol, BookDepth);
      if orderbookNew.Err? {
        return EmptyBase, Some(orderbookNew.error);
      }
      b := StoreSnapshot(orderbooks, ExchangeName, p, assetType, orderbookNew.value.bids, orderbookNew.value.asks,
                         EntryAmount, EntryPrice, now);
      err := None;
    }

    /** GetOrderbookEx as written: refetch on a hit, the zero book and no error on a miss. */
    method GetOrderbookEx(p: Pair, assetType: string, fetch: (string, int) -> Result<RawBook, Error>, now: int)
      returns (b: Base, err: Option<Error>)
      modifies orderbooks
      ensures old(Get(orderbooks.books, p, assetType)).Err? ==>
                b == EmptyBase && err == None && orderbooks.books == old(orderbooks.books)
      ensures old(Get(orderbooks.books, p, assetType)).Ok? && fetch(CurrencyPairToSymbol(p), BookDepth).Ok? ==>
                var stored := Stamped(p, BookOf(fetch(CurrencyPairToSymbol(p), BookDepth).value), now);
                b == stored && err == None && orderbooks.books == Put(old(orderbooks.books), p, assetType, stored)
      ensures old(Get(orderbooks.books, p, assetType)).Ok? && fetch(CurrencyPairToSymbol(p), BookDepth).Err? ==>
                b == EmptyBase && err == Some(fetch(CurrencyPairToSymbol(p), BookDepth).error)
                && orderbooks.books == old(orderbooks.books)
    {
      var ob := orderbooks.GetOrderbook(ExchangeName, p, assetType);
      if ob.Ok? {
        b, err := UpdateOrderbook(p, assetType, fetch, now);
        return;
      }
      return EmptyBase, None;
    }

    /** GetEnabledCurrencies: the enabled pairs, each inverted in place back to the usual order. */
    method GetEnabledCurrencies() returns (pairs: seq<Pair>)
      ensures pairs == InvertEach(enabledPairs)
    {
      var a := new Pair[|enabledPairs|](i requires 0 <= i < |enabledPairs| reads this => enabledPairs[i]);
      InvertAll(a);
      pairs := a[..];
    }

    /** GetAvailableCurrencies: the available pairs, each inverted in place. */
    method GetAvailableCurrencies() returns (pairs: seq<Pair>)
      ensures pairs == InvertEach(availablePairs)
    {
      var a := new Pair[|availablePairs|](i requires 0 <= i < |availablePairs| reads this => availablePairs[i]);
      InvertAll(a);
      pairs := a[..];
    }
  }

  /** Inverting the inverted lists gives back the configured pairs. */
  lemma InvertedListsRoundTrip(x: Poloniex)
    ensures InvertEach(InvertEach(x.enabledPairs)) == x.enabledPairs
    ensures InvertEach(InvertEach(x.availablePairs)) == x.availablePairs
  {
    InvertEachTwice(x.enabledPairs);
    InvertEachTwice(x.availablePairs);
  }

  /** A balance entry: the currency and its balance as the total; hold and available stay unset. */
  function BalanceEntry(currency: string, balance: real): (r: AccountCurrencyInfo)
    ensures r.currencyName == currency && r.totalValue == balance && r.hold == 0.0 && r.available == 0.0
  {
    AccountCurrencyInfo(currency, balance, 0.0, 0.0)
  }

  /** GetExchangeAccountInfo: one entry per currency of the balance map, in the map's order. */
  method GetExchangeAccountInfo(reply: Result<map<string, real>, Error>)
    returns (info: AccountInfo, err: Option<Error>, ghost order: seq<string>)
    ensures info.exchangeName == ExchangeName
    ensures reply.Err? ==> info.currencies == [] && err == Some(reply.error)
    ensures reply.Ok? ==> err == None && |info.currencies| == |order| == |reply.value.Keys|
    ensures reply.Ok? ==> forall i, j :: 0 <= i < j < |order| ==> order[i] != order[j]
    ensures reply.Ok? ==> forall c :: c in reply.value <==> c in order
    ensures reply.Ok? ==> forall i :: 0 <= i < |order| ==>
              order[i] in reply.value && info.currencies[i] == BalanceEntry(order[i], reply.value[order[i]])
  {
    order := [];
    if reply.Err? {
      return AccountInfo(ExchangeName, []), Some(reply.error), [];
    }
    var balances := reply.value;
    var cs: seq<AccountCurrencyInfo> := [];
    var todo := balances.Keys;
    while todo != {}
      invariant todo <= balances.Keys
      invariant |cs| == |order| && |order| + |todo| == |balances.Keys|
      invariant forall i, j :: 0 <= i < j < |order| ==> order[i] != order[j]
      invariant forall c :: c in balances ==> (c in order <==> c !in todo)
      invariant forall i :: 0 <= i < |order| ==> order[i] in balances && cs[i] == BalanceEntry(order[i], balances[order[i]])
      decreases |todo|
    {
      var c :| c in todo;
      cs := cs + [BalanceEntry(c, balances[c])];
      order := order + [c];
      todo := todo - {c};
    }
    assert forall c :: c in order ==> c in balances;
    info, err := AccountInfo(ExchangeName, cs), None;
  }
}
