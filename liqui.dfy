/**
 * The Liqui adapter: the limits and fees read from the pair information,
 * the visible-pair table and the available-pair list built from it, the
 * zero-ID rule of NewOrder, the order normaliser, the success envelope and
 * the signed POST with its nonce.
 *
 * Liqui's request format is "_"-delimited lower case ("eth_btc"); the key
 * FormatExchangeCurrency makes for a pair is that display.
 */
module Liqui {
  import opened Wrappers
  import opened Text
  import opened Pairs
  import opened Exchange
  import opened Iteration

  const ExchangeName: string := "Liqui"
  const Delimiter: char := '_'
  const TradeMethod: string := "Trade"
  const UnknownCurrency: string := "currency does not exist"

  /** FormatExchangeCurrency for Liqui: the pair in the request format. */
  function ExchangeKey(p: Pair): (r: string)
    ensures r == Lower(p.first) + "_" + Lower(p.second)
  {
    DisplayParts(p, Delimiter, false);
    Display(p, [Delimiter], false)
  }

  /** A pair whose codes hold no "_" comes back from its key, in lower case. */
  lemma KeyRoundTrip(p: Pair)
    requires FreeOf(p, Delimiter)
    ensures FromDelimited(ExchangeKey(p), Delimiter) == FormatPair(p, false)
  {
    SplitDisplay(p, Delimiter, false);
  }

  /** What the info endpoint says about one pair. */
  datatype PairData = PairData(decimalPlaces: int, minAmount: real, hidden: int, fee: real)

  // ----------------------------------------------------------------- limits

  /**
   * currencyLimits: both decimal-place queries answer the pair's
   * DecimalPlaces (as an int32) or Undefined, the minimum amount is the
   * pair's or 0, and there is no minimum total.
   */
  function CurrencyLimits(info: map<string, PairData>, p: Pair): (r: Limits)
    ensures ExchangeKey(p) in info ==>
              r.priceDecimalPlaces == ToInt32(info[ExchangeKey(p)].decimalPlaces)
              && r.amountDecimalPlaces == r.priceDecimalPlaces && r.minAmount == info[ExchangeKey(p)].minAmount
    ensures ExchangeKey(p) !in info ==>
              r.priceDecimalPlaces == Undefined && r.amountDecimalPlaces == Undefined && r.minAmount == 0.0
    ensures r.minTotal == 0.0
  {
    var k := ExchangeKey(p);
    if k in info then
      Limits(ToInt32(info[k].decimalPlaces), ToInt32(info[k].decimalPlaces), info[k].minAmount, 0.0)
    else Limits(Undefined, Undefined, 0.0, 0.0)
  }

  /** With sane pair information the limits keep the ILimits conventions. */
  lemma CurrencyLimitsWellFormed(info: map<string, PairData>, p: Pair)
    requires forall k :: k in info ==> 0 <= info[k].decimalPlaces <= MaxInt32 && info[k].minAmount >= 0.0
    ensures WellFormed(CurrencyLimits(info, p))
    ensures ExchangeKey(p) in info ==> CurrencyLimits(info, p).priceDecimalPlaces == info[ExchangeKey(p)].decimalPlaces
  {
  }

  /** A decimal-place count past the int32 range wraps: 2^32 + 8 places answers 8. */
  lemma DecimalPlacesWrap(p: Pair)
    ensures CurrencyLimits(map[ExchangeKey(p) := PairData(0x1_0000_0008, 0.0, 0, 0.0)], p).priceDecimalPlaces == 8
  {
  }

  /** GetFee: the fee of the lower-cased pair name, an error when there is none. */
  function GetFee(info: map<string, PairData>, currency: string): (r: Result<real, Error>)
    ensures Lower(currency) in info ==> r == Ok(info[Lower(currency)].fee)
    ensures Lower(currency) !in info ==> r == Err(Message(UnknownCurrency))
  {
    var k := Lower(currency);
    if k in info then Ok(info[k].fee) else Err(Message(UnknownCurrency))
  }

  /** The fee does not depend on the case the pair name is written in. */
  lemma GetFeeIgnoresCase(info: map<string, PairData>, currency: string)
    ensures GetFee(info, Upper(currency)) == GetFee(info, currency)
  {
    LowerOfUpper(currency);
  }

  // ------------------------------------------------------------ pair tables

  /** The pair a pair name of the info endpoint splits into. */
  function NamePair(name: string): Pair
  {
    FromDelimited(name, Delimiter)
  }

  /** GetCurrencyPairs as it leaves the table for a visit order of the names: a later name under the same key wins. */
  function VisiblePairs(info: map<string, PairData>, order: seq<string>): map<string, CurrencyPairInfo>
    requires forall i :: 0 <= i < |order| ==> order[i] in info
    decreases |order|
  {
    if order == [] then map[]
    else
      var t := VisiblePairs(info, order[..|order| - 1]);
      var c := order[|order| - 1];
      if info[c].hidden == 0 then t[ExchangeKey(NamePair(c)) := CurrencyPairInfo(NamePair(c), "", "")] else t
  }

  /**
   * Every visible name's key is in the table, every entry is filed under
   * its own pair's key, and every entry comes from a visible name.
   */
  lemma {:induction false} VisiblePairsExact(info: map<string, PairData>, order: seq<string>)
    requires forall i :: 0 <= i < |order| ==> order[i] in info
    ensures forall i :: 0 <= i < |order| && info[order[i]].hidden == 0 ==> ExchangeKey(NamePair(order[i])) in VisiblePairs(info, order)
    ensures forall k :: k in VisiblePairs(info, order) ==> ExchangeKey(VisiblePairs(info, order)[k].currency) == k
    ensures forall k :: k in VisiblePairs(info, order) ==>
              exists i :: 0 <= i < |order| && info[order[i]].hidden == 0
                          && VisiblePairs(info, order)[k] == CurrencyPairInfo(NamePair(order[i]), "", "")
    decreases |order|
  {
    if order != [] {
      var init := order[..|order| - 1];
      VisiblePairsExact(info, init);
      forall i | 0 <= i < |order| - 1 ensures order[i] == init[i] { }
    }
  }

  /** A name already in the request format is its own key. */
  predicate Canonical(name: string)
  {
    ExchangeKey(NamePair(name)) == name
  }

  /**
   * When every name is in the request format ("eth_btc"), the table holds
   * exactly the names that are not hidden, each with the pair it splits into.
   */
  lemma CanonicalVisiblePairs(info: map<string, PairData>, order: seq<string>)
    requires forall i :: 0 <= i < |order| ==> order[i] in info
    requires forall c :: c in info ==> Canonical(c) && c in order
    ensures forall c :: c in info ==> (c in VisiblePairs(info, order) <==> info[c].hidden == 0)
    ensures forall c :: c in VisiblePairs(info, order) ==> VisiblePairs(info, order)[c].currency == NamePair(c)
  {
    VisiblePairsExact(info, order);
    forall c | c in info && c in VisiblePairs(info, order)
      ensures info[c].hidden == 0
    {
      var i :| 0 <= i < |order| && info[order[i]].hidden == 0
               && VisiblePairs(info, order)[c] == CurrencyPairInfo(NamePair(order[i]), "", "");
      assert Canonical(order[i]);
    }
    forall c | c in info && info[c].hidden == 0
      ensures c in VisiblePairs(info, order)
    {
      var i :| 0 <= i < |order| && order[i] == c;
    }
  }

  /** A name GetAvailablePairs keeps: never the empty name, and a hidden one only when hidden pairs are wanted. */
  predicate Shown(d: PairData, name: string, nonHidden: bool)
  {
    !((nonHidden && d.hidden == 1) || name == "")
  }

  /** GetAvailablePairs for a visit order of the names: the kept names in upper case. */
  function AvailableOf(info: map<string, PairData>, order: seq<string>, nonHidden: bool): (r: seq<string>)
    requires forall i :: 0 <= i < |order| ==> order[i] in info
    ensures |r| <= |order|
    decreases |order|
  {
    if order == [] then []
    else
      var c := order[|order| - 1];
      AvailableOf(info, order[..|order| - 1], nonHidden) + (if Shown(info[c], c, nonHidden) then [Upper(c)] else [])
  }

  /** Every kept name is in the list in upper case. */
  lemma {:induction false} AvailableComplete(info: map<string, PairData>, order: seq<string>, nonHidden: bool)
    requires forall i :: 0 <= i < |order| ==> order[i] in info
    ensures forall i :: 0 <= i < |order| && Shown(info[order[i]], order[i], nonHidden) ==>
              Upper(order[i]) in AvailableOf(info, order, nonHidden)
    decreases |order|
  {
    if order != [] {
      var init := order[..|order| - 1];
      AvailableComplete(info, init, nonHidden);
      forall i | 0 <= i < |order| && Shown(info[order[i]], order[i], nonHidden)
        ensures Upper(order[i]) in AvailableOf(info, order, nonHidden)
      {
        if i < |order| - 1 {
          assert order[i] == init[i];
          assert Upper(init[i]) in AvailableOf(info, init, nonHidden);
        }
      }
    }
  }

  /** The positions in `order` of the names GetAvailablePairs keeps, in visit order. */
  function KeptIndices(info: map<string, PairData>, order: seq<string>, nonHidden: bool): seq<nat>
    requires forall i :: 0 <= i < |order| ==> order[i] in info
    decreases |order|
  {
    if order == [] then []
    else
      var c := order[|order| - 1];
      KeptIndices(info, order[..|order| - 1], nonHidden) + (if Shown(info[c], c, nonHidden) then [|order| - 1] else [])
  }

  /**
   * Every listed pair is a kept name in upper case: the k-th entry comes from
   * the name at the k-th kept position, and the positions increase, so the
   * list keeps the visit order.
   */
  lemma {:induction false} AvailableSound(info: map<string, PairData>, order: seq<string>, nonHidden: bool)
    requires forall i :: 0 <= i < |order| ==> order[i] in info
    ensures var r, idx := AvailableOf(info, order, nonHidden), KeptIndices(info, order, nonHidden);
            |idx| == |r|
            && (forall k :: 0 <= k < |idx| ==>
                  idx[k] < |order| && Shown(info[order[idx[k]]], order[idx[k]], nonHidden) && r[k] == Upper(order[idx[k]]))
            && (forall k, l :: 0 <= k < l < |idx| ==> idx[k] < idx[l])
    decreases |order|
  {
    if order != [] {
      var init := order[..|order| - 1];
      AvailableSound(info, init, nonHidden);
      var before := KeptIndices(info, init, nonHidden);
      forall k | 0 <= k < |before| ensures before[k] < |init| && order[before[k]] == init[before[k]] { }
    }
  }

  // ------------------------------------------------------------------ orders

  /** An order as OrderInfo and ActiveOrders list it. */
  datatype OrderInfo = OrderInfo(pair: string, orderType: string, startAmount: real, amount: real,
                                 rate: real, timestampCreated: int, status: int)

  /** The status codes: 0 active, 1 executed, 2 and 3 cancelled; any other code leaves the status unset. */
  function OrderStatus(status: int): (r: Status)
    ensures r == Active <==> status == 0
    ensures r == Filled <==> status == 1
    ensures r == Aborted <==> status == 2 || status == 3
    ensures r == NoStatus <==> status !in {0, 1, 2, 3}
  {
    if status == 0 then Active else if status == 1 then Filled
    else if status == 2 || status == 3 then Aborted else NoStatus
  }

  /**
   * convertOrderToExchangeOrder: with a start amount (GetOrder's orders) the
   * amount is the start amount, the filled part what has gone and the
   * remaining part the order's amount; without one (GetOrders') only the
   * amount is set. The side is the order's type word itself.
   */
  function ConvertOrder(orderID: string, o: OrderInfo): (r: Order)
    ensures r.orderID == orderID && r.status == OrderStatus(o.status)
    ensures o.startAmount != 0.0 ==>
              r.amount == o.startAmount && r.filledAmount == o.startAmount - o.amount && r.remainingAmount == o.amount
    ensures o.startAmount == 0.0 ==> r.amount == o.amount && r.filledAmount == 0.0 && r.remainingAmount == 0.0
    ensures r.rate == o.rate && r.createdAt == o.timestampCreated
    ensures r.currencyPair == NamePair(o.pair) && r.side == o.orderType && r.orderType == Unset
  {
    var (amount, filled, remaining) :=
      if o.startAmount != 0.0 then (o.startAmount, o.startAmount - o.amount, o.amount) else (o.amount, 0.0, 0.0);
    Order(orderID, OrderStatus(o.status), amount, filled, remaining, o.rate, o.timestampCreated,
          NamePair(o.pair), o.orderType, Unset)
  }

  /**
   * An order with a start amount has its parts adding up; an order on a pair
   * named in the request format carries that pair, in lower case.
   */
  lemma ConvertOrderRecovers(orderID: string, o: OrderInfo, p: Pair)
    requires o.pair == ExchangeKey(p) && FreeOf(p, Delimiter)
    ensures ConvertOrder(orderID, o).currencyPair == FormatPair(p, false)
    ensures o.startAmount != 0.0 ==> Conserves(ConvertOrder(orderID, o))
  {
    KeyRoundTrip(p);
  }

  /** GetOrder: the order filed under the ID, converted; an ID the reply lacks is a nil dereference. */
  function GetOrder(orderID: string, reply: Result<map<string, OrderInfo>, Error>): (r: Result<Order, Error>)
    ensures reply.Err? ==> r == Err(reply.error)
    ensures reply.Ok? && orderID in reply.value ==> r == Ok(ConvertOrder(orderID, reply.value[orderID]))
    ensures reply.Ok? && orderID !in reply.value ==> r == Err(Panic("nil pointer dereference"))
  {
    match reply
    case Err(e) => Err(e)
    case Ok(m) => if orderID in m then Ok(ConvertOrder(orderID, m[orderID])) else Err(Panic("nil pointer dereference"))
  }

  /** GetOrders: every active order once, converted with its own ID, in the map's order. */
  method GetOrders(reply: Result<map<string, OrderInfo>, Error>) returns (ret: seq<Order>, err: Option<Error>, ghost ids: seq<string>)
    ensures reply.Err? ==> ret == [] && err == Some(reply.error)
    ensures reply.Ok? ==> err == None && |ret| == |ids| == |reply.value.Keys| && Distinct(ids)
    ensures reply.Ok? ==> forall id :: id in reply.value <==> id in ids
    ensures reply.Ok? ==> forall i :: 0 <= i < |ids| ==> ids[i] in reply.value && ret[i] == ConvertOrder(ids[i], reply.value[ids[i]])
  {
    ret, ids := [], [];
    if reply.Err? {
      return ret, Some(reply.error), ids;
    }
    var active := reply.value;
    var keys := RangeOrder(active.Keys);
    ids := keys;
    ret := ConvertOrders(active, keys);
    err := None;
  }

  /** GetOrders' loop: each listed ID's order converted, in the listed order. */
  method ConvertOrders(active: map<string, OrderInfo>, keys: seq<string>) returns (ret: seq<Order>)
    requires forall k :: 0 <= k < |keys| ==> keys[k] in active
    ensures |ret| == |keys|
    ensures forall k :: 0 <= k < |keys| ==> ret[k] == ConvertOrder(keys[k], active[keys[k]])
  {
    ret := [];
    for i := 0 to |keys|
      invariant |ret| == i
      invariant forall k :: 0 <= k < i ==> ret[k] == ConvertOrder(keys[k], active[keys[k]])
    {
      ret := ret + [ConvertOrder(keys[i], active[keys[i]])];
    }
  }

  // --------------------------------------------------------------- NewOrder

  /** The form Trade posts; `formatFloat` is strconv.FormatFloat(x, 'f', -1, 64). */
  function TradeForm(symbol: string, side: string, amount: real, price: real, formatFloat: real -> string): (r: map<string, string>)
    ensures r.Keys == {"pair", "type", "amount", "rate"}
    ensures r["pair"] == symbol && r["type"] == side && r["amount"] == formatFloat(amount) && r["rate"] == formatFloat(price)
  {
    map["pair" := symbol, "type" := side, "amount" := formatFloat(amount), "rate" := formatFloat(price)]
  }

  /** The ID NewOrder reports for Trade's order ID: none for 0 (filled at once), else its decimal text. */
  function OrderIDText(id: int): (r: string)
    ensures r == "" <==> id == 0
    ensures id != 0 ==> r == FormatInt(id)
  {
    if id == 0 then "" else FormatInt(id)
  }

  /** NewOrder: Trade on the pair's key with the side as the type word, then the ID rule. */
  function NewOrder(p: Pair, amount: real, price: real, side: string, formatFloat: real -> string,
                    trade: map<string, string> -> Result<int, Error>): (r: Result<string, Error>)
    ensures var sent := trade(TradeForm(ExchangeKey(p), side, amount, price, formatFloat));
            (sent.Err? ==> r == Err(sent.error)) && (sent.Ok? ==> r == Ok(OrderIDText(sent.value)))
  {
    var sent := trade(TradeForm(ExchangeKey(p), side, amount, price, formatFloat));
    if sent.Err? then Err(sent.error) else Ok(OrderIDText(sent.value))
  }

  /** A non-empty ID NewOrder reports reads back as the order ID the exchange gave. */
  lemma NewOrderIDRoundTrip(id: int)
    requires id != 0 && MinInt64 <= id <= MaxInt64
    ensures OrderIDText(id) != "" && ParseInt(OrderIDText(id)) == Parsed(id, true)
  {
    ParseFormat(id);
  }

  // ---------------------------------------------------------------- envelope

  /** The envelope of every private reply. */
  datatype Response = Response(success: int, error: string, returned: string)

  /** The envelope check: success 1 decodes the returned value, anything else is the error text. */
  function Envelope<T>(reply: Result<Response, Error>, decode: string -> Result<T, Error>): (r: Result<T, Error>)
    ensures reply.Err? ==> r == Err(reply.error)
    ensures reply.Ok? && reply.value.success != 1 ==> r == Err(Message(reply.value.error))
    ensures reply.Ok? && reply.value.success == 1 ==> r == decode(reply.value.returned)
  {
    match reply
    case Err(e) => Err(e)
    case Ok(response) => if response.success != 1 then Err(Message(response.error)) else decode(response.returned)
  }

  /**
   * Any success value but 1 is refused, even 0 with no error text (the error
   * is then the empty message), and no such reply is decoded.
   */
  lemma EnvelopeRefusesAllButOne<T>(raw: string, code: int, decode: string -> Result<T, Error>)
    requires code != 1
    ensures Envelope(Ok(Response(code, "", raw)), decode) == Err(Message(""))
    ensures Envelope(Ok(Response(1, "", raw)), decode) == decode(raw)
  {
  }

  // ------------------------------------------------------------- the adapter

  /** What SendAuthenticatedHTTPRequest posts: the encoded form, the API key and the form's signature. */
  datatype SignedPost = SignedPost(body: string, key: string, sign: string)

  /** The Liqui exchange object. */
  class Liqui {
    var authenticated: bool
    var apiKey: string
    var apiSecret: string
    var info: map<string, PairData>
    const nonce: Nonce

    /** SetDefaults: no credentials, no pair information. */
    constructor ()
      ensures !authenticated && apiKey == "" && apiSecret == "" && info == map[]
      ensures fresh(nonce) && nonce.value == 0
    {
      authenticated, apiKey, apiSecret := false, "", "";
      info := map[];
      nonce := new Nonce();
    }

    /** GetLimits, read for one pair. */
    function GetLimits(p: Pair): (r: Limits)
      reads this
      ensures r == CurrencyLimits(info, p)
      ensures ExchangeKey(p) !in info ==> r == Limits(Undefined, Undefined, 0.0, 0.0)
    {
      CurrencyLimits(info, p)
    }

    /** GetCurrencyPairs: the loop over the pair information, in the map's order. */
    method GetCurrencyPairs() returns (currencies: map<string, CurrencyPairInfo>, ghost order: seq<string>)
      ensures Distinct(order) && forall c :: c in info <==> c in order
      ensures currencies == VisiblePairs(info, order)
    {
      var keys := RangeOrder(info.Keys);
      order := keys;
      currencies := map[];
      for i := 0 to |keys|
        invariant currencies == VisiblePairs(info, keys[..i])
      {
        assert keys[..i + 1][..i] == keys[..i];
        var currency := keys[i];
        if info[currency].hidden == 0 {
          var p := NamePair(currency);
          currencies := currencies[ExchangeKey(p) := CurrencyPairInfo(p, "", "")];
        }
      }
      assert keys[..|keys|] == keys;
    }

    /** GetAvailablePairs: the kept names in upper case, in the map's order. */
    method GetAvailablePairs(nonHidden: bool) returns (pairs: seq<string>, ghost order: seq<string>)
      ensures Distinct(order) && forall c :: c in info <==> c in order
      ensures pairs == AvailableOf(info, order, nonHidden)
    {
      var keys := RangeOrder(info.Keys);
      order := keys;
      pairs := [];
      for i := 0 to |keys|
        invariant pairs == AvailableOf(info, keys[..i], nonHidden)
      {
        assert keys[..i + 1][..i] == keys[..i];
        var x := keys[i];
        if (nonHidden && info[x].hidden == 1) || x == "" {
          continue;
        }
        pairs := pairs + [Upper(x)];
      }
      assert keys[..|keys|] == keys;
    }

    /**
     * SendAuthenticatedHTTPRequest's form: the nonce (seconds) is stepped,
     * nonce and method are set, and the encoded form is signed with the secret.
     */
    method SignedRequest(apiMethod: string, values: map<string, string>, now: int,
                         encode: map<string, string> -> string, sign: (string, string) -> string)
      returns (r: Result<SignedPost, Error>)
      modifies nonce
      ensures !authenticated ==> r == Err(NoCredentials(ExchangeName)) && nonce.value == old(nonce.value)
      ensures authenticated ==> nonce.value == NextNonce(old(nonce.value), now)
      ensures authenticated ==>
                var encoded := encode(values["nonce" := FormatInt(nonce.value)]["method" := apiMethod]);
                r == Ok(SignedPost(encoded, apiKey, sign(encoded, apiSecret)))
    {
      if !authenticated {
        return Err(NoCredentials(ExchangeName));
      }
      var n := nonce.Advance(now);
      var form := values["nonce" := FormatInt(n)];
      form := form["method" := apiMethod];
      var encoded := encode(form);
      r := Ok(SignedPost(encoded, apiKey, sign(encoded, apiSecret)));
    }
  }
}
