/**
 * Types and helpers shared by every adapter: the error values the adapters
 * return, the canonical order and account records, the limits an exchange
 * reports for a pair (ILimits and DefaultExchangeLimits), the rate-choice and
 * timestamp rules two normalisers share, and the request nonce.
 */
module Exchange {
  import opened Wrappers
  import opened Text
  import opened Pairs

  /** The error values of the adapters; `None` in an `Option<Error>` is Go's nil. */
  datatype Error =
    | RateLimitedWarning        // the soft warning exchange.WarningHTTPRequestRateLimited()
    | RateLimitExceeded         // Bitfinex errRateLimit, the exchange's "ERR_RATE_LIMIT"
    | Message(text: string)     // errors.New / fmt.Errorf with this text
    | ParseFailure(input: string) // the error strconv.ParseInt reports for this input
    | Panic(reason: string)     // a Go runtime panic (index out of range, not implemented)
    | NoCredentials(exchange: string) // WarningAuthenticatedRequestWithoutCredentialsSet for this exchange

  /** The canonical order status; `NoStatus` is the zero value a normaliser may leave. */
  datatype Status = NoStatus | Active | Filled | Aborted | Unknown

  const SideBuy: string := "buy"
  const SideSell: string := "sell"
  const TypeExchangeLimit: string := "exchange limit"
  /** The zero value of exchange.OrderSide and exchange.OrderType. */
  const Unset: string := ""

  /** exchange.Order, the canonical record every normaliser produces. */
  datatype Order = Order(
    orderID: string,
    status: Status,
    amount: real,
    filledAmount: real,
    remainingAmount: real,
    rate: real,
    createdAt: int,
    currencyPair: Pair,
    side: string,
    orderType: string)

  /** An order record with every field at its zero value. */
  const EmptyOrder: Order := Order("", NoStatus, 0.0, 0.0, 0.0, 0.0, 0, NoPair, Unset, Unset)

  /** The filled and remaining parts add up to the whole amount. */
  predicate Conserves(o: Order)
  {
    o.filledAmount + o.remainingAmount == o.amount
  }

  datatype AccountCurrencyInfo = AccountCurrencyInfo(
    currencyName: string, totalValue: real, hold: real, available: real)

  datatype AccountInfo = AccountInfo(exchangeName: string, currencies: seq<AccountCurrencyInfo>)

  /** exchange.CurrencyPairInfo: the pair a symbol stands for and the long names of its currencies. */
  datatype CurrencyPairInfo = CurrencyPairInfo(currency: Pair, firstCurrencyName: string, secondCurrencyName: string)

  /** What an ILimits implementation answers for one pair. */
  datatype Limits = Limits(
    priceDecimalPlaces: int, amountDecimalPlaces: int, minAmount: real, minTotal: real)

  /** The value ILimits reserves for "this number of decimal places is not defined". */
  const Undefined: int := -1

  /** Decimal places are a count of places or Undefined; minimums are never negative. */
  predicate WellFormed(l: Limits)
  {
    l.priceDecimalPlaces >= Undefined && l.amountDecimalPlaces >= Undefined
    && l.minAmount >= 0.0 && l.minTotal >= 0.0
  }

  /** DefaultExchangeLimits: the same defined limits whatever the pair. */
  function DefaultLimits(p: Pair): (r: Limits)
    ensures WellFormed(r)
    ensures r.priceDecimalPlaces == 8 && r.amountDecimalPlaces == 8
    ensures r.minAmount == 0.00000001 && r.minTotal == 0.0
  {
    Limits(8, 8, 0.00000001, 0.0)
  }

  /**
   * The rate rule of the Bitfinex and Kraken normalisers: an active order
   * reports its limit price; any other order reports its average execution
   * price unless that is zero.
   */
  function ChosenRate(status: Status, price: real, averagePrice: real): (r: real)
    ensures r == price || r == averagePrice
    ensures status != Active && averagePrice != 0.0 ==> r == averagePrice
    ensures status == Active || averagePrice == 0.0 ==> r == price
  {
    if status == Active then price
    else if averagePrice == 0.0 then price
    else averagePrice
  }

  /**
   * The seconds part of a "seconds.fraction" timestamp: strconv.ParseInt of the
   * text before the first '.', with ParseInt's value kept even when it reports
   * an error (0 for a syntax error, the nearest bound for an overflow).
   */
  function TimestampSeconds(ts: string): (r: int)
    ensures MinInt64 <= r <= MaxInt64
  {
    ParseInt(Before(ts, '.')).value
  }

  /** A timestamp written as an int64, a dot and any fraction gives back the int64. */
  lemma {:induction false} TimestampSecondsOfText(n: int, fraction: string)
    requires MinInt64 <= n <= MaxInt64
    ensures TimestampSeconds(FormatInt(n) + "." + fraction) == n
    ensures TimestampSeconds(FormatInt(n)) == n
  {
    var s := FormatInt(n);
    FormatIntChars(n, '.');
    IndexOfJoined(s, '.', fraction);
    assert (s + "." + fraction)[..|s|] == s;
    IndexOfAbsent(s, '.');
    assert s[..|s|] == s;
    ParseFormat(n);
  }

  /** A timestamp whose text before the first '.' is not a number gives 0. */
  lemma TimestampSecondsOfGarbage(ts: string)
    requires Before(ts, '.') == [] || !AllDigits(Before(ts, '.')[1..])
    ensures TimestampSeconds(ts) == 0
  {
  }

  /**
   * The nonce step before an authenticated request: a zero nonce is seeded
   * from the clock, any other nonce is incremented.
   */
  function NextNonce(current: int, now: int): (r: int)
    ensures current != 0 ==> r == current + 1
    ensures current == 0 ==> r == now
  {
    if current == 0 then now else current + 1
  }

  /** The nonces a run of authenticated requests uses, one clock reading per request. */
  function Nonces(current: int, clocks: seq<int>): (r: seq<int>)
    ensures |r| == |clocks|
    decreases |clocks|
  {
    if clocks == [] then []
    else
      var n := NextNonce(current, clocks[0]);
      [n] + Nonces(n, clocks[1..])
  }

  /** After a positive nonce the following requests count up by one. */
  lemma {:induction false} NoncesCountUp(current: int, clocks: seq<int>)
    requires current > 0
    ensures forall i :: 0 <= i < |clocks| ==> Nonces(current, clocks)[i] == current + i + 1
    decreases |clocks|
  {
    if clocks != [] {
      NoncesCountUp(current + 1, clocks[1..]);
    }
  }

  /**
   * Seeded once from a positive clock reading (or already positive), the
   * nonces of successive requests strictly increase, whatever the clock does later.
   */
  lemma NoncesIncrease(current: int, clocks: seq<int>)
    requires current >= 0
    requires current == 0 && |clocks| > 0 ==> clocks[0] > 0
    ensures forall i, j :: 0 <= i < j < |clocks| ==> Nonces(current, clocks)[i] < Nonces(current, clocks)[j]
  {
    if current > 0 {
      NoncesCountUp(current, clocks);
    } else if clocks != [] {
      var r := Nonces(current, clocks);
      NoncesCountUp(clocks[0], clocks[1..]);
      assert r[1..] == Nonces(clocks[0], clocks[1..]);
      assert forall i :: 0 <= i < |clocks| ==> r[i] == clocks[0] + i;
    }
  }

  /** The nonce an exchange keeps between authenticated requests. */
  class Nonce {
    var value: int

    constructor ()
      ensures value == 0
    {
      value := 0;
    }

    /** Nonce.Get() == 0 ? Nonce.Set(now) : Nonce.Inc(), then the value the request carries. */
    method Advance(now: int) returns (n: int)
      modifies this
      ensures value == NextNonce(old(value), now)
      ensures n == value
    {
      if value == 0 {
        value := now;
      } else {
        value := value + 1;
      }
      n := value;
    }
  }
}
