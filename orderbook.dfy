/**
 * The order-book store: whole snapshots (bids, asks and the time they were
 * taken) kept under first currency, second currency and market type, plus the
 * totals over one side of a snapshot and the row copy every adapter uses to
 * turn an exchange's book rows into items.
 */
module Orderbook {
  import opened Wrappers
  import opened Pairs
  import opened Exchange

  const ErrPrimaryCurrencyNotFound: string := "Error primary currency for orderbook not found."
  const ErrSecondaryCurrencyNotFound: string := "Error secondary currency for orderbook not found."
  const Spot: string := "SPOT"

  datatype Item = Item(amount: real, price: real)

  /** orderbook.Base; `lastUpdated` is the clock reading of the store operation. */
  datatype Base = Base(pair: Pair, currencyPair: string, bids: seq<Item>, asks: seq<Item>, lastUpdated: int)

  /** The zero value Base{}. */
  const EmptyBase: Base := Base(NoPair, "", [], [], 0)

  /** Sum of the amounts of a side. */
  function SumAmount(items: seq<Item>): real
  {
    if items == [] then 0.0 else SumAmount(items[..|items| - 1]) + items[|items| - 1].amount
  }

  /** Sum of amount times price over a side. */
  function SumValue(items: seq<Item>): real
  {
    if items == [] then 0.0
    else SumValue(items[..|items| - 1]) + items[|items| - 1].amount * items[|items| - 1].price
  }

  /** Totals over two consecutive runs of rows add up. */
  lemma {:induction false} SumsAppend(a: seq<Item>, b: seq<Item>)
    ensures SumAmount(a + b) == SumAmount(a) + SumAmount(b)
    ensures SumValue(a + b) == SumValue(a) + SumValue(b)
    decreases |b|
  {
    if b == [] {
      assert a + b == a;
    } else {
      assert (a + b)[..|a + b| - 1] == a + b[..|b| - 1];
      assert (a + b)[|a + b| - 1] == b[|b| - 1];
      SumsAppend(a, b[..|b| - 1]);
    }
  }

  /** A side whose rows all have non-negative amounts and prices has non-negative totals. */
  lemma {:induction false} SumsNonNegative(items: seq<Item>)
    requires forall i :: 0 <= i < |items| ==> items[i].amount >= 0.0 && items[i].price >= 0.0
    ensures SumAmount(items) >= 0.0 && SumValue(items) >= 0.0
    decreases |items|
  {
    if items != [] {
      SumsNonNegative(items[..|items| - 1]);
    }
  }

  /** The accumulation loop of CalculateTotalBids and CalculateTotalAsks over one side. */
  method Totals(items: seq<Item>) returns (amount: real, total: real)
    ensures amount == SumAmount(items) && total == SumValue(items)
  {
    amount, total := 0.0, 0.0;
    var i := 0;
    while i < |items|
      invariant 0 <= i <= |items|
      invariant amount == SumAmount(items[..i]) && total == SumValue(items[..i])
    {
      assert items[..i + 1][..i] == items[..i];
      amount := amount + items[i].amount;
      total := total + items[i].amount * items[i].price;
      i := i + 1;
    }
    assert items[..i] == items;
  }

  /** CalculateTotalBids: (sum of amounts, sum of amount times price) over the bids. */
  method CalculateTotalBids(b: Base) returns (amount: real, total: real)
    ensures amount == SumAmount(b.bids) && total == SumValue(b.bids)
  {
    amount, total := Totals(b.bids);
  }

  /** CalculateTotalAsks: (sum of amounts, sum of amount times price) over the asks. */
  method CalculateTotalAsks(b: Base) returns (amount: real, total: real)
    ensures amount == SumAmount(b.asks) && total == SumValue(b.asks)
  {
    amount, total := Totals(b.asks);
  }

  /** Base.Update: new bids and asks, stamped with the clock; the pair fields stay. */
  function Update(b: Base, bids: seq<Item>, asks: seq<Item>, now: int): (r: Base)
    ensures r.pair == b.pair && r.currencyPair == b.currencyPair
    ensures r.bids == bids && r.asks == asks && r.lastUpdated == now
  {
    b.(bids := bids, asks := asks, lastUpdated := now)
  }

  /** After Update, the totals are those of the new sides, whatever the book held before. */
  lemma UpdateTotals(b: Base, bids: seq<Item>, asks: seq<Item>, now: int)
    ensures SumAmount(Update(b, bids, asks, now).bids) == SumAmount(bids)
    ensures SumValue(Update(b, bids, asks, now).asks) == SumValue(asks)
    ensures Update(Update(b, bids, asks, now), bids, asks, now) == Update(b, bids, asks, now)
  {
  }

  /**
   * The adapters' `append(items, orderbook.Item{Price: row.Price, Amount: row.Amount})`
   * loops: one item per row, in order, taking the amount and price the
   * exchange row reports.
   */
  method CopyRows<R>(rows: seq<R>, amountOf: R -> real, priceOf: R -> real) returns (items: seq<Item>)
    ensures |items| == |rows|
    ensures forall i :: 0 <= i < |rows| ==> items[i] == Item(amountOf(rows[i]), priceOf(rows[i]))
    ensures items == Rows(rows, amountOf, priceOf)
  {
    items := [];
    var i := 0;
    while i < |rows|
      invariant 0 <= i <= |rows|
      invariant |items| == i
      invariant forall k :: 0 <= k < i ==> items[k] == Item(amountOf(rows[k]), priceOf(rows[k]))
    {
      items := items + [Item(amountOf(rows[i]), priceOf(rows[i]))];
      i := i + 1;
    }
  }

  /** The rows of an exchange book as order-book items, in order. */
  function Rows<R>(rows: seq<R>, amountOf: R -> real, priceOf: R -> real): (items: seq<Item>)
    ensures |items| == |rows|
    ensures forall i :: 0 <= i < |rows| ==> items[i] == Item(amountOf(rows[i]), priceOf(rows[i]))
    decreases |rows|
  {
    if rows == [] then [] else [Item(amountOf(rows[0]), priceOf(rows[0]))] + Rows(rows[1..], amountOf, priceOf)
  }

  /** The store's contents: first currency, then second currency, then market type. */
  type Books = map<string, map<string, map<string, Base>>>

  /** The snapshot stored in one slot, if any. */
  function Slot(books: Books, first: string, second: string, kind: string): Option<Base>
  {
    if first in books && second in books[first] && kind in books[first][second]
    then Some(books[first][second][kind]) else None
  }

  /**
   * GetOrderbook: an unknown first currency and an unknown second currency are
   * distinct errors; a known pair answers with the stored snapshot of that
   * type, or with the zero Base when no snapshot of that type is stored.
   */
  function Get(books: Books, p: Pair, kind: string): (r: Result<Base, Error>)
    ensures p.first !in books <==> r == Err(Message(ErrPrimaryCurrencyNotFound))
    ensures p.first in books && p.second !in books[p.first] <==>
              r == Err(Message(ErrSecondaryCurrencyNotFound + "-" + p.first + "-" + p.second))
    ensures r.Ok? ==> r.value == (match Slot(books, p.first, p.second, kind)
                                    case Some(b) => b
                                    case None => EmptyBase)
  {
    if p.first !in books then Err(Message(ErrPrimaryCurrencyNotFound))
    else if p.second !in books[p.first] then
      Err(Message(ErrSecondaryCurrencyNotFound + "-" + p.first + "-" + p.second))
    else if kind in books[p.first][p.second] then Ok(books[p.first][p.second][kind])
    else Ok(EmptyBase)
  }

  /**
   * ProcessOrderbook's update of the store: the snapshot goes into its
   * (first, second, type) slot, creating the inner maps it needs; every other
   * slot keeps its snapshot or its absence.
   */
  function Put(books: Books, p: Pair, kind: string, b: Base): (r: Books)
    ensures Slot(r, p.first, p.second, kind) == Some(b)
    ensures forall f, s, k :: (f, s, k) != (p.first, p.second, kind) ==> Slot(r, f, s, k) == Slot(books, f, s, k)
  {
    if p.first in books then
      if p.second in books[p.first] then
        books[p.first := books[p.first][p.second := books[p.first][p.second][kind := b]]]
      else
        books[p.first := books[p.first][p.second := map[kind := b]]]
    else
      books[p.first := map[p.second := map[kind := b]]]
  }

  /** A put followed by a get of the same pair and type answers with the snapshot put. */
  lemma GetAfterPut(books: Books, p: Pair, kind: string, b: Base)
    ensures Get(Put(books, p, kind, b), p, kind) == Ok(b)
  {
  }

  /** A put never makes a known pair unknown: a get that succeeded before still succeeds. */
  lemma PutKeepsKnownPairs(books: Books, p: Pair, kind: string, b: Base, q: Pair, k: string)
    requires Get(books, q, k).Ok?
    ensures Get(Put(books, p, kind, b), q, k).Ok?
  {
  }

  /** An empty store knows no first currency. */
  lemma EmptyStoreFails(p: Pair, kind: string)
    ensures Get(map[], p, kind) == Err(Message(ErrPrimaryCurrencyNotFound))
  {
  }

  /** The snapshot ProcessOrderbook stores: the caller's book, renamed and stamped. */
  function Stamped(p: Pair, b: Base, now: int): (r: Base)
    ensures r.currencyPair == PairText(p) && r.lastUpdated == now
    ensures r.pair == b.pair && r.bids == b.bids && r.asks == b.asks
  {
    b.(currencyPair := PairText(p), lastUpdated := now)
  }

  /** Orderbooks: one store per exchange, updated in place by the adapters. */
  class Orderbooks {
    var books: Books

    /** Init: an empty store. */
    constructor Init()
      ensures books == map[]
    {
      books := map[];
    }

    /** FirstCurrencyExists: exactly when no get of a pair with this first currency fails for it. */
    predicate FirstCurrencyExists(currency: string)
      reads this
      ensures FirstCurrencyExists(currency) ==>
                forall s, k :: Get(books, Pair(currency, s), k) != Err(Message(ErrPrimaryCurrencyNotFound))
      ensures !FirstCurrencyExists(currency) ==>
                forall s, k :: Get(books, Pair(currency, s), k) == Err(Message(ErrPrimaryCurrencyNotFound))
    {
      currency in books
    }

    /** SecondCurrencyExists: implies the first currency exists, and decides whether a get of the pair succeeds. */
    predicate SecondCurrencyExists(p: Pair)
      reads this
      ensures SecondCurrencyExists(p) ==> FirstCurrencyExists(p.first)
      ensures SecondCurrencyExists(p) ==> forall k :: Get(books, p, k).Ok?
      ensures !SecondCurrencyExists(p) ==> forall k :: Get(books, p, k).Err?
    {
      p.first in books && p.second in books[p.first]
    }

    /**
     * GetOrderbook: the primary error when the first currency is unknown, the
     * secondary error when only the second is, else the stored snapshot of
     * that type or the zero Base. The exchange name is not consulted.
     */
    function GetOrderbook(exchangeName: string, p: Pair, kind: string): (r: Result<Base, Error>)
      reads this
      ensures !FirstCurrencyExists(p.first) <==> r == Err(Message(ErrPrimaryCurrencyNotFound))
      ensures FirstCurrencyExists(p.first) && !SecondCurrencyExists(p) <==>
                r == Err(Message(ErrSecondaryCurrencyNotFound + "-" + p.first + "-" + p.second))
      ensures SecondCurrencyExists(p) ==>
                r == Ok(match Slot(books, p.first, p.second, kind) case Some(b) => b case None => EmptyBase)
    {
      Get(books, p, kind)
    }

    /**
     * ProcessOrderbook: the snapshot, with CurrencyPair set from the pair and
     * LastUpdated from the clock, replaces whatever was in its slot. The
     * exchange name is not consulted.
     */
    method ProcessOrderbook(exchangeName: string, p: Pair, b: Base, kind: string, now: int)
      modifies this
      ensures books == Put(old(books), p, kind, Stamped(p, b, now))
      ensures GetOrderbook(exchangeName, p, kind) == Ok(Stamped(p, b, now))
    {
      var nb := Stamped(p, b, now);
      if FirstCurrencyExists(p.first) {
        if !SecondCurrencyExists(p) {
          books := books[p.first := books[p.first][p.second := map[kind := nb]]];
        } else {
          books := books[p.first := books[p.first][p.second := books[p.first][p.second][kind := nb]]];
        }
      } else {
        books := books[p.first := map[p.second := map[kind := nb]]];
      }
      GetAfterPut(old(books), p, kind, nb);
    }
  }

  /**
   * The snapshot an adapter's UpdateOrderbook builds from a fetched book:
   * both sides copied row by row, every other field left at its zero value.
   */
  function Snapshot<R>(bids: seq<R>, asks: seq<R>, amountOf: R -> real, priceOf: R -> real): (b: Base)
    ensures b.bids == Rows(bids, amountOf, priceOf) && b.asks == Rows(asks, amountOf, priceOf)
    ensures b.pair == NoPair && b.currencyPair == "" && b.lastUpdated == 0
  {
    Base(NoPair, "", Rows(bids, amountOf, priceOf), Rows(asks, amountOf, priceOf), 0)
  }

  /**
   * The tail every UpdateOrderbook shares: copy the fetched rows, process the
   * snapshot into the store, and answer with what the store then holds.
   */
  method StoreSnapshot<R>(store: Orderbooks, exchangeName: string, p: Pair, kind: string,
                          bids: seq<R>, asks: seq<R>, amountOf: R -> real, priceOf: R -> real, now: int)
    returns (b: Base)
    modifies store
    ensures b == Stamped(p, Snapshot(bids, asks, amountOf, priceOf), now)
    ensures store.books == Put(old(store.books), p, kind, b)
  {
    var bidItems := CopyRows(bids, amountOf, priceOf);
    var askItems := CopyRows(asks, amountOf, priceOf);
    store.ProcessOrderbook(exchangeName, p, Base(NoPair, "", bidItems, askItems, 0), kind, now);
    var got := store.GetOrderbook(exchangeName, p, kind);
    b := got.value;
  }
}
