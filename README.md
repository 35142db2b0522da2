# Exchange adapters of cryptofiend, modelled in Dafny

cryptofiend is a trading bot. It talks to six exchanges through adapters: Bitfinex, Poloniex, Kraken, Bittrex, Liqui and Binance. Every adapter turns the exchange's own vocabulary into the bot's shared one:

- an exchange symbol becomes a currency pair, and a pair becomes a symbol again;
- an exchange's order record becomes the canonical order, with its status, amounts, rate, creation time, pair, side and type;
- the exchange's trading rules become the limits interface (price and amount decimal places, minimum amount, minimum total).

The adapters also share some machinery:

- building the symbol tables when an exchange starts;
- the nonce that every signed request carries;
- the reply envelopes that decide between a result and an error;
- Bitfinex's and Binance's request rate limiters;
- the account summaries;
- the order-book store every adapter writes its snapshots to.

The model keeps each Go file's shape:

- Pure conversions (codecs, limits, order normalisers, envelope checks) are Dafny functions.
- Every proved property is a lemma about those functions.
- Exchange objects whose fields the Go code updates are classes: the order-book store, the nonce and each adapter's exchange value. Their methods say how the fields change.
- The loops that build tables or collect orders are methods with loop invariants, proved against a reference function.
- A Go map's iteration order is left open. A ghost sequence records the order actually taken, so a loop over a map is proved correct for every order.

The modules are:

- `Wrappers`: Option and Result.
- `Text`: ASCII case mapping, split and join on one character, base-10 integer formatting and parsing in the int64 range, Go's `int32` conversion and its truncating division.
- `Pairs`: the currency-pair value.
- `Iteration`: an unspecified order over a map's keys.
- `Exchange`: the canonical order, account and limits types, the shared rate rule and timestamp truncation, and the nonce.
- `Orderbook`: the snapshot store.
- `Bitfinex`, `Poloniex`, `Kraken`, `Bittrex`, `Liqui`, `Binance`: one module per adapter.

Everything that leaves the process is a parameter of the model:

- the network replies, the JSON decoders and the clock;
- HMAC signing, URL encoding, float formatting and Go's `%#v` rendering of a decoded reply.

Amounts are exact `real`s. The shopspring decimal subtraction therefore becomes exact subtraction.

## Model

| member | source | states |
|---|---|---|
| Exchange.DefaultLimits | exchanges/exchange_limits.go:27-45 | every pair gets 8 price places, 8 amount places, minimum amount 0.00000001 and minimum total 0, which meets the ILimits conventions; Poloniex's GetLimits answers these defaults |
| Exchange.ChosenRate | exchanges/bitfinex/bitfinex.go:594-600 | an active order reports its price; any other order reports its average execution price unless that is 0, in which case it reports the price |
| Exchange.TimestampSecondsOfText | exchanges/bitfinex/bitfinex.go:602-608 | a timestamp written as an int64, optionally followed by "." and any fraction, gives back that int64 |
| Exchange.TimestampSecondsOfGarbage | exchanges/bitfinex/bitfinex.go:604-606 | a timestamp whose text before the first "." is empty, or has a non-digit after its first character, gives 0 |
| Exchange.TimestampSeconds | exchanges/bitfinex/bitfinex.go:602-608 | the seconds before the first "." always lie in the int64 range, whatever the text |
| Exchange.NextNonce | exchanges/bitfinex/bitfinex.go:827-831 | a zero nonce is seeded from the clock; any other nonce is incremented by one |
| Exchange.NoncesCountUp | exchanges/bitfinex/bitfinex.go:827-831 | after a positive nonce, successive requests carry nonce + 1, nonce + 2, and so on, whatever the clock reads |
| Exchange.NoncesIncrease | exchanges/liqui/liqui.go:384-388 | from a non-negative nonce, with a zero nonce seeded from a positive clock reading, the nonces of successive requests strictly increase |
| Exchange.Nonce.Advance | exchanges/poloniex/poloniex.go:933-937 | the stored nonce becomes the next nonce of the old value and the clock, and that is the value the request carries |
| Iteration.RangeOrder | exchanges/liqui/liqui.go:139 | a map's keys are visited each exactly once, in an unspecified order |
| Pairs.SplitDisplay | exchanges/bittrex/bittrex.go:126-129 | splitting a displayed pair at a non-letter delimiter that neither currency contains gives back the pair, in the display's case |
| Pairs.DisplaySplit | exchanges/bittrex/bittrex.go:117-129 | a symbol with exactly one delimiter is the display of the pair split from it, in the display's case |
| Pairs.DisplayInjective | exchanges/bittrex/bittrex.go:117-121 | two delimiter-free pairs with the same display are the same pair, up to case |
| Pairs.InvertEachTwice | exchanges/bittrex/bittrex_wrapper.go:164-185 | inverting every pair of a list twice restores the list |
| Pairs.InvertAll | exchanges/bittrex/bittrex_wrapper.go:169-171 | the in-place loop leaves every slot of the array holding its old pair, inverted |
| Text.ToInt32 | exchanges/bitfinex/bitfinex.go:179 | int32(n) lies in the 32-bit range, differs from n by a multiple of 2^32, and is n itself when n already fits |
| Text.Quo | exchanges/binance/binance_wrapper.go:192 | Go's division by a positive divisor truncates toward zero: the remainder has the dividend's sign and is smaller than the divisor |
| Text.SplitJoin | exchanges/kraken/kraken.go:851 | joining parts that do not contain the separator and splitting the result again gives the parts back |
| Text.ParseFormat | exchanges/bitfinex/bitfinex.go:567 | formatting an int64 in base 10 and parsing the text back gives the same value with no error |
| Text.ParseInt | exchanges/bitfinex/bitfinex.go:606 | the parsed value always lies in the int64 range; a syntax error (after an optional sign, no digits or a non-digit) is exactly the case that gives 0 with an error; any other error is a value out of range, answered with the nearest int64 bound |
| Orderbook.SumsAppend | exchanges/orderbook/orderbook.go:23-31 | the amount and value totals of two runs of rows, one after the other, add up |
| Orderbook.SumsNonNegative | exchanges/orderbook/orderbook.go:23-43 | a side whose rows all have non-negative amounts and prices has non-negative totals |
| Orderbook.Totals | exchanges/orderbook/orderbook.go:24-30 | the accumulation loop returns the sum of the amounts and the sum of amount × price over the side |
| Orderbook.CalculateTotalBids | exchanges/orderbook/orderbook.go:23-31 | returns (Σ amount, Σ amount × price) over the bids |
| Orderbook.CalculateTotalAsks | exchanges/orderbook/orderbook.go:35-43 | returns (Σ amount, Σ amount × price) over the asks |
| Orderbook.Update | exchanges/orderbook/orderbook.go:46-50 | the bids, asks and timestamp are replaced; the pair fields stay as they were |
| Orderbook.UpdateTotals | exchanges/orderbook/orderbook.go:46-50 | a corollary of Update's contract: after an update the totals are those of the new sides, and repeating the same update changes nothing |
| Orderbook.CopyRows | exchanges/bittrex/bittrex_wrapper.go:147-155 | the append loop yields one item per exchange row, in order, with that row's amount and price |
| Orderbook.Rows | exchanges/poloniex/poloniex_wrapper.go:94-102 | one item per row, in order, each with the row's amount and price |
| Orderbook.Get | exchanges/orderbook/orderbook.go:75-89 | an unknown first currency gives ErrPrimaryCurrencyNotFound; a known first but unknown second currency gives the secondary error with both currencies appended; otherwise the result is the slot's snapshot, or the zero Base when that market type has none |
| Orderbook.Put | exchanges/orderbook/orderbook.go:120-136 | the (first, second, type) slot holds the new snapshot afterwards, and every other slot keeps its snapshot, or its absence |
| Orderbook.GetAfterPut | exchanges/orderbook/orderbook.go:88-136 | a get of the pair and type just put answers with the snapshot put |
| Orderbook.PutKeepsKnownPairs | exchanges/orderbook/orderbook.go:120-136 | a put never makes a known pair unknown: a get that succeeded before still succeeds |
| Orderbook.EmptyStoreFails | exchanges/orderbook/orderbook.go:140-145 | on the empty store every get fails with ErrPrimaryCurrencyNotFound |
| Orderbook.Stamped | exchanges/orderbook/orderbook.go:117-118 | the stored snapshot has CurrencyPair set from the pair and LastUpdated set to the clock; its sides and pair are the caller's |
| Orderbook.Orderbooks.Init | exchanges/orderbook/orderbook.go:140-145 | Init yields an empty store |
| Orderbook.Orderbooks.FirstCurrencyExists | exchanges/orderbook/orderbook.go:93-98 | true exactly when a get of any pair with that first currency gets past the primary-currency check |
| Orderbook.Orderbooks.SecondCurrencyExists | exchanges/orderbook/orderbook.go:102-109 | implies the first currency exists, and is true exactly when a get of the pair succeeds, for every type |
| Orderbook.Orderbooks.GetOrderbook | exchanges/orderbook/orderbook.go:75-89 | the primary error exactly when the first currency is unknown; the secondary error with both currencies appended exactly when only the second is unknown; otherwise the slot's snapshot, or the zero Base when that type has none |
| Orderbook.Orderbooks.ProcessOrderbook | exchanges/orderbook/orderbook.go:113-137 | the store becomes the old store with the stamped snapshot put in its slot, and a get of that slot answers with it; the exchange name is not consulted |
| Orderbook.Snapshot | exchanges/bitfinex/bitfinex_wrapper.go:95-111 | the book built from a fetch holds both sides copied row by row; every other field is left at its zero value |
| Orderbook.StoreSnapshot | exchanges/bitfinex/bitfinex_wrapper.go:105-114 | copies the rows, processes the snapshot into the store and answers with the stamped snapshot that the store now holds in that slot |
| Bitfinex.SymbolToCurrencyPair | exchanges/bitfinex/bitfinex.go:156-162 | a symbol whose length is not 6 is an error, "symbol S is longer than expected"; any other symbol splits at index 3 into two upper-case three-character codes |
| Bitfinex.CurrencyPairToSymbol | exchanges/bitfinex/bitfinex.go:149-153 | the symbol is the upper-cased first currency followed by the upper-cased second, with no delimiter |
| Bitfinex.SymbolRoundTrip | exchanges/bitfinex/bitfinex.go:149-162 | for two upper-case three-letter codes, converting the pair to a symbol and back gives the same pair |
| Bitfinex.PairRoundTrip | exchanges/bitfinex/bitfinex.go:149-162 | converting a six-character symbol to a pair and back gives the symbol in upper case |
| Bitfinex.PriceDecimalPlacesAsWritten | exchanges/bitfinex/bitfinex.go:176-182 | a pair listed under its "first/second" key answers int32 of its price precision; an unknown pair answers 0 |
| Bitfinex.AsWrittenUnknownPairIsDefined | exchanges/bitfinex/bitfinex.go:181 | with no details at all the as-written answer is 0, not the Undefined value −1 |
| Bitfinex.PriceDecimalPlaces | exchanges/exchange_limits.go:8-10 | a listed pair answers int32 of its price precision; an unknown pair answers Undefined (−1) |
| Bitfinex.CurrencyLimits | exchanges/bitfinex/bitfinex.go:176-204 | price places come from the pair's details, amount places are always 8, the minimum amount is the details' minimum order size (else 0), and the minimum total is 0 |
| Bitfinex.CurrencyLimitsWellFormed | exchanges/bitfinex/bitfinex.go:176-204 | with sane details the limits honour the ILimits conventions, and an unknown pair's price places are Undefined |
| Bitfinex.Bitfinex.GetLimits | exchanges/bitfinex/bitfinex.go:206-209 | the limits of the symbol details Run stored; a pair without details answers the corrected Undefined price places (see Findings) and minimum amount 0 |
| Bitfinex.ConvertOrder | exchanges/bitfinex/bitfinex.go:578-615 | cancelled gives aborted even when live; otherwise live gives active, and anything else gives filled. The amounts are copied unchanged, the rate follows the shared rate rule, CreatedAt is the seconds before the first ".", and the pair is the converted symbol or the zero pair |
| Bitfinex.ConvertOrderRecovers | exchanges/bitfinex/bitfinex.go:580-610 | an order made from a pair of three-letter codes, with a "seconds.fraction" timestamp, converts back to that pair and those seconds; its canonical ID parses back to the exchange's ID |
| Bitfinex.GetOrder | exchanges/bitfinex/bitfinex.go:566-576 | an ID that is not an int64 gives the parse error; otherwise a status error is returned; otherwise the normalised order is returned |
| Bitfinex.GetOrderOfConverted | exchanges/bitfinex/bitfinex.go:566-580 | looking up a canonical order by its own ID finds the normalised order it came from |
| Bitfinex.ConvertAll | exchanges/bitfinex/bitfinex.go:639-643 | one converted order per exchange order, in order |
| Bitfinex.ConvertOrders | exchanges/bitfinex/bitfinex.go:639-643 | the append loop returns exactly the orders converted one by one, in order |
| Bitfinex.Truncate | exchanges/bitfinex/bitfinex.go:968 | int(float64) truncates toward zero |
| Bitfinex.ClassifyV2 | exchanges/bitfinex/bitfinex.go:942-972 | 2xx replies decode, or give the status code with the unmarshal error; 429 gives code 0 with the rate-limit error; a non-zero code always comes with an error; any other status with a body that is not an array (or null) gives (0, nil); an array (or null) that fails one of the four triple checks gives code 0 and the text of the first failed check followed by the `%#v` rendering of the array |
| Bitfinex.ErrorTriple | exchanges/bitfinex/bitfinex.go:949-968 | a well-formed ["error", code, message] array yields that code and message, whatever follows |
| Bitfinex.MalformedTriple | exchanges/bitfinex/bitfinex.go:951-966 | an array that is not an error triple yields code 0 and an error whose text names the first check it fails and ends with the rendered array |
| Bitfinex.FirstFault | exchanges/bitfinex/bitfinex.go:951-966 | the index of the first failed triple check, and 4 exactly when the array is an ["error", number, string] triple |
| Bitfinex.FaultTextsDistinct | exchanges/bitfinex/bitfinex.go:951-966 | the four malformed-reply texts differ from each other, so the error says which check failed |
| Bitfinex.ClassifyV1AsWritten | exchanges/bitfinex/bitfinex.go:870-896 | a non-empty ErrorCapture message is returned; an "error" of ERR_RATE_LIMIT, or status 429, gives the rate-limit error; any other non-empty "error" gives an error with empty text. The result is nil exactly when nothing reports an error and the body decodes |
| Bitfinex.ClassifyV1 | exchanges/bitfinex/bitfinex.go:870-896 | the same checks with the "error" field's own text reported, so no error ever comes back with empty text |
| Bitfinex.AsWrittenDropsErrorText | exchanges/bitfinex/bitfinex.go:884-885 | the body {"error": "Nonce is too small."} gives an empty error as written and the exchange's text when corrected; the two versions differ only in that branch |
| Bitfinex.Dispatch | exchanges/bitfinex/bitfinex.go:980-1033 | a skip (ban younger than 60000 ms, or the same method+path succeeded less than 60000/rpm ms ago) changes nothing and returns the fallback with the warning. A rate-limit reply starts the ban and returns the fallback. Any other error leaves the state alone. Success clears the ban and updates only this key's timestamp |
| Bitfinex.BanSkipsEverything | exchanges/bitfinex/bitfinex.go:985-990 | within a minute of a rate-limit answer every call, to any endpoint, is skipped, and the state stays as it is |
| Bitfinex.CallAfterBanIsSent | exchanges/bitfinex/bitfinex.go:986-1001 | once the ban window has passed, a call to an endpoint idle for long enough is sent |
| Bitfinex.SuccessSpacesCalls | exchanges/bitfinex/bitfinex.go:983-1011 | right after a success, a call to the same endpoint earlier than the request spacing is skipped and answers with the fallback |
| Bitfinex.SpacingScenario | exchanges/bitfinex/bitfinex.go:982-1033 | a worked example of the dispatcher: at 10 requests a minute, the first call succeeds, a call 500 ms later is skipped with the fallback, and a call 6000 ms after the first is sent |
| Bitfinex.WalletTotals | exchanges/bitfinex/bitfinex_wrapper.go:141-152 | for each currency, the on-hold sum plus the available sum is the total amount across its wallets |
| Bitfinex.AbsentCurrencySumsToZero | exchanges/bitfinex/bitfinex_wrapper.go:145-147 | a currency that no wallet holds sums to nothing |
| Bitfinex.AggregateWallets | exchanges/bitfinex/bitfinex_wrapper.go:137-153 | the accounts map has one entry per currency seen, holding the sum of (amount − available) and the sum of available over that currency's wallets |
| Bitfinex.AccountEntry | exchanges/bitfinex/bitfinex_wrapper.go:155-162 | TotalValue = Available + Hold |
| Bitfinex.AccountEntries | exchanges/bitfinex/bitfinex_wrapper.go:155-163 | one entry per currency of the map, each exactly once, in the map's order |
| Bitfinex.PairTableExact | exchanges/bitfinex/bitfinex_wrapper.go:40-49 | the pair table holds exactly the symbols that convert (length 6), each mapped to the pair it converts to |
| Bitfinex.LimitsAfterRun | exchanges/bitfinex/bitfinex_wrapper.go:45 | unless a later symbol converts to the same pair, a listed pair's limits are the details it was listed with, read under the same "first/second" key |
| Bitfinex.BuildTables | exchanges/bitfinex/bitfinex_wrapper.go:37-49 | every symbol goes to the product list in order; the two tables are the pair table and the details table of the fetched symbols |
| Bitfinex.Bitfinex.SendRateLimitedHTTPRequest | exchanges/bitfinex/bitfinex.go:980-1033 | the limiter state, result, error and sent flag are exactly the dispatcher's, where a request made without credentials answers the no-credentials error; the nonce is stepped exactly when a request is sent with credentials; the switches, tables and both caches are unchanged |
| Bitfinex.Bitfinex.GetAccountBalance | exchanges/bitfinex/bitfinex.go:373-381 | 12 requests a minute with the cached balances as fallback; the limiter, result, error and nonce follow the dispatcher; the balance cache is replaced only when the error is nil; the order cache, switches and tables are unchanged |
| Bitfinex.Bitfinex.GetActiveOrders | exchanges/bitfinex/bitfinex.go:618-627 | 10 requests a minute with the cached orders as fallback; the limiter, result, error and nonce follow the dispatcher; the order cache is replaced only when the error is nil; the balance cache, switches and tables are unchanged |
| Bitfinex.Bitfinex.GetOrders | exchanges/bitfinex/bitfinex.go:629-646 | the rate-limit warning is soft, so the converted (possibly stale) orders come back with it; any other error returns no orders; the limiter and nonce follow the dispatcher, the order cache holds the fetched orders exactly when the error is nil and is otherwise kept, and the balance cache, switches and tables are unchanged |
| Bitfinex.Bitfinex.AuthenticatedPayload | exchanges/bitfinex/bitfinex.go:822-841 | without credentials nothing changes and the no-credentials error is returned; otherwise the nonce is stepped and the body holds "/v1/" + path, the nonce, and the caller's parameters merged over them |
| Bitfinex.Bitfinex.Run | exchanges/bitfinex/bitfinex_wrapper.go:32-50 | a failed fetch changes nothing; otherwise the tables are the pair table and the details table, and the available list is every symbol in order, converted or not; the switches, limiter state and caches are never touched |
| Bitfinex.Bitfinex.UpdateOrderbook | exchanges/bitfinex/bitfinex_wrapper.go:94-115 | a fetch error returns the zero book and leaves the store alone; otherwise both sides are copied in order, stored under (pair, asset type), and the stored snapshot is returned |
| Bitfinex.BookOf | exchanges/bitfinex/bitfinex_wrapper.go:94-111 | the snapshot built from a fetched book holds one bid per bid row and one ask per ask row, in order, with the row's amount and price; its pair, pair text and time are the zero values |
| Bitfinex.Bitfinex.GetOrderbookEx | exchanges/bitfinex/bitfinex_wrapper.go:85-91 | a store without the pair answers with the zero book and no error; a store with it refetches: a successful fetch is stored and returned, a failed one returns the zero book with the fetch error and leaves the store alone |
| Bitfinex.Bitfinex.GetExchangeAccountInfo | exchanges/bitfinex/bitfinex_wrapper.go:119-166 | the balance call's error, the warning included, comes back first; a disabled exchange gives its name only; otherwise one upper-cased entry per distinct currency, summed over its wallets. The limiter and nonce follow the dispatcher, the balance cache holds the fetched balances exactly when the error is nil and is otherwise kept, and the order cache, switches and tables are unchanged |
| Poloniex.CurrencyPairToSymbol | exchanges/poloniex/poloniex.go:99-105 | the symbol of (first, second) is SECOND_FIRST in upper case |
| Poloniex.SymbolToCurrencyPair | exchanges/poloniex/poloniex.go:108-112 | the text before the first "_" is the second currency and the text after it, up to any further "_", the first; neither holds "_" |
| Poloniex.SymbolRoundTrip | exchanges/poloniex/poloniex.go:99-112 | for currencies without "_", converting the pair to a symbol and back gives the pair in upper case |
| Poloniex.PairRoundTrip | exchanges/poloniex/poloniex.go:99-112 | a "quote_base" symbol converts to a pair and back to itself, in upper case |
| Poloniex.ConvertOrder | exchanges/poloniex/poloniex.go:521-539 | every listed order is active; FilledAmount = Total and Remaining = Amount − Total, so the parts add up; Amount, Rate and Date pass through; the pair is the inverted symbol and the side is the order's type word |
| Poloniex.ConvertOrderRecovers | exchanges/poloniex/poloniex.go:523-535 | the canonical ID parses back to the order number, and the pair is the one the market's symbol was made from |
| Poloniex.ConvertMarket | exchanges/poloniex/poloniex.go:550-553 | one converted order per order of the market, each converted with the market's symbol |
| Poloniex.ConvertMarketsStep | exchanges/poloniex/poloniex.go:549-554 | one more market appends exactly its converted orders |
| Poloniex.ConvertMarketsCounts | exchanges/poloniex/poloniex.go:549-554 | exactly one converted order per listed order, and each is active with its parts adding up |
| Poloniex.AppendMarket | exchanges/poloniex/poloniex.go:550-553 | the inner loop appends the market's converted orders to what came before |
| Poloniex.GetOrders | exchanges/poloniex/poloniex.go:541-556 | a fetch error returns no orders and the error; otherwise the orders of every market, converted with their own market's symbol, market by market |
| Poloniex.TradesOrder | exchanges/poloniex/poloniex.go:508-517 | the order is aborted, its filled amount is the sum of the trades' totals, and its pair and side come from the first trade (the zero values when there are none) |
| Poloniex.GetOrderAsWritten | exchanges/poloniex/poloniex.go:480-519 | as written, the rate is the first trade's rate divided by the number of trades, and 0 when there are none |
| Poloniex.AsWrittenRateIsNotTheAverage | exchanges/poloniex/poloniex.go:493-506 | two trades both at rate 1.0 report the rate 0.5 as written |
| Poloniex.MeanOfEqualRates | exchanges/poloniex/poloniex.go:502-506 | trades all made at one rate average to that rate |
| Poloniex.RateSumOfEqualRates | exchanges/poloniex/poloniex.go:493-500 | n trades at one rate sum to n times that rate |
| Poloniex.GetOrder | exchanges/poloniex/poloniex.go:480-519 | (corrected; see Findings) a fetch error is returned; otherwise the aborted order with the summed totals, the first trade's pair and side, and the mean rate of every trade |
| Poloniex.CheckSuccess | exchanges/poloniex/poloniex.go:597-613 | passes exactly when the request succeeds and Success is 1; any other Success is an error carrying the exchange's text |
| Poloniex.CheckTransfer | exchanges/poloniex/poloniex.go:703-713 | fails only when there is an error text and Success is not 1 |
| Poloniex.CheckWithdraw | exchanges/poloniex/poloniex.go:646-656 | fails exactly when there is an error text |
| Poloniex.TransferIsLenient | exchanges/poloniex/poloniex.go:709 | the transfer check accepts every reply that the cancel or withdraw check accepts, and also (0, ""), which the cancel check rejects |
| Poloniex.CancelNumber | exchanges/poloniex/poloniex.go:597-613 | asks for that order number to be cancelled; the error is nil exactly when the success check passes |
| Poloniex.CancelOrderAsWritten | exchanges/poloniex/poloniex.go:587-595 | as written, an ID that parses returns nil without requesting anything; an ID that does not parse cancels the number the failed parse left |
| Poloniex.AsWrittenCancelSkipsValidIDs | exchanges/poloniex/poloniex.go:590-593 | as written, "42" sends nothing and claims success, while "x" cancels order 0 |
| Poloniex.CancelOrder | exchanges/poloniex/poloniex.go:587-595 | (corrected; see Findings) a parse failure is returned with nothing requested; a valid ID is cancelled |
| Poloniex.CancelConvertedOrder | exchanges/poloniex/poloniex.go:523 | cancelling a listed order by its canonical ID asks the exchange to cancel exactly that order number |
| Poloniex.Poloniex.SignedRequest | exchanges/poloniex/poloniex.go:925-942 | without credentials nothing changes and the no-credentials error is returned; otherwise the nonce is stepped, the nonce and the command are set in the values, and the encoded form is signed |
| Poloniex.Poloniex.Run | exchanges/poloniex/poloniex_wrapper.go:30-40 | a failed ticker fetch leaves an empty table; otherwise each ticker symbol maps to its inverted pair |
| Poloniex.Poloniex.UpdateOrderbook | exchanges/poloniex/poloniex_wrapper.go:85-106 | requests the inverted symbol at depth 1000; a fetch error returns the zero book and leaves the store alone; otherwise both sides are copied in order, stored, and read back |
| Poloniex.BookOf | exchanges/poloniex/poloniex_wrapper.go:94-102 | one bid per bid row and one ask per ask row, in order, with the row's amount and price; the pair, pair text and time are the zero values |
| Poloniex.Poloniex.GetOrderbookEx | exchanges/poloniex/poloniex_wrapper.go:76-82 | a store without the pair answers with the zero book and no error; a store with it refetches: a successful fetch is stored and returned, a failed one returns the zero book with the fetch error and leaves the store alone |
| Poloniex.Poloniex.GetEnabledCurrencies | exchanges/poloniex/poloniex_wrapper.go:128-136 | the enabled pairs with each one inverted in place, so the length is kept |
| Poloniex.Poloniex.GetAvailableCurrencies | exchanges/poloniex/poloniex_wrapper.go:139-147 | the available pairs with each one inverted in place, so the length is kept |
| Poloniex.InvertedListsRoundTrip | exchanges/poloniex/poloniex_wrapper.go:128-147 | inverting the inverted lists gives back the configured pairs |
| Poloniex.BalanceEntry | exchanges/poloniex/poloniex_wrapper.go:119-122 | the currency and its balance as TotalValue; Hold and Available stay 0 |
| Poloniex.GetExchangeAccountInfo | exchanges/poloniex/poloniex_wrapper.go:110-125 | a fetch error gives the name only, with that error; otherwise one entry per currency of the balance map, each exactly once, in the map's order |
| Exchange.Nonce.constructor | exchanges/bitfinex/bitfinex.go:827 | a fresh nonce reads 0, so the first request seeds it from the clock |
| Bitfinex.Bitfinex.constructor | exchanges/bitfinex/bitfinex.go:105-121 | a disabled exchange with no credentials, no rate-limit history or ban, empty caches and tables, an empty order-book store and a zero nonce |
| Poloniex.Poloniex.constructor | exchanges/poloniex/poloniex.go:60-73 | an exchange with no credentials, no pairs, an empty order-book store and a zero nonce |
| Kraken.CurrencyPairToSymbol | exchanges/kraken/kraken.go:116-122 | the asset-pair name recorded under the pair's "FIRST/SECOND" code; an unrecorded code is an error naming it |
| Kraken.SymbolToCurrencyPair | exchanges/kraken/kraken.go:125-134 | the pair recorded for the asset-pair name, in the request format (upper case); an unknown name is an error naming it |
| Kraken.TableRoundTrip | exchanges/kraken/kraken.go:116-134 | with the tables Run builds, every listed pair converts to a symbol and back to itself, even when several asset pairs share its code |
| Kraken.CoherentCodes | exchanges/kraken/kraken_wrapper.go:62-65 | coherent tables record exactly the codes of the listed pairs |
| Kraken.TablesStep | exchanges/kraken/kraken_wrapper.go:46-65 | one more asset pair adds its table entry when it is retained, and changes nothing when it is a dark pool or has an unmapped asset |
| Kraken.CoherentStep | exchanges/kraken/kraken_wrapper.go:64-65 | recording a new asset pair under its code keeps the two tables coherent |
| Kraken.Kraken.AssetNameToCurrency | exchanges/kraken/kraken_wrapper.go:32-35 | the loop maps each asset name to its AltName |
| Kraken.Kraken.AddAssetPair | exchanges/kraken/kraken_wrapper.go:49-65 | the loop body keeps the tables equal to the table of the asset pairs handled so far, and coherent |
| Kraken.Kraken.BuildTables | exchanges/kraken/kraken_wrapper.go:43-66 | every asset pair's Altname goes into the products once, in the map's order, dark pools included; only retained pairs get entries, and the tables are coherent |
| Kraken.Kraken.Run | exchanges/kraken/kraken_wrapper.go:19-71 | if either fetch fails the tables and the available list are kept; otherwise the pairs table holds exactly the retained asset pairs, the code table their codes, and the available list every Altname |
| Kraken.CurrencyLimits | exchanges/kraken/kraken.go:168-190 | price places come from the table under "FIRST/SECOND", else −1; amount places are 8; the minimum amount is the upper-cased first currency's published minimum, else 0 |
| Kraken.CurrencyLimitsWellFormed | exchanges/kraken/kraken.go:168-190 | non-negative price places give well-formed limits, and the minimum does not depend on the case of the currency |
| Kraken.Kraken.GetLimits | exchanges/kraken/kraken.go:192-195 | the limits of the price table; a pair whose code is not in it answers Undefined price places |
| Kraken.BitcoinMinimum | exchanges/kraken/kraken.go:142-160 | a worked example of the minimum table: "xbt" needs 0.002 whatever its case; a currency without a published minimum needs 0 |
| Kraken.OrderStatus | exchanges/kraken/kraken.go:231-240 | pending and open mean active, canceled and expired mean aborted, closed means filled, each in both directions; anything else is an error naming the status |
| Kraken.ConvertOrder | exchanges/kraken/kraken.go:227-272 | the conversion succeeds exactly when the status is known and the type is "limit". Amount = Volume, Filled = VolumeExecuted, and the parts add up. The rate follows the shared rule, CreatedAt is the seconds before the first ".", an unknown asset pair gives the zero pair, and the side is copied |
| Kraken.ConvertOrderRecovers | exchanges/kraken/kraken.go:247-263 | an open limit order on a listed pair keeps that pair, its price as rate and the seconds of its open time |
| Kraken.ConvertOrders | exchanges/kraken/kraken.go:214-224 | the loop keeps exactly the orders that convert, each ID once, each entry equal to its conversion |
| Kraken.Kraken.GetOrders | exchanges/kraken/kraken.go:208-225 | a fetch error is returned with no orders; otherwise every convertible order, in the map's order, with a nil error |
| Kraken.AsWrittenErrorLosesType | exchanges/kraken/kraken.go:749 | as written, the error for an unsupported type prints "%!s(MISSING)", so a market order and a stop-loss order get the same text |
| Kraken.UnsupportedType | exchanges/kraken/kraken.go:749 | the corrected error names the unsupported type |
| Kraken.UnsupportedTypeNamesType | exchanges/kraken/kraken.go:749 | different order types give different corrected errors |
| Kraken.AddOrderValues | exchanges/kraken/kraken.go:741-756 | any type other than exchange limit is refused before anything is sent, with the corrected error that names the type (see Findings); otherwise the form holds exactly pair, type, ordertype=limit, price and volume, plus validate=true only when asked |
| Kraken.NewOrderParams | exchanges/kraken/kraken.go:281-289 | NewOrder always asks for validation only, with user reference 0 and the caller's order fields |
| Kraken.Kraken.NewOrder | exchanges/kraken/kraken.go:275-295 | an unmapped pair, or an unsupported type with the corrected error that names it (see Findings), sends nothing; otherwise a validate-only form is sent, and the first transaction ID of the reply is returned (an empty list is the index panic) |
| Kraken.Envelope | exchanges/kraken/kraken.go:850-853 | the raw result always comes back; the error is non-nil exactly when there are error texts, and it joins them with newlines |
| Kraken.EnvelopeKeepsErrors | exchanges/kraken/kraken.go:851 | single-line error texts can be split back out of the joined error |
| Kraken.HTTPRequestJSON | exchanges/kraken/kraken.go:839-854 | a failed call gives no result and its error; a reply goes through the envelope |
| Kraken.HTTPRequest | exchanges/kraken/kraken.go:857-863 | an envelope error is returned first; otherwise the raw result is decoded |
| Kraken.Kraken.SignedRequest | exchanges/kraken/kraken.go:790-810 | without credentials nothing changes and the no-credentials error comes back; otherwise the nonce is stepped, set in the form, the secret must decode, and the signature covers the private path, the nonce and the encoded form |
| Kraken.Kraken.constructor | exchanges/kraken/kraken.go:73-89 | an exchange with empty tables, no price places, an empty order-book store and a zero nonce |
| Kraken.Kraken.UpdateOrderbook | exchanges/kraken/kraken_wrapper.go:124-141 | a fetch error returns the zero book and leaves the store alone; otherwise both sides are copied in order, stored, and the stored snapshot is returned |
| Kraken.Kraken.GetOrderbookEx | exchanges/kraken/kraken_wrapper.go:115-121 | a store without the pair answers with the zero book and no error; a store with it refetches: a successful fetch is stored and returned, a failed one returns the zero book with the fetch error and leaves the store alone |
| Kraken.GetExchangeAccountInfo | exchanges/kraken/kraken_wrapper.go:145-149 | the exchange name and no currencies |
| Bittrex.CurrencyPairToSymbol | exchanges/bittrex/bittrex.go:116-122 | the symbol of (first, second) is SECOND-FIRST in upper case |
| Bittrex.SymbolToCurrencyPair | exchanges/bittrex/bittrex.go:125-130 | the text before the first "-" is the second currency and the text after it, up to any further "-", the first; neither holds "-" |
| Bittrex.SymbolRoundTrip | exchanges/bittrex/bittrex.go:116-130 | a pair whose codes hold no "-" converts to its symbol and back to the pair, in upper case |
| Bittrex.PairRoundTrip | exchanges/bittrex/bittrex.go:116-130 | a symbol "base-market" converts to a pair and back to itself, in upper case |
| Bittrex.CurrencyLimits | exchanges/bittrex/bittrex.go:144-163 | 8 price places and 8 amount places; the minimum amount is the table's entry under the lower-case "first/second" key, else 0; the minimum total is 0 |
| Bittrex.MinTradeKey | exchanges/bittrex/bittrex_wrapper.go:43 | the key is the lower-cased first currency, "/", and the lower-cased second currency |
| Bittrex.MinTradeKeyIgnoresCase | exchanges/bittrex/bittrex.go:158 | the limits key does not depend on the case the pair is written in |
| Bittrex.CurrencyLimitsWellFormed | exchanges/bittrex/bittrex.go:144-163 | with no negative sizes the limits are well-formed, and the same for a pair in any case |
| Bittrex.Bittrex.GetLimits | exchanges/bittrex/bittrex.go:165-168 | the limits of the minimum-trade table Run stored; every pair gets 8 price places and 8 amount places |
| Bittrex.OrderStatus | exchanges/bittrex/bittrex.go:315-323 | no close time means active; a closed order with something remaining is aborted, otherwise filled; each in both directions |
| Bittrex.OrderSide | exchanges/bittrex/bittrex.go:350-356 | LIMIT_BUY is a buy and LIMIT_SELL a sell, each in both directions; anything else leaves the side unset |
| Bittrex.ConvertOrder | exchanges/bittrex/bittrex.go:310-359 | the ID is the order's UUID; Filled = Quantity − QuantityRemaining so the parts add up; the rate is PricePerUnit when positive, else Limit; an unparsable open time gives 0; the pair is the inverted market name |
| Bittrex.ConvertOrderRecovers | exchanges/bittrex/bittrex.go:315-348 | an order on a pair's own market name converts back to that pair; a filled order has nothing remaining and an aborted one has something remaining |
| Bittrex.GetOrders | exchanges/bittrex/bittrex.go:381-393 | a fetch error gives no orders and the error; otherwise exactly one converted order per open order, in order |
| Bittrex.PlaceLimit | exchanges/bittrex/bittrex.go:255-281 | the form holds exactly market, quantity and rate, the amounts in the caller's float format |
| Bittrex.NewOrder | exchanges/bittrex/bittrex.go:361-379 | a buy goes to buylimit and a sell to selllimit, with the pair's symbol; any other side is refused, with an error naming it, before anything is sent |
| Bittrex.NewOrderNamesPair | exchanges/bittrex/bittrex.go:361-370 | the market a placed order names converts back to the pair it was placed for, and buylimit is used exactly for buys |
| Bittrex.HTTPRequestJSON | exchanges/bittrex/bittrex.go:562-577 | a failed call's error; a reply succeeds exactly when its envelope says so, giving its raw result; otherwise the envelope's message is the error |
| Bittrex.HTTPRequest | exchanges/bittrex/bittrex.go:580-586 | the envelope's error, or the decode of a successful result |
| Bittrex.UnsuccessfulReplyIsNotDecoded | exchanges/bittrex/bittrex.go:573-576 | a corollary of the envelope's contract, for the decoding caller: a reply that is not a success is never decoded, and its message is the error |
| Bittrex.GetOrderReply | exchanges/bittrex/bittrex.go:450-477 | errors of the request or the decode are returned; an order with a type keeps it; an order without one takes the "Type" field, and a failure to decode that field is returned |
| Bittrex.GetOrder | exchanges/bittrex/bittrex.go:301-308 | succeeds exactly when the fetch succeeds, and then gives the fetched order converted |
| Bittrex.FallbackTypeGivesSide | exchanges/bittrex/bittrex.go:464-475 | an order the getorder endpoint types only in "Type" as LIMIT_SELL still comes back as a sell |
| Bittrex.PairInfo | exchanges/bittrex/bittrex_wrapper.go:37-42 | a market's entry holds its inverted pair and the long names of its currencies |
| Bittrex.ActiveMarkets | exchanges/bittrex/bittrex_wrapper.go:50-56 | no more names than markets, and no empty name |
| Bittrex.PairTableExact | exchanges/bittrex/bittrex_wrapper.go:30-44 | every fetched market name is in the pair table, and every entry holds the pair its name splits into |
| Bittrex.LimitsAfterRun | exchanges/bittrex/bittrex_wrapper.go:43 | unless a later market uses the same key, the limits of a fetched market's pair report that market's minimum trade size |
| Bittrex.ActiveMarketsExact | exchanges/bittrex/bittrex_wrapper.go:51-56 | every active, named market is in the available list, and every name in it comes from such a market |
| Bittrex.BuildTables | exchanges/bittrex/bittrex_wrapper.go:30-44 | the loop leaves the pair table and the minimum-trade table of the fetched markets |
| Bittrex.ListActive | exchanges/bittrex/bittrex_wrapper.go:50-56 | the loop collects the names of the active, named markets in order |
| Bittrex.Bittrex.Run | exchanges/bittrex/bittrex_wrapper.go:20-72 | a failed fetch changes nothing; otherwise both tables are rebuilt, the available list becomes the active markets, and the enabled list is reset to USDT-BTC exactly when either old list had no "-" |
| Bittrex.Bittrex.SignedRequest | exchanges/bittrex/bittrex.go:523-541 | without credentials nothing changes and the no-credentials error comes back; otherwise the nonce is stepped, the key, secret and nonce are set in the form, and "path?form" is signed with the secret |
| Bittrex.Bittrex.constructor | exchanges/bittrex/bittrex.go:73-85 | an exchange with no credentials, empty tables and pair lists, an empty order-book store and a zero nonce |
| Bittrex.Bittrex.UpdateOrderbook | exchanges/bittrex/bittrex_wrapper.go:133-161 | the inverted symbol's book is fetched; an error returns the zero book and leaves the store alone; otherwise buy rows become bids and sell rows asks, stored and read back |
| Bittrex.BookOf | exchanges/bittrex/bittrex_wrapper.go:141-157 | one bid per buy row and one ask per sell row, in order, with quantity as amount and rate as price; the pair, pair text and time are the zero values |
| Bittrex.Bittrex.GetOrderbookEx | exchanges/bittrex/bittrex_wrapper.go:124-130 | a store without the pair answers with the zero book and no error; a store with it refetches: a successful fetch is stored and returned, a failed one returns the zero book with the fetch error and leaves the store alone |
| Bittrex.InvertedConfigIsSymbols | exchanges/bittrex/bittrex_wrapper.go:164-185 | the inverted configuration pairs are exactly what the codec makes of each configured symbol, and inverting them again restores the configuration |
| Bittrex.Bittrex.GetEnabledCurrencies | exchanges/bittrex/bittrex_wrapper.go:164-173 | the enabled pairs, each inverted in place |
| Bittrex.Bittrex.GetAvailableCurrencies | exchanges/bittrex/bittrex_wrapper.go:176-185 | the available pairs, each inverted in place |
| Bittrex.BalanceEntry | exchanges/bittrex/bittrex_wrapper.go:86-92 | the balance as the total and the available part copied; hold + available = total |
| Bittrex.GetExchangeAccountInfo | exchanges/bittrex/bittrex_wrapper.go:76-96 | a fetch error gives the name only, with that error; otherwise one entry per balance, in order |
| Liqui.ExchangeKey | exchanges/liqui/liqui.go:142-143 | the key is the lower-cased first currency, "_", and the lower-cased second currency |
| Liqui.KeyRoundTrip | exchanges/liqui/liqui.go:142-143 | a pair whose codes hold no "_" comes back from its request key, in lower case |
| Liqui.CurrencyLimits | exchanges/liqui/liqui.go:98-129 | a known pair answers int32 of its DecimalPlaces for both price and amount places, and its minimum amount; an unknown pair answers −1, −1 and 0; the minimum total is always 0 |
| Liqui.CurrencyLimitsWellFormed | exchanges/liqui/liqui.go:98-129 | with in-range decimal places and non-negative minimums the limits are well-formed, and the places are the pair's own |
| Liqui.DecimalPlacesWrap | exchanges/liqui/liqui.go:101 | a worked example of the int32 conversion: 2^32 + 8 places answers 8 |
| Liqui.Liqui.GetLimits | exchanges/liqui/liqui.go:131-134 | the limits of the pair information; a pair whose key is not in it answers −1, −1, 0 and 0 |
| Liqui.GetFee | exchanges/liqui/liqui.go:151-158 | the fee of the lower-cased pair name; a missing name gives "currency does not exist" |
| Liqui.GetFeeIgnoresCase | exchanges/liqui/liqui.go:152 | the fee does not depend on the case the name is written in |
| Liqui.VisiblePairsExact | exchanges/liqui/liqui.go:138-148 | every pair with Hidden == 0 is in the table, every entry is filed under its own pair's key, and every entry comes from such a pair |
| Liqui.CanonicalVisiblePairs | exchanges/liqui/liqui.go:138-148 | when the names are in the request format, the table holds exactly the pairs with Hidden == 0, each with the pair its name splits into |
| Liqui.Liqui.GetCurrencyPairs | exchanges/liqui/liqui.go:138-148 | the loop visits each pair name once and leaves the visible-pairs table for that visit order |
| Liqui.AvailableOf | exchanges/liqui/liqui.go:161-170 | no more names than the pair information holds |
| Liqui.AvailableComplete | exchanges/liqui/liqui.go:161-170 | every kept name (not empty, and not hidden when only visible pairs are asked for) is in the list, in upper case |
| Liqui.AvailableSound | exchanges/liqui/liqui.go:161-170 | every listed entry is a kept name in upper case, and the list keeps the visit order |
| Liqui.Liqui.GetAvailablePairs | exchanges/liqui/liqui.go:161-170 | the loop visits each pair name once and returns the kept names, upper-cased, in that order |
| Liqui.OrderStatus | exchanges/liqui/liqui.go:300-307 | 0 means active, 1 filled, 2 or 3 aborted, each in both directions; any other code leaves the status unset |
| Liqui.ConvertOrder | exchanges/liqui/liqui.go:296-324 | with a start amount: Amount = StartAmount, Filled = StartAmount − Amount and Remaining = Amount; without one only Amount is set. Rate and CreatedAt are copied, the pair is split on "_" and the side is the type word |
| Liqui.ConvertOrderRecovers | exchanges/liqui/liqui.go:311-321 | an order on a pair's request key converts back to that pair in lower case, and with a start amount its parts add up |
| Liqui.GetOrder | exchanges/liqui/liqui.go:273-279 | a fetch error is returned; a reply holding the ID gives that order converted; a reply without it is the nil dereference |
| Liqui.ConvertOrders | exchanges/liqui/liqui.go:333-336 | the loop converts each listed order with its own ID, in the listed order |
| Liqui.GetOrders | exchanges/liqui/liqui.go:326-338 | a fetch error gives no orders and the error; otherwise one converted order per active order, each ID once |
| Liqui.TradeForm | exchanges/liqui/liqui.go:243-253 | the form holds exactly pair, type, amount and rate |
| Liqui.OrderIDText | exchanges/liqui/liqui.go:288-293 | the ID 0 gives no ID, in both directions; any other ID gives its decimal text |
| Liqui.NewOrder | exchanges/liqui/liqui.go:282-294 | trades on the pair's request key with the side as the type word; a trade error is returned; otherwise the ID rule applies |
| Liqui.NewOrderIDRoundTrip | exchanges/liqui/liqui.go:293 | a non-empty ID that NewOrder reports parses back to the exchange's order ID |
| Liqui.Envelope | exchanges/liqui/liqui.go:409-430 | a failed call's error; a success other than 1 gives the reply's error text; success 1 decodes the returned value |
| Liqui.EnvelopeRefusesAllButOne | exchanges/liqui/liqui.go:416-418 | a corollary of the envelope's contract: any success value but 1 is refused, even 0 with an empty error text, and such a reply is never decoded |
| Liqui.Liqui.SignedRequest | exchanges/liqui/liqui.go:379-402 | without credentials nothing changes and the no-credentials error comes back; otherwise the nonce is stepped, the nonce and method are set, and the encoded form is signed with the secret |
| Liqui.Liqui.constructor | exchanges/liqui/liqui.go:46-60 | an exchange with no credentials, no pair information and a zero nonce |
| Binance.CurrencyPairToSymbol | exchanges/binance/binance.go:42-46 | the symbol is the upper-cased first currency followed by the upper-cased second, with no delimiter |
| Binance.SymbolToCurrencyPair | exchanges/binance/binance.go:49-55 | a symbol in the table answers its pair in upper case, in both directions; any other symbol is the error "no currency pair found for 'S' symbol" |
| Binance.PairTableExact | exchanges/binance/binance_wrapper.go:79-85 | unless a later symbol repeats it, each fetched symbol is in the table and converts to its base and quote assets in upper case |
| Binance.UnlistedSymbolFails | exchanges/binance/binance.go:49-55 | a symbol the exchange information never lists fails to convert |
| Binance.SymbolRoundTrip | exchanges/binance/binance.go:42-55 | when the symbol is the base and quote run together in upper case, the pair it converts to converts back to that symbol's pair |
| Binance.SymbolOfUpperPair | exchanges/binance/binance.go:42-46 | upper-casing a pair first does not change its symbol |
| Binance.BuildTables | exchanges/binance/binance_wrapper.go:76-85 | every symbol goes to the product list at its own index, and the table is the pair table of the fetched symbols |
| Binance.Binance.Run | exchanges/binance/binance_wrapper.go:64-90 | a failed fetch changes nothing; otherwise the table is rebuilt and the available list is every symbol in order; the limiter and credentials are untouched |
| Binance.RequestFor | exchanges/binance/binance.go:143-158 | a GET carries the payload in its query string and has no body, in both directions; any other method posts the payload as the body; the three headers are set |
| Binance.Classify | exchanges/binance/binance.go:168-180 | the error is nil exactly when the status is 2xx and the body decodes, and then the code is 0. A 2xx body that does not decode gives the status code with "failed to unmarshal response". Any other status answers the error record's code and message, or 0 with "failed to unmarshal error info" |
| Binance.Authenticated | exchanges/binance/binance.go:126-181 | without credentials nothing is sent and the no-credentials error comes back with code 0; a failed exchange answers 0 with its error; a nil error always comes with code 0 |
| Binance.SignedTimestampReadsBack | exchanges/binance/binance.go:137-138 | without parameters, the text between the first "=" and the next "&" of the payload parses back to the millisecond timestamp |
| Binance.PayloadShape | exchanges/binance/binance.go:138-147 | the payload without parameters is "timestamp=", the timestamp, "&" and the rest of the fields |
| Binance.SignatureCoversPayload | exchanges/binance/binance.go:142-147 | the signature is the last field, and it signs the whole text before it, which ends with the receive window of 5000 |
| Binance.AnswerCodes | exchanges/binance/binance.go:160-180 | with credentials, the error is nil exactly when the exchange answers, with a 2xx status, and the body decodes |
| Binance.Binance.SendAuthenticatedHTTPRequest | exchanges/binance/binance.go:126-181 | the payload is assembled field by field, signed and sent; the answer is exactly the reference reading of the call |
| Binance.Windowed | exchanges/binance/binance.go:195-199 | a window never opened, or more than 90 s old, starts over at the current time with no requests; an open, fresh window is kept |
| Binance.Step | exchanges/binance/binance.go:195-202 | the start time is the windowed one; a call is counted exactly when it is admitted; the count never passes the quota by being counted |
| Binance.WindowCap | exchanges/binance/binance.go:195-202 | within one open window, the calls admitted plus the starting count never exceed requestsPerMin, and the window keeps its start time |
| Binance.FirstWindowCap | exchanges/binance/binance.go:189-202 | an endpoint seen for the first time and then called again within 90 s is let through at most requestsPerMin times |
| Binance.StaleWindowAdmits | exchanges/binance/binance.go:196-201 | a corollary of Windowed and Step: a call made when the window is more than 90 s old is let through and counted as the first of a new window |
| Binance.Binance.SendRateLimitedHTTPRequest | exchanges/binance/binance.go:187-222 | the endpoint's record becomes its stepped record; the call is sent exactly when admitted; a refused call answers with the fallback and a nil error; nothing else changes |
| Binance.PostOrderForm | exchanges/binance/binance.go:95-121 | a validate-only order goes to the test endpoint; the form's keys are exactly symbol, side, type, timeInForce, quantity, price and newOrderRespType, plus newClientOrderId, stopPrice and icebergQty each exactly when set; each holds the caller's value, the amounts in the caller's float format, and the response type is ACK |
| Binance.OrderStatus | exchanges/binance/binance_wrapper.go:175-186 | canceled, expired, rejected or replaced means aborted, and filled means filled; any other status is active when working and unknown otherwise; each in both directions |
| Binance.ConvertOrder | exchanges/binance/binance_wrapper.go:171-202 | Amount = OrigQty, Filled = ExecutedQty and the parts add up; the rate is the price; CreatedAt is the millisecond time divided by 1000, rounded toward zero; an unknown symbol gives the zero pair; the side is lower-cased and LIMIT is an exchange limit |
| Binance.ConvertOrderRecovers | exchanges/binance/binance_wrapper.go:173-194 | the canonical ID parses back to the order ID; BUY and SELL become buy and sell; a listed symbol gives its pair |
| Binance.CreatedAtRoundsTowardZero | exchanges/binance/binance_wrapper.go:192 | a worked example of the creation time: −1500 ms gives −1 s, as Go's division truncates |
| Binance.ConvertOrders | exchanges/binance/binance_wrapper.go:164-167 | the loop converts each open order, in order |
| Binance.Binance.GetOpenOrders | exchanges/binance/binance.go:72-78 | a signed GET of the open orders without parameters; the orders are whatever the answer decoded to |
| Binance.Binance.GetOrders | exchanges/binance/binance_wrapper.go:159-169 | an error returns no orders; otherwise one normalised order per open order, in order |
| Binance.BalanceEntry | exchanges/binance/binance_wrapper.go:132-135 | the asset's name, Locked as the hold, and free + locked as the total; Available is never set |
| Binance.BalanceEntries | exchanges/binance/binance_wrapper.go:130-136 | the loop fills one entry per balance, at its own index |
| Binance.Binance.GetExchangeAccountInfo | exchanges/binance/binance_wrapper.go:118-138 | a disabled exchange answers with its name only and sends nothing; otherwise the account request's error, or one entry per balance, in order |
| Binance.Binance.GetOrderbookEx | exchanges/binance/binance_wrapper.go:103-114 | a miss answers with the zero book and no error; a hit reaches UpdateOrderbook, which panics |
| Binance.Binance.constructor | exchanges/binance/binance_wrapper.go:18-31 | a disabled exchange with no credentials, an empty limiter map, no pair table and an empty order-book store |

## Left out

- The pair package is not part of this model. `Pairs` fixes its behaviour by explicit definitions: Display joins the currencies with the delimiter and applies the case; Invert swaps them; NewCurrencyPairDelimiter splits at the first delimiter. Pairs carry no delimiter of their own.
- Case mapping covers ASCII letters only. Go's `strings.ToUpper` and `ToLower` also map other Unicode letters.
- Floating point: amounts, prices and fees are exact reals. `strconv.FormatFloat` is a parameter, and decimal rounding is not modelled.
- JSON decoding, HTTP transport, HMAC signatures, hex and base64 encoding, and URL form encoding are parameters. A decoder either yields a value or fails, and partial decoding into a result is not modelled.
- The clock is a parameter, and so is Bittrex's `time.Parse` of order times. Poloniex's parsed dates are taken as Unix seconds.
- Concurrency is not modelled: the goroutines started by `Start` and the order-book store's mutex. Every call runs alone.
- Log-only branches, verbose printing and the `log.Fatal` paths of `Setup` have no effect in the model.
- The ticker, websocket, deposit, withdrawal history and trade history endpoints are not modelled.
- The remaining Bitfinex REST calls are not modelled, including CalcAvailableBalance and CancelOrder.
- The type-declaration files (`binance_types.go`, `kraken_types.go`, `bitfinex_types.go`) are borrowed only for field names and enum values.
- Binance's `OrderStatusReplaced` is used by the order normaliser but not declared in the Binance types file. It is modelled as the status word "REPLACED".
- The Binance stubs that panic are not modelled: GetLimits, NewOrder, CancelOrder, GetOrder, UpdateTicker and GetTickerPrice. The Kraken stubs are not modelled either: GetOrder, and cancelOrder after its request. UpdateOrderbook appears only as the panic GetOrderbookEx reaches.
- UpdateAvailableCurrencies and UpdateEnabledCurrencies belong to the exchange base and the configuration, which are not part of this model. They are modelled as replacing the adapter's list, and their configuration errors are not modelled.
- Kraken's price-decimal-places table is never filled by the adapter. It is kept as a field that nothing writes, so every Kraken pair answers Undefined.
- Kraken and Bittrex define no GetMinTotal, so 0 is modelled, following the default limits.
- The rate-limit records of Bitfinex and Binance are values in a map rather than shared pointers. The effect is the same, because every update goes back into the map under the same key.
- The reflection errors of the rate limiters' fallback copy are not modelled: a result that is not a pointer, and a nil default. Every caller passes a valid pair.
- Binance's error code is decoded into Go's `int`. The int32 width of the exchange's error field is not modelled.
- Bitfinex.ClassifyV1: a body that fails to decode leaves the reply's fields at their zero values. The model takes those values as inputs.
- `return result.ID, call(&result)`: Go reads the field after the call in practice, but the language leaves that order open. The model returns the ID the call decoded.
- Bitfinex.Bitfinex.GetOrders: `exchange.WarningHTTPRequestRateLimited` is not part of this model. The model takes two of its results as the same error, as the comparison at exchanges/bitfinex/bitfinex.go:633 assumes.
- Bitfinex.SymbolToCurrencyPair: symbols are taken to be ASCII. Go's `len` and slicing count bytes, while the model counts characters.
- Iteration.RangeOrder: the order a map is visited in is left open, and not constrained further.
- Bitfinex.LimitsAfterRun and Bittrex.LimitsAfterRun: when a later symbol is filed under the same key as an earlier one, the later details win. The lemmas state the result only for a symbol that no later symbol shadows.

## Findings

| source | as written | input that shows it | evidently intended | confidence | as-written member | corrected member |
|---|---|---|---|---|---|---|
| exchanges/bitfinex/bitfinex.go:176-182 | GetPriceDecimalPlaces returns 0 for a pair with no details | any pair before the details are loaded: the answer is 0 decimal places | Undefined (-1), as the limits interface means for an unknown pair; Bitfinex.Bitfinex.GetLimits answers this corrected value | not executed | Bitfinex.AsWrittenUnknownPairIsDefined | Bitfinex.CurrencyLimits |
| exchanges/poloniex/poloniex.go:492-506 | the rate sum takes only the first trade's rate, but is divided by the number of trades | two trades both at rate 1.0: the average is 0.5 | the mean of every trade's rate | not executed | Poloniex.AsWrittenRateIsNotTheAverage | Poloniex.MeanOfEqualRates |
| exchanges/poloniex/poloniex.go:587-595 | CancelOrder returns early when `err == nil` | ID "42" cancels nothing and reports success; ID "x" cancels order 0 | return the parse error, and cancel when the ID parses | not executed | Poloniex.AsWrittenCancelSkipsValidIDs | Poloniex.CancelConvertedOrder |
| exchanges/kraken/kraken.go:749 | `fmt.Errorf` has a `%s` verb and no argument | order types "market" and "stop-loss" give the same text containing "%!s(MISSING)" | the error names the unsupported order type; Kraken.AddOrderValues and Kraken.Kraken.NewOrder return this corrected error | not executed | Kraken.AsWrittenErrorLosesType | Kraken.UnsupportedTypeNamesType |
| exchanges/bitfinex/bitfinex.go:884-885 | a non-empty "error" field is reported with the ErrorCapture message, which is empty on that branch | body `{"error": "Nonce is too small."}`: the error has no text | report the "error" field's own text | not executed; low, since the ErrorCapture JSON tag is declared in a file that is not part of this model | Bitfinex.AsWrittenDropsErrorText | Bitfinex.ClassifyV1 |
