# Fin-Dashboard core, modelled in Dafny

This project models the logic of a Next.js finance dashboard. The model has four parts:

- **The live price feed manager, `FinanceWebSocket`** (`websocket.dfy`, with its
  value-level specification in `feed.dfy`). One streaming socket, a registry that maps
  each symbol to its listener set, a reconnect counter capped at five attempts, and a
  100 ms subscription replay after the socket opens.
  - The manager is a class whose fields change in place.
  - Every socket or timer callback is an event method.
  - Every `ws.send` is appended to `outbox`, and every listener call is appended to
    `deliveries`.
- **The REST client** (`finnhub.dfy`).
  - A response cache keyed by `endpoint-JSON(params)`, with a 60 000 ms freshness window.
  - Four cache-first fetchers that fall back to mock data.
  - The mock candle generator, and `getMultipleQuotes`.
  - The cache is a field of a client class. The clock, the upstream response and the
    random draws are parameters.
- **The dashboard store** (`store.dfy`): an ordered widget list plus a theme. Every action
  is a function from state to state.
- **The stock table widget's logic** (`stock_table.dfy`): building rows, case-insensitive
  search, pages of five rows, and Previous/Next.

Shared helpers live in `wrappers.dfy` (`Option`), `sequences.dfy` (duplicate-free
sequences, subsequences, `map`, `filter`, `Set.delete`) and `text.dfy` (ASCII lower case,
substring search, decimal printing).

Some behaviours of the source are kept as written and proved as scenarios:

- A listener that throws does not stop the others.
- A `null` element in a trade batch ends the batch. The trades after it are never
  delivered.
- A socket that never opens is retried exactly five times.
- `disconnect()` does not stop reconnection. The dropped socket's close event still calls
  `reconnect`, and the retry opens a new socket.

## Model

| member | source | states |
|---|---|---|
| Feed.Add | src/lib/api/websocket.js:102-107 | after subscribe the listener is in its symbol's set, and the keys are the old keys plus that symbol |
| Feed.Remove | src/lib/api/websocket.js:123-130 | after unsubscribe the listener is not in its symbol's set, and no key is added |
| Feed.EmptiesSymbol | src/lib/api/websocket.js:126-129 | the symbol is registered and removing the listener leaves its set empty, which is when unsubscribe deletes the key and tells the feed (defined, no contract; used by RemoveSpec and Unsubscribe) |
| Feed.AddSpec | src/lib/api/websocket.js:102-107 | subscribe keeps every key's listener set non-empty and duplicate-free; the listener ends up registered, appended at the end of its symbol's set (no change if already there); a new symbol is appended to the key order, a known one keeps it; other symbols untouched |
| Feed.RemoveSpec | src/lib/api/websocket.js:123-130 | unsubscribe keeps the registry clean, removes exactly that listener, deletes the key exactly when the set empties (iff the set was just that listener); the remaining listeners and the remaining keys keep their order; other symbols untouched |
| Feed.RemoveIdempotent | src/lib/api/websocket.js:123-130 | calling the unsubscribe handle twice changes nothing the second time and sends no second unsubscribe |
| Feed.RemoveUndoesAdd | src/lib/api/websocket.js:102-130 | unsubscribing a listener that subscribe had just added restores the registry exactly (key order included) |
| Feed.SubscribeAll | src/lib/api/websocket.js:31-41 | the replay holds one message per registry key |
| Feed.ReplayExactlyOnce | src/lib/api/websocket.js:31-41 | the replay after open sends exactly one subscribe message per registered symbol and nothing else |
| Feed.Calls | src/lib/api/websocket.js:53-59 | one call per listener of the set |
| Feed.TradeCalls | src/lib/api/websocket.js:51-60 | one call per listener of the trade's symbol, none for an unknown symbol |
| Feed.CallsTargets | src/lib/api/websocket.js:53-59 | every call of a trade's fan-out carries that trade and goes to a listener of the set |
| Feed.DispatchTargets | src/lib/api/websocket.js:49-61 | every call of a batch carries one of its trades and goes to a listener registered for that trade's symbol |
| Feed.Dispatch | src/lib/api/websocket.js:49-61 | a batch's calls are each trade's fan-out, in batch order (defined, no contract; characterised by DispatchTargets, FanOut, DispatchAppend, DispatchIgnoresFailures) |
| Feed.TradesBeforeNull | src/lib/api/websocket.js:49-70 | the trades a batch gets through are its elements up to, not including, the first null one (all of them when there is none) |
| Feed.NullEndsBatch | src/lib/api/websocket.js:49-70 | in the batch [t1, null, t2] only t1 reaches its listeners: the null element throws and the outer catch drops the rest |
| Feed.FanOut | src/lib/api/websocket.js:49-61 | a trade reaches each listener of its symbol once, in registration order; a trade for an unknown symbol reaches nobody |
| Feed.DispatchAppend | src/lib/api/websocket.js:50-61 | trades of a batch are dispatched in order: a batch's calls are its parts' calls in sequence |
| Feed.DispatchIgnoresFailures | src/lib/api/websocket.js:53-59 | which listener is called with which trade does not depend on which listeners throw |
| Feed.ReconnectStep | src/lib/api/websocket.js:89-100 | a retry is scheduled iff fewer than 5 attempts were made, and only then does the count go up by one |
| Feed.FailedCloses | src/lib/api/websocket.js:89-95 | k closes raise the attempt count by exactly the number of retries scheduled, at most k |
| Feed.FailedClosesBound | src/lib/api/websocket.js:89-95 | k closes in a row leave the count at min(attempts + k, 5) and schedule exactly that many new retries |
| Feed.RetriesFromFreshStart | src/lib/api/websocket.js:89-95 | from a fresh start, k failures schedule min(k, 5) retries |
| WebSocketFeed.FinanceWebSocket.constructor | src/lib/api/websocket.js:2-9 | no socket, empty registry, zero attempts, not connecting |
| WebSocketFeed.FinanceWebSocket.IsOpen | src/lib/api/websocket.js:12 | `this.ws?.readyState === WebSocket.OPEN`: a socket is held and it is open (defined, no contract) |
| WebSocketFeed.FinanceWebSocket.Connect | src/lib/api/websocket.js:11-24 | nothing when open or already connecting; otherwise a new Connecting socket for the token's URL; a throwing constructor only clears isConnecting |
| WebSocketFeed.FinanceWebSocket.OnOpen | src/lib/api/websocket.js:25-31 | the socket is open, isConnecting cleared, attempts reset to 0, one settle timer set |
| WebSocketFeed.FinanceWebSocket.SettleTimerFires | src/lib/api/websocket.js:31-42 | if the socket is open, one subscribe message per registry key in key order is sent; otherwise nothing |
| WebSocketFeed.FinanceWebSocket.OnMessage | src/lib/api/websocket.js:45-71 | a trade batch adds exactly the dispatch calls of its trades before the first null element to the delivery log; a ping adds one pong iff the socket is open; other or unparseable frames change nothing |
| WebSocketFeed.FinanceWebSocket.DeliverBatch | src/lib/api/websocket.js:50-61 | the delivery log grows by the dispatch calls of the batch's trades before its first null element |
| WebSocketFeed.FinanceWebSocket.DeliverTrade | src/lib/api/websocket.js:51-60 | one trade calls every listener of its symbol once, in registration order, logging whether each call threw; an unknown symbol calls nobody |
| WebSocketFeed.FinanceWebSocket.OnError | src/lib/api/websocket.js:73-76 | only isConnecting is cleared |
| WebSocketFeed.FinanceWebSocket.Reconnect | src/lib/api/websocket.js:89-100 | follows the reconnect policy: one retry timer with the same token iff the budget is not used up |
| WebSocketFeed.FinanceWebSocket.OnClose | src/lib/api/websocket.js:78-82 | the socket is closed, isConnecting cleared, reconnect applied |
| WebSocketFeed.FinanceWebSocket.DetachedSocketClosed | src/lib/api/websocket.js:78-82 | a socket no longer held still clears isConnecting and calls reconnect when it closes |
| WebSocketFeed.FinanceWebSocket.ReconnectTimerFires | src/lib/api/websocket.js:96-99 | the earliest retry timer runs connect with its token |
| WebSocketFeed.FinanceWebSocket.Subscribe | src/lib/api/websocket.js:102-121 | the registry becomes Add(old); the listener is registered; one subscribe message per call iff the socket is open; the handle names the pair |
| WebSocketFeed.FinanceWebSocket.Unsubscribe | src/lib/api/websocket.js:123-141 | the registry becomes Remove(old); one unsubscribe message iff the set empties and the socket is open |
| WebSocketFeed.FinanceWebSocket.Dispose | src/lib/api/websocket.js:119-120 | calling the returned handle is unsubscribe of its symbol and listener |
| WebSocketFeed.FinanceWebSocket.Disconnect | src/lib/api/websocket.js:143-150 | no socket, empty registry, not connecting; an unclosed socket keeps its pending close; attempts and timers unchanged |
| WebSocketFeed.SubscribedPairDispatch | src/lib/api/websocket.js:49-61 | two different listeners subscribed in turn to a symbol are both called for its trade, in subscription order, each with its own outcome |
| WebSocketFeed.ThrowingListenerIsolated | src/lib/api/websocket.js:53-59 | with two listeners on a symbol, the first throwing, both receive the trade, in order |
| WebSocketFeed.PingAnswered | src/lib/api/websocket.js:62-66 | on an open socket a ping is answered by exactly one pong and reaches no listener |
| WebSocketFeed.RetriesExhausted | src/lib/api/websocket.js:89-95 | a socket that never opens is constructed 6 times (5 retries) and then no retry is pending |
| WebSocketFeed.ReconnectsAfterDisconnect | src/lib/api/websocket.js:143-150 | after disconnect, the old socket's close still schedules a retry, and the retry opens a second socket |
| Finnhub.Escape | src/lib/api/finnhub.js:11-13 | JSON string escaping never shortens a string and leaves one without quotes or backslashes unchanged |
| Finnhub.Quoted | src/lib/api/finnhub.js:11-13 | a JSON string literal (defined, no contract) |
| Finnhub.Stringify | src/lib/api/finnhub.js:11-13 | `JSON.stringify` of the three parameter objects, keys in insertion order (defined, no contract) |
| Finnhub.CacheKey | src/lib/api/finnhub.js:11-13 | `endpoint-JSON(params)` (defined, no contract; characterised by the key lemmas below) |
| Finnhub.QuoteKey | src/lib/api/finnhub.js:100 | the key `getQuote` uses: `CacheKey('quote', {symbol})` (defined, no contract; characterised by SymbolKeysDistinct and EndpointOfKey) |
| Finnhub.ProfileKey | src/lib/api/finnhub.js:134 | the key `getCompanyProfile` uses: `CacheKey('profile', {symbol})` (defined, no contract; characterised by SymbolKeysDistinct and EndpointOfKey) |
| Finnhub.NewsKey | src/lib/api/finnhub.js:167 | the key `getMarketNews` uses: `CacheKey('news', {category})` (defined, no contract; characterised by CategoryKeysDistinct and EndpointOfKey) |
| Finnhub.CandlesKey | src/lib/api/finnhub.js:191 | the key `getCandles` uses: `CacheKey('candles', {symbol, resolution, from, to})` (defined, no contract; characterised by EndpointOfKey and EndpointKeysDistinct) |
| Finnhub.UnescapeEscape | src/lib/api/finnhub.js:11-13 | the string escaping used in cache keys can be read back |
| Finnhub.EndpointOfKey | src/lib/api/finnhub.js:11-13 | a cache key names the endpoint it was made for |
| Finnhub.EndpointKeysDistinct | src/lib/api/finnhub.js:11-13 | keys of different endpoints never collide |
| Finnhub.SymbolKeysDistinct | src/lib/api/finnhub.js:11-13 | two symbols share a quote or profile key iff they are the same symbol |
| Finnhub.CategoryKeysDistinct | src/lib/api/finnhub.js:11-13 | two news categories share a key iff they are the same category |
| Finnhub.FromCache | src/lib/api/finnhub.js:15-21 | a hit iff the entry exists, is strictly younger than 60 000 ms and is not null; a hit yields the stored data |
| Finnhub.SetThenGet | src/lib/api/finnhub.js:15-28 | an entry written at t is served exactly until t + 60 000; other keys are untouched |
| Finnhub.FinnhubClient.constructor | src/lib/api/finnhub.js:3-8 | mock mode iff the key is missing, empty or 'demo'; empty cache |
| Finnhub.FinnhubClient.SetCache | src/lib/api/finnhub.js:23-28 | the entry for the key is overwritten with the data and the current time; other keys unchanged |
| Finnhub.FetchQuote | src/lib/api/finnhub.js:99-129 | after `getQuote` the symbol's key holds the returned quote; at most one request, none in mock mode |
| Finnhub.FetchQuoteSpec | src/lib/api/finnhub.js:99-129 | a fresh entry is returned with no fetch and no cache change; on a miss the mock, valid response or fallback mock (c = 0 is invalid) is returned and stored, stamped at the check in mock mode and at the response otherwise; one request unless in mock mode |
| Finnhub.FetchQuoteLeavesOthers | src/lib/api/finnhub.js:99-129 | `getQuote` changes no entry but its own key's |
| Finnhub.FetchQuoteLocal | src/lib/api/finnhub.js:99-129 | the quote returned and the request made depend only on the symbol's own entry |
| Finnhub.QuoteKeysDistinct | src/lib/api/finnhub.js:11-13 | distinct symbols have distinct quote keys |
| Finnhub.ValidQuote | src/lib/api/finnhub.js:118 | a response is used iff it has a body whose `c` is not 0 (defined, no contract) |
| Finnhub.ValidProfile | src/lib/api/finnhub.js:151 | a response is used iff it has a body with a non-empty name (defined, no contract) |
| Finnhub.ValidCandles | src/lib/api/finnhub.js:215 | a response is used iff it has a body whose `s` is 'ok' (defined, no contract) |
| Finnhub.FinnhubClient.GetQuote | src/lib/api/finnhub.js:99-129 | the quote returned, the new cache and the requests issued are exactly `FetchQuote`'s on the old cache; every entry keeps holding its endpoint's kind of data |
| Finnhub.FinnhubClient.GetProfile | src/lib/api/finnhub.js:133-163 | as for quotes; a response is valid iff it has a non-empty name |
| Finnhub.FinnhubClient.GetMarketNews | src/lib/api/finnhub.js:166-187 | [] in mock mode and on error, neither written to the cache; otherwise the body (null included) is stored and returned |
| Finnhub.FinnhubClient.GetCandles | src/lib/api/finnhub.js:190-228 | a fresh entry is returned unchanged; otherwise the mock series, a response with s = 'ok', or the fallback mock, stored |
| Finnhub.FetchQuotes | src/lib/api/finnhub.js:233-234 | k `getQuote` calls give k quotes and at most k requests, none in mock mode |
| Finnhub.FetchQuotesLeavesOthers | src/lib/api/finnhub.js:233-234 | the calls change no entry but the keys of the symbols quoted |
| Finnhub.DistinctQuotesIndependent | src/lib/api/finnhub.js:231-238 | for distinct symbols each quote is what `getQuote` alone gives on the starting cache (with its own response time), so the order the calls run in does not matter, and the final cache holds each returned quote under its symbol's key |
| Finnhub.TaggedQuotes | src/lib/api/finnhub.js:231-238 | one entry per symbol, tagged with it; for distinct symbols each entry's quote is a lone `getQuote`'s and stays cached |
| Finnhub.FinnhubClient.NextQuote | src/lib/api/finnhub.js:233-234 | the i-th `getQuote` continues the quotes, cache and requests of the first i |
| Finnhub.FinnhubClient.QuoteEach | src/lib/api/finnhub.js:233-234 | the quotes, cache and requests are those of `FetchQuotes` over all symbols |
| Finnhub.FinnhubClient.GetMultipleQuotes | src/lib/api/finnhub.js:231-243 | the result tags the `getQuote` outcomes with their symbols, and the cache and requests are theirs; one entry per symbol, in input order; for distinct symbols each quote is a lone `getQuote`'s on the old cache, its entry stamped with its own response's arrival time, and stays cached; no request in mock mode, at most one per symbol otherwise |
| Finnhub.MockProfile | src/lib/api/finnhub.js:60-67 | the mock profile has a non-empty name and the symbol as ticker |
| Finnhub.MockDays | src/lib/api/finnhub.js:197-198 | the whole number of days between from and to (floor), capped at 90 |
| Finnhub.MockCandles | src/lib/api/finnhub.js:69-95 | the mock series has status 'ok' and max(days, 0) entries |
| Finnhub.MockCandlesShape | src/lib/api/finnhub.js:69-95 | all six arrays have max(days, 0) entries; timestamps step by 86 400, strictly increase and end at now; s = 'ok' |
| Finnhub.GenerateMockCandles | src/lib/api/finnhub.js:69-95 | the loop builds exactly the mock series for the current second |
| Finnhub.TagQuotes | src/lib/api/finnhub.js:235-238 | one tagged entry per symbol, each with its own symbol and its own quote |
| DashboardStore.Initial | src/lib/store.js:8-9 | no widgets, light theme |
| DashboardStore.WidgetId | src/lib/store.js:15 | `widget-${Date.now()}` (defined, no contract; characterised by WidgetIdsDistinct) |
| DashboardStore.HasId | src/lib/store.js:25 | `w.id === id`: the widget has an `id` property equal to the string (defined, no contract; the same test is used at store.js:32 and :40) |
| DashboardStore.AddWidget | src/lib/store.js:12-21 | the widget is appended with id widget-now and the default position; other properties copied; earlier widgets and theme unchanged |
| DashboardStore.WidgetIdsDistinct | src/lib/store.js:15 | ids made at different milliseconds differ; the same millisecond gives the same id |
| DashboardStore.RemoveWidget | src/lib/store.js:23-27 | the theme is kept and every remaining widget was there and does not carry the id |
| DashboardStore.RemoveWidgetSpec | src/lib/store.js:23-27 | exactly the widgets without that id remain, each as often as it occurred, in their original order; theme unchanged |
| DashboardStore.RemoveAbsentId | src/lib/store.js:23-27 | removing an id no widget carries changes nothing |
| DashboardStore.UpdateWidget | src/lib/store.js:29-35 | matching widgets take the update's properties and keep the rest; other widgets, order and theme unchanged |
| DashboardStore.UpdateWidgetIdempotent | src/lib/store.js:29-35 | applying the same update twice equals applying it once |
| DashboardStore.UpdateWidgetPosition | src/lib/store.js:37-43 | only the position of matching widgets changes |
| DashboardStore.PositionIsUpdate | src/lib/store.js:37-43 | moving a widget equals updating it with a one-property object holding the position |
| DashboardStore.ToggleTheme | src/lib/store.js:45-54 | widgets unchanged; the result is light or dark, and dark iff the theme was light |
| DashboardStore.ToggleTwice | src/lib/store.js:45-54 | toggling twice restores light or dark; any other stored theme ends up dark |
| DashboardStore.ClearAllWidgets | src/lib/store.js:56-58 | no widgets, theme unchanged |
| StockTable.OrZero | src/components/widgets/StockTable.jsx:40-46 | a missing number becomes 0; a present one is kept |
| StockTable.NameOr | src/components/widgets/StockTable.jsx:39 | the profile name when it is a non-empty string, otherwise the symbol |
| StockTable.BuildRow | src/components/widgets/StockTable.jsx:37-47 | the row carries its symbol and a non-empty name when the symbol is non-empty |
| StockTable.RowDefaults | src/components/widgets/StockTable.jsx:37-47 | price, change, change percent, high, low, open and previous close are the quote's value when present and 0 when missing; a missing or empty name becomes the symbol, a non-empty one is kept |
| StockTable.Matches | src/components/widgets/StockTable.jsx:79-82 | the lower-cased term occurs in the lower-cased symbol or name (defined, no contract) |
| Text.LowerChar | src/components/widgets/StockTable.jsx:80-81 | `toLowerCase` on one character: an upper-case ASCII letter becomes a lower-case one, every other character is kept |
| Text.Lower | src/components/widgets/StockTable.jsx:80-81 | `toLowerCase`: the same length, each character lower-cased by LowerChar |
| Text.Contains | src/components/widgets/StockTable.jsx:80-81 | `includes`: the term occurs at some offset of the string (defined, no contract) |
| Text.ContainsEmpty | src/components/widgets/StockTable.jsx:80-81 | the empty term occurs in every string |
| StockTable.FilterRows | src/components/widgets/StockTable.jsx:79-82 | no more rows than given, every one of them given and matching |
| StockTable.FilterRowsSpec | src/components/widgets/StockTable.jsx:79-82 | a row is kept iff the lower-cased term occurs in its lower-cased symbol or name, as many times as it occurs; order preserved |
| StockTable.EmptyTermKeepsAll | src/components/widgets/StockTable.jsx:79-82 | an empty search keeps every row |
| StockTable.SearchIgnoresCase | src/components/widgets/StockTable.jsx:79-82 | a term and its lower-case form select the same rows |
| StockTable.StartsInRange | src/components/widgets/StockTable.jsx:22-25 | the initial view (no stocks, empty term, page 1) is on a page in range and shows no rows |
| StockTable.TotalPages | src/components/widgets/StockTable.jsx:85 | the least number of five-row pages that holds n rows |
| StockTable.StartIndex | src/components/widgets/StockTable.jsx:86 | `(currentPage - 1) * itemsPerPage` (defined, no contract; used by PageRows and Label) |
| StockTable.Slice | src/components/widgets/StockTable.jsx:87 | slice yields only elements of the list; with in-range start and end it gives the clamped sub-sequence |
| StockTable.PageRows | src/components/widgets/StockTable.jsx:86-87 | at most five rows, all from the list, the ones from (p-1)*5 up to p*5 clamped to the list |
| StockTable.PagesPartition | src/components/widgets/StockTable.jsx:85-87 | pages 1..totalPages, concatenated, are exactly the filtered rows |
| StockTable.Search | src/components/widgets/StockTable.jsx:98-101 | typing sets the term and resets the page to 1 |
| StockTable.Previous | src/components/widgets/StockTable.jsx:182 | the page goes down by one, never below 1 |
| StockTable.Next | src/components/widgets/StockTable.jsx:190 | the page goes up by one, never above totalPages |
| StockTable.NavigationKeepsRange | src/components/widgets/StockTable.jsx:173-192 | search, Previous and (while pagination shows) Next keep the page in range |
| StockTable.ShowsPagination | src/components/widgets/StockTable.jsx:173 | the pagination controls render iff there is more than one page (defined, no contract) |
| StockTable.Visible | src/components/widgets/StockTable.jsx:86-87 | at most five rows are shown, each a stock that matches the search |
| StockTable.Label | src/components/widgets/StockTable.jsx:176 | the label's total is the number of matching rows and its last index never exceeds it |
| StockTable.VisibleNonEmpty | src/components/widgets/StockTable.jsx:134-139 | on a page in range, "No stocks found" shows iff no row matches |
| StockTable.LabelCountsVisible | src/components/widgets/StockTable.jsx:176 | "Showing a to b of n" has 1 <= a <= b <= n and counts exactly the rows shown |

## Left out

- Transport and timers:
  - The real WebSocket transport, `JSON.parse` and `JSON.stringify` of frames, and the
    100 ms and 3000 ms timer delays. Frames are the `Inbound` and `Outbound` datatypes.
  - Timers are explicit events, fired in the order they were set.
  - A held socket counts as Open until its close event; the CLOSING ready state is not
    modelled. A subscribe, unsubscribe or pong in that window is logged in `outbox`,
    whereas the source's `readyState === OPEN` guards (websocket.js:64, 110, 131) send
    nothing.
- Socket events:
  - `onmessage` and `onerror` of a socket no longer held in `ws` are not separate events.
    They act on the same shared registry as the current socket's handlers.
  - `onopen` of a socket no longer held in `ws` is not modelled. Such a socket exists
    because `isConnecting` is shared: an earlier socket's error or close can clear it while
    the held socket is still connecting, and the next `connect` then replaces the held
    socket. When the replaced socket opens, the source still clears `isConnecting`, resets
    the attempt count to 0 and sets a settle timer (websocket.js:25-42); the model drops
    those effects.
- WebSocketFeed.FinanceWebSocket.OnMessage: a batch element that is neither `null` nor a
  trade (a number, or an object without `s`) reaches no listener in the source. The model
  has no such element. A `data` that is not an array makes `forEach` throw, which the
  source swallows, so it acts as an empty batch.
- Callback failures: a failing `ws.send` is caught and logged by the source; the model
  treats sends as always succeeding.
- Mutation during dispatch: JavaScript `Set` iteration sees listeners added or removed
  during a dispatch. In the model, listeners cannot change the registry while a batch is
  being dispatched.
- Logging: `console` output is left out.
- Random mock values:
  - `Math.random`, and the floating-point rounding of `toFixed`, in the mock generators.
  - The mock quote, the mock market capitalisation and each mock candle day's prices and
    volume are parameters.
  - `STOCK_PRICES` only feeds those random values, so it is left out.
- Finnhub.FinnhubClient.GetMultipleQuotes: runs the `getQuote` calls one after the other,
  while the source starts them together with `Promise.all`. For distinct symbols this makes
  no difference (`DistinctQuotesIndependent`). With a real API key, a symbol listed twice
  misses the cache twice there, while in the model its second call is served from the
  first call's entry. In mock mode nothing is awaited, so the source also runs the calls
  in order.
  Each call's response arrives at its own time `doneAt(i)`, and its entry is stamped with
  that time, as in the source.
- Default arguments: `getMarketNews`'s `category = 'general'`, `getCandles`'s
  `resolution = 'D'` and `generateMockCandles`'s `days = 30` are not modelled. The
  model's operations take every argument, so a call that omits one is written with the
  default value.
- Finnhub.Escape: covers the escapes of `"` and `\` only. The `\n`/`\uXXXX` forms
  `JSON.stringify` writes for control characters are left out.
- Finnhub.Stringify: a `from` or `to` that is not an integer is left out.
- Finnhub.FinnhubClient.GetMarketNews: a response body is either absent (null) or an
  article list. Other JSON values are left out.
- The fetchers' `timeout: 5000` and the API token are not modelled. A timed-out request is
  the `Failed` outcome.
- Floating point: `NaN` (falsy in `quote.c || 0`) does not arise, because prices are `real`.
- StockTable: the React rendering and number formatting are not modelled.
- StockTable: the loading flag, the 60 s refresh interval and `fetchStockData`'s
  random fallback rows are left out. The fallback cannot run, because `getQuote` and
  `getProfile` catch every upstream error.
- Text.Lower: `toLowerCase` folds ASCII letters only.
- DashboardStore: zustand `persist` (localStorage) and the `document` class toggle are
  left out.
- The React hooks and `utils.js` are not part of this model.
