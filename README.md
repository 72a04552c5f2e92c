# A verified model of ccxt's asynchronous websocket core

This project models, in Dafny, the parts of the Python base class
`ccxt.async_support.base.exchange.Exchange` that drive real-time subscriptions.
It has four parts, and each one is proved against a specification:

- **The order-book merge engine** (`order_book.dfy`). A side of a book is a list of
  `[price, amount]` levels: bids are kept in descending price order, asks in
  ascending order. `updateBidAsk` takes an absolute level and inserts, replaces or
  deletes (amount 0) the level at that price. `updateBidAskDiff` adds a signed
  increment instead. `mergeOrderBookDelta` parses both sides of a delta message
  and applies every level. `_cloneOrderBook` copies a book, optionally cut to a
  depth limit. Each side is a `PriceLevels` object whose `levels` sequence the
  methods rewrite in place. The key lemma reads a sorted side as a
  price → amount table (`Book`): on that table, `updateBidAsk` is a plain key
  update, and sortedness makes the table determine the side uniquely.
- **The context store** (`contexts.dfy`). This is `websocketContexts`, one context
  per connection id. A context holds:
  - a scratch area;
  - its template name;
  - its connection info;
  - a table of events, each a table of symbols, each symbol a slot with
    `subscribed`/`subscribing` flags, params and data.

  Python dicts iterate in insertion order, and the active-slot list and the URL it
  feeds depend on that order. So every dict the code iterates is an
  insertion-ordered `Dict` (`dicts.dfy`), not a `map`.
- **The action resolver** (`resolver.dfy`). This is a pure decision.
  - Given a slot's flags and the exchange's `wsconf`, it decides whether a
    subscribe or unsubscribe needs no action, a connect, a reconnect (with a
    regenerated stream URL for `ws-s` connections) or a disconnect.
  - It also builds the connection configuration that goes with the decision.
  - With it come the connection id of an event and the market-id → symbol lookup.
- **The batch bookkeeping** (`subscriptions.dfy`). `Exchange` holds:
  - the store;
  - the delayed-connection map;
  - the once-listeners registered per nonce;
  - the futures they settle;
  - a nonce counter;
  - a ghost log of transport steps.

  Its methods model:
  - `_websocket_ensure_conx_active`;
  - the flush `_websocket_connect_delayed`;
  - the acknowledgement listeners and `emit`;
  - the timeout;
  - `websocket_subscribe_all` and `websocket_unsubscribe_all`.

Foreign code becomes function-valued parameters (the `Env` datatype and the
`parseBidAsk`/`iso8601` arguments): `implode_params`,
`_websocket_generate_url_stream`, the connection constructor, `isActive`, the
outcome of `websocket_connect` and of the exchange's subscribe/unsubscribe send,
`nonce()`, the exchange's answer to a request, `parse_bid_ask` and `iso8601`.
Raised exceptions become `Result`/`Outcome` values that name the exception's
class and reason.

## Where the code and the system's design differ

The model follows the code in every case:

- For `signalr`, `ws-io`, `pusher` and `ws` connections, the resolver returns a
  `connect` action with `onconnect` on unsubscribe as well as on subscribe.
  Only `ws-s` (aggregate stream) connections can ever get `disconnect`
  (`Resolver.ConnectTypesConnect`). The design expects `disconnect` when the last
  symbol of a `ws` connection is unsubscribed.
- `websocket_subscribe_all` awaits the futures one after another, and the first
  failed or timed-out future ends the batch, so later requests are never sent.
  The design expects failures to be isolated per request.
- `websocket_subscribe_all` has no `finally`. If preparing a request raises, the
  connections already queued in the delayed map stay queued. Only
  `websocket_unsubscribe_all` flushes unconditionally.
- A timeout settles only the future. The once-listener stays registered: if the
  acknowledgement arrives later, it still rewrites the slot's flags but cannot
  change the future (`Subscriptions.LateAck`).
- A failed subscribe acknowledgement stores the default params `{}` on the slot,
  because `_contextSetSubscribed` is called without params. A successful
  unsubscribe does the same.
- The resolver accepts `ws-io` and `pusher` connections, but
  `_websocket_initialize` raises NotSupported for both
  (`Subscriptions.ConnectTypesBeyondInitialize`).

## Model

| member | source | states |
|---|---|---|
| OrderBook.Compare | python/ccxt/async_support/base/exchange.py:970-973 | the three-way comparison is non-negative exactly when the level's price does not rank before the value on this side, and zero exactly on equal prices |
| OrderBook.SearchIndexToInsertOrUpdate | python/ccxt/async_support/base/exchange.py:969-980 | the linear scan returns the first position whose price does not rank before the value (all earlier ones do), or the length when there is none |
| OrderBook.SearchIndexAtPrice | python/ccxt/async_support/base/exchange.py:975-978 | on a sorted side, the search for a price that is present lands on that price's own position |
| OrderBook.ReplaceMergePresent | python/ccxt/async_support/base/exchange.py:985-992 | a quoted price with amount 0 loses exactly its level; any other amount replaces that level and keeps its position |
| OrderBook.ReplaceMergeAbsent | python/ccxt/async_support/base/exchange.py:993-996 | an unquoted price with amount 0 changes nothing; otherwise the level is inserted at the search index |
| OrderBook.ReplaceMergeWellFormed | python/ccxt/async_support/base/exchange.py:982-996 | `updateBidAsk` keeps a side strictly sorted (no duplicate price) and never leaves a zero amount |
| OrderBook.ReplaceMergeBook | python/ccxt/async_support/base/exchange.py:982-996 | on a sorted side, the price → amount table after `updateBidAsk` is the old table with that price set, or deleted for amount 0 |
| OrderBook.SortedBookUnique | python/ccxt/async_support/base/exchange.py:982-996 | two sorted sides with the same price → amount table are the same side, so the table determines the list |
| OrderBook.ReplaceMergeIdempotent | python/ccxt/async_support/base/exchange.py:982-996 | applying the same absolute level twice gives the same side as applying it once |
| OrderBook.ReplaceMergeCommute | python/ccxt/async_support/base/exchange.py:982-996 | on a sorted side, levels at two different prices give the same result in either order |
| OrderBook.DiffMergePresent | python/ccxt/async_support/base/exchange.py:1001-1009 | a quoted price's amount becomes old + delta, and its level is removed exactly when the sum is 0 |
| OrderBook.DiffMergeAbsent | python/ccxt/async_support/base/exchange.py:1010-1013 | for an unquoted price, the diff rule behaves exactly like the absolute rule |
| OrderBook.DiffMergeWellFormed | python/ccxt/async_support/base/exchange.py:998-1013 | `updateBidAskDiff` keeps a side strictly sorted and never leaves a zero amount |
| OrderBook.DiffMergeBook | python/ccxt/async_support/base/exchange.py:998-1013 | on a sorted side, the table after `updateBidAskDiff` has the price's amount increased by the delta and deleted when it sums to 0 |
| OrderBook.PriceLevels.UpdateBidAsk | python/ccxt/async_support/base/exchange.py:982-996 | the side list after the in-place edit is the absolute merge of the list before it |
| OrderBook.PriceLevels.UpdateBidAskDiff | python/ccxt/async_support/base/exchange.py:998-1013 | the side list after the in-place edit is the diff merge of the list before it |
| OrderBook.PriceLevels.UpdateAll | python/ccxt/async_support/base/exchange.py:946-949 | the loop over parsed levels leaves the side equal to the levels applied in order |
| OrderBook.ReplaceMergeAllWellFormed | python/ccxt/async_support/base/exchange.py:946-949 | whatever batch of levels is applied, a sorted side without zero amounts stays so |
| OrderBook.Contains | python/ccxt/async_support/base/exchange.py:963 | Python's `in`: key membership on a dict, element membership on a list (an integer key also matches an equal number or bool), a substring test for a string key on a string; TypeError exactly for any other pairing (an integer key on a string, or a scalar entry) |
| OrderBook.KeyedEntries | python/ccxt/async_support/base/exchange.py:961-964 | the filter succeeds exactly when every entry's two key tests succeed; otherwise it raises the error of the first entry whose test raises, all earlier ones having passed; it never adds entries |
| OrderBook.KeyedEntriesInOrder | python/ccxt/async_support/base/exchange.py:961-964 | the kept entries are exactly the entries at an increasing index sequence, which holds every position whose entry carries both keys and no other, so order and repeats are preserved |
| OrderBook.ScalarEntryRaises | python/ccxt/async_support/base/exchange.py:961-964 | a dict first entry followed by a number makes the key filter raise TypeError instead of skipping the number |
| OrderBook.ParseKeyed | python/ccxt/async_support/base/exchange.py:961-964 | testing and parsing each entry in turn equals parsing the keyed entries in order when no key test raises, and raises when one does |
| OrderBook.ParseEach | python/ccxt/async_support/base/exchange.py:959-960 | parsing succeeds exactly when every entry parses, gives one level per entry in order, and otherwise fails with the first entry's error |
| OrderBook.ParseBidsAsks2 | python/ccxt/async_support/base/exchange.py:955-967 | an empty side gives no levels; a list first entry parses every entry; a dict first entry parses exactly the keyed entries in order, or raises when a key test raises; any other shape raises ExchangeError |
| OrderBook.ParsedSide | python/ccxt/async_support/base/exchange.py:940-945 | a side key that is missing or not a list counts as no levels; otherwise its entries are parsed |
| OrderBook.OrderBook.MergeOrderBookDelta | python/ccxt/async_support/base/exchange.py:938-953 | a malformed message leaves the book unchanged and reports the error; otherwise bids then asks are merged in order, the timestamp is set, the datetime is derived from it (None for None) and the nonce is kept |
| OrderBook.MergeKeepsWellFormed | python/ccxt/async_support/base/exchange.py:938-953 | a merge keeps both sides of a well-formed book well-formed |
| OrderBook.SliceLength | python/ccxt/async_support/base/exchange.py:761-762 | the length of Python's `s[:limit]`, negative limits included |
| OrderBook.CloneOrderBook | python/ccxt/async_support/base/exchange.py:751-763 | the clone keeps timestamp, datetime and nonce, copies both sides, and cuts each one Python-style when a limit is given |
| OrderBook.CloneKeepsBest | python/ccxt/async_support/base/exchange.py:757-762 | the clone of a well-formed book is well-formed, and every level it drops ranks behind every level it keeps |
| Contexts.Lookup | python/ccxt/async_support/base/exchange.py:415-417 | a slot is found exactly when its event and its symbol both exist |
| Contexts.IsSubscribed | python/ccxt/async_support/base/exchange.py:415-418 | reads the `subscribed` flag of an existing slot, and false for an unknown event or symbol instead of raising |
| Contexts.IsSubscribing | python/ccxt/async_support/base/exchange.py:423-426 | reads the `subscribing` flag of an existing slot, and false for an unknown event or symbol instead of raising |
| Contexts.CollectSymbolsExact | python/ccxt/async_support/base/exchange.py:322-330 | an event's listing holds exactly its active symbols, each with its params or `{}` |
| Contexts.CollectEventsExact | python/ccxt/async_support/base/exchange.py:321-330 | the listing holds exactly the entries of slots that exist and are active |
| Contexts.SubscribedEventSymbolsExact | python/ccxt/async_support/base/exchange.py:318-331 | an `(event, symbol, params)` triple is listed exactly when that slot is subscribed or subscribing and the params are the slot's; no pair is listed twice |
| Contexts.AfterResetFacts | python/ccxt/async_support/base/exchange.py:336-351 | after a reset the context exists, no slot is subscribed or subscribing, nothing is listed; an unknown id gets a fresh context; a known one keeps its keys, params, template, scratch and connection and has every slot cleared; other contexts are untouched; validity is kept |
| Contexts.ContextStore.ResetContext | python/ccxt/async_support/base/exchange.py:336-351 | the store after the nested reset loops is `AfterReset` of the store before |
| Contexts.ContextStore.ResetEvent | python/ccxt/async_support/base/exchange.py:395-396 | the event's symbol table becomes empty |
| Contexts.ContextStore.ResetSymbol | python/ccxt/async_support/base/exchange.py:398-403 | the slot becomes a fresh one: not subscribed, not subscribing, empty data |
| Contexts.ResetSymbolReads | python/ccxt/async_support/base/exchange.py:398-403 | after resetting a slot it is present, neither subscribed nor subscribing, with no params; every other slot of the context reads as before, the store keeps its context ids, and every other context is untouched |
| Contexts.ContextStore.SetSymbolData | python/ccxt/async_support/base/exchange.py:408-409 | only the slot's data changes |
| Contexts.ContextStore.SetSubscribed | python/ccxt/async_support/base/exchange.py:411-413 | the slot's subscribed flag and params are set |
| Contexts.SetSubscribedReads | python/ccxt/async_support/base/exchange.py:411-418 | after setting the flag, `_contextIsSubscribed` of that slot returns it, and every other slot reads as before |
| Contexts.ContextStore.SetSubscribing | python/ccxt/async_support/base/exchange.py:420-421 | the slot's subscribing flag is set |
| Contexts.SetSubscribingReads | python/ccxt/async_support/base/exchange.py:420-426 | after setting the flag, `_contextIsSubscribing` of that slot returns it, and every other slot reads as before |
| Contexts.ContextStore.SetConnectionInfo | python/ccxt/async_support/base/exchange.py:378-379 | only the context's connection info changes |
| Contexts.ContextStore.SetScratch | python/ccxt/async_support/base/exchange.py:381-382 | only one key of the context's scratch area changes |
| Contexts.ConnectionOf | python/ccxt/async_support/base/exchange.py:356-359 | None when no connection info is stored, otherwise its connection |
| Contexts.ConnectionInfoOf | python/ccxt/async_support/base/exchange.py:361-364 | NotSupported (connection not found) exactly when no info is stored, otherwise the info |
| Contexts.ScratchOf | python/ccxt/async_support/base/exchange.py:384-387 | None exactly for a missing key, otherwise the stored value |
| Resolver.GetConxid4Event | python/ccxt/async_support/base/exchange.py:428-440 | KeyError without `events`; TypeError for an undeclared event; succeeds exactly for a declared event with a template name and an `id` parameter (own or default), returning that template name |
| Resolver.Template | python/ccxt/async_support/base/exchange.py:452-458 | the error for missing `events`, an undeclared event, missing `conx-tpls` or an unknown template; otherwise the template named by the event (or `default`) |
| Resolver.BuildConfig | python/ccxt/async_support/base/exchange.py:459-471 | the configuration has the template's keys plus the parameter keys; each parameter is imploded with the template, event, symbol and template name as arguments; all other entries come from the template |
| Resolver.GetActionForEvent | python/ccxt/async_support/base/exchange.py:442-538 | KeyError for an unknown connection id; no action exactly when the requested state is the slot's state; template errors propagate; any action comes with the event's template and a configuration that has `id`, `url` and `type`; disconnect only on unsubscribe |
| Resolver.IncompleteConfigRejected | python/ccxt/async_support/base/exchange.py:472-473 | a configuration lacking `id`, `url` or `type` is an ExchangeError |
| Resolver.ConnectTypesConnect | python/ccxt/async_support/base/exchange.py:474-501 | signalr, ws-io, pusher and ws give a plain connect with `onconnect`; unknown types are NotSupported; only ws-s gives other actions |
| Resolver.StreamSubscribe | python/ccxt/async_support/base/exchange.py:502-515 | subscribing on ws-s reconnects with the URL of every active pair of the configured connection followed by the new pair; KeyError when that connection has no context |
| Resolver.StreamUnsubscribe | python/ccxt/async_support/base/exchange.py:516-536 | unsubscribing on ws-s drops exactly that pair; it disconnects with `always` exactly when no other pair is active, and otherwise reconnects with the URL of the remaining pairs |
| Resolver.ValidEvent | python/ccxt/async_support/base/exchange.py:333-334 | no event is declared without `events`, and a declared event implies a non-empty `events` map |
| Resolver.FindSymbol | python/ccxt/async_support/base/exchange.py:914-919 | the market's symbol for a known id, otherwise the id itself |
| Resolver.FindPair | python/ccxt/async_support/base/exchange.py:517-521 | the search loop stops at the first entry for the pair, or at the end, and finds the same index as `PairIndex`; the resolver itself uses the function form `PairIndex` |
| Resolver.RemoveFirstExact | python/ccxt/async_support/base/exchange.py:517-521 | on a list without repeated pairs, deleting the first match removes that pair and keeps every other entry |
| Resolver.ConxidTemplateAgrees | python/ccxt/async_support/base/exchange.py:437-458 | the connection id's template and the resolver's template are the same whenever both exist |
| Resolver.FindSymbolRoundTrip | python/ccxt/async_support/base/exchange.py:914-919 | for consistent market indexes, the symbol found for a known id maps back to that id, and a known symbol's id maps back to the symbol |
| Subscriptions.Initialize | python/ccxt/async_support/base/exchange.py:686-702 | signalr, ws and ws-s get new connection info that is neither authenticated nor ready; any other type is NotSupported |
| Subscriptions.ConnectTypesBeyondInitialize | python/ccxt/async_support/base/exchange.py:695-702 | ws-io and pusher are connect types for the resolver, yet initializing them is NotSupported |
| Subscriptions.FirstFailure | python/ccxt/async_support/base/exchange.py:603-606 | the connections attempted before the first failing one all succeeded |
| Subscriptions.FlushConnectsOnce | python/ccxt/async_support/base/exchange.py:601-608 | a flush connects each queued id at most once, only queued ids, and every queued id when nothing fails |
| Subscriptions.Exchange.ConnectOne | python/ccxt/async_support/base/exchange.py:604-606 | one queued connection: a marked entry resets its context to `AfterReset`, an unmarked one leaves the store alone; then it is connected and logged |
| Subscriptions.Exchange.ConnectDelayed | python/ccxt/async_support/base/exchange.py:601-608 | queued ids are connected in insertion order until the first failure, whose error is returned; the map is emptied in every case; without reset marks, the store is unchanged |
| Subscriptions.SettleOnce | python/ccxt/async_support/base/exchange.py:747-749 | only a pending future takes the new result; settled ones and all others are unchanged |
| Subscriptions.SettleFirstWins | python/ccxt/async_support/base/exchange.py:748-749 | a second settlement of a settled future changes nothing |
| Subscriptions.Exchange.OnTimeout | python/ccxt/async_support/base/exchange.py:747-749 | the timer fails the future with a TimeoutError for its scope unless it is already settled |
| Subscriptions.AckFlags | python/ccxt/async_support/base/exchange.py:836-847 | an acknowledgement raises KeyError (changing nothing) exactly when it must write a slot that is missing; otherwise subscribed becomes true exactly for a successful subscribe, subscribing becomes false, params become the request's or `{}`, the future is settled, and every other slot reads as before; a failed unsubscribe touches only its future |
| Subscriptions.LateAck | python/ccxt/async_support/base/exchange.py:837-847 | a subscribe acknowledgement after the future was settled still rewrites the flags but leaves every future unchanged |
| Subscriptions.AckAllKeepsSettled | python/ccxt/async_support/base/exchange.py:841-847 | running any listeners never changes a future that was already settled |
| Subscriptions.Exchange.Acknowledge | python/ccxt/async_support/base/exchange.py:879-887 | the store and futures after one listener run (`wait4obunsubscribe` or its subscribe twin) are exactly those `Ack` gives, and nothing else changes |
| Subscriptions.Exchange.Dispatch | python/ccxt/async_support/base/exchange.py:835-836 | the `i`-th once-listener of the nonce is removed before it runs, and then it changes the store and futures exactly as `Ack` does |
| Subscriptions.Exchange.Emit | python/ccxt/async_support/base/exchange.py:835-836 | emitting a nonce runs its once-listeners in registration order, as `AckAll` describes, removing each before it runs; a raising listener stops the rest, which stay registered |
| Subscriptions.FirstInvalid | python/ccxt/async_support/base/exchange.py:862-864 | every request before the first invalid one names a declared event (wsconf has `events` and the event is in it), and the one at that position does not |
| Subscriptions.Exchange.CheckAll | python/ccxt/async_support/base/exchange.py:813-815 | the validation loop raises ExchangeError for the first undeclared event, otherwise passes |
| Subscriptions.Exchange.CloseConnection | python/ccxt/async_support/base/exchange.py:557-561 | a connection is closed when there is one; a missing one is passed over |
| Subscriptions.Exchange.PrepareSlot | python/ccxt/async_support/base/exchange.py:552-555 | afterwards the event's table and the symbol's slot exist; a slot it creates is fresh (not subscribed, not subscribing, no params, empty data), as `_contextResetSymbol` makes it; an existing slot leaves the store unchanged; other contexts are untouched |
| Subscriptions.Exchange.Reopen | python/ccxt/async_support/base/exchange.py:556-566 | reconnect: an existing connection is closed; the slot is reset when asked (not delayed and `onreconnect`) and otherwise keeps the event tables; opening succeeds exactly for the types `_websocket_initialize` can open, storing the new connection info, and otherwise fails with NotSupported |
| Subscriptions.Exchange.Refresh | python/ccxt/async_support/base/exchange.py:567-576 | connect: an active connection is left alone with store and log unchanged; a missing or inactive one is closed if present, the context is reset (so the slot is inactive), and opening succeeds exactly for the types that can be opened, storing the new info |
| Subscriptions.Exchange.Drop | python/ccxt/async_support/base/exchange.py:577-588 | disconnect: an existing connection is closed and its context reset, a missing one leaves the store as it was; a delayed id leaves the delayed map |
| Subscriptions.Exchange.Activate | python/ccxt/async_support/base/exchange.py:590-597 | a delayed connection is queued once with no reset mark (an existing entry is kept); otherwise it is connected now |
| Subscriptions.Exchange.Apply | python/ccxt/async_support/base/exchange.py:549-599 | a disconnect returns the id and drops it from the delayed map when delayed; any other action that succeeds leaves the slot present and queues the id once when delayed, or, when not delayed, has connected it with a successful, logged connect; a successful reconnect stores the initialized connection info; a failing connect or reconnect fails with NotSupported for the connection type or, when not delayed, with the connect's error; a request that is not delayed never touches the delayed map |
| Subscriptions.Exchange.EnsureConxActive | python/ccxt/async_support/base/exchange.py:540-599 | an error from the connection id changes nothing, and one from the resolver keeps only the context creation; with no action, only the context creation happens; a disconnect returns the id and, when delayed, drops it from the delayed map; other successful actions leave the slot present and, when delayed, queue the id once; on subscribe, success means the slot exists |
| Subscriptions.Exchange.Register | python/ccxt/async_support/base/exchange.py:832-836 | appends a pending future and a listener registered under the nonce |
| Subscriptions.Exchange.Settle | python/ccxt/async_support/base/exchange.py:849-851 | an answer runs the nonce's listeners, and the store and futures are what they leave, with the timer settling the future only if it is still pending; silence leaves the store alone and the timer settles the future; either way it ends settled and no future settled before changes |
| Subscriptions.Exchange.AwaitAck | python/ccxt/async_support/base/exchange.py:832-851 | one request takes the next nonce, registers its future, and sends; a failed send is returned; otherwise the request passes exactly when its future resolved, and then its slot is present and not subscribing, subscribed with the request's params after a subscribe, unsubscribed with empty params after an unsubscribe |
| Subscriptions.Exchange.SubscribeAll | python/ccxt/async_support/base/exchange.py:811-851 | an invalid batch changes nothing; success means the delayed map was flushed and every request's future resolved; settled futures stay settled |
| Subscriptions.Exchange.UnsubscribeOne | python/ccxt/async_support/base/exchange.py:867-891 | one request of the batch: on success exactly one new future was registered and it resolved, and the request's slot is present, not subscribed and not subscribing; settled futures stay settled |
| Subscriptions.Exchange.UnsubscribeAll | python/ccxt/async_support/base/exchange.py:860-894 | an invalid batch changes nothing; after validation the delayed map is always flushed and emptied; success means every request's future resolved; settled futures stay settled |

## Left out

- Awaiting `load_markets()` and writing `verbose` and `proxies` into the connection configuration: neither affects the decisions modelled.
- The `_websocket_on_init` hook, which may rewrite the configuration: the model passes the resolver's configuration through unchanged.
- `websocket_connect` and the connection object's event handlers (open, message, pong, close, error, the ready handshake): the outcome of a connect is an environment function, and each connect is logged.
- The asyncio event loop: the exchange's answer to a request is an environment function that gives either a response or silence. Silence settles the future by the timer. For a request whose send failed, the timer's later firing is not modelled.
- Subscribe or unsubscribe messages for nonces other than the one being awaited are not modelled.
- A raising once-listener's exception is reported by `Subscriptions.Exchange.Emit`, but the surrounding message handler is not modelled. The awaiting request then falls through to its timer.
- The ready and auth accessors (`_contextIsConnectionReady` and its three siblings), `websocketClose`, `websocketCloseAll`, `websocketCleanContext` and `websocketRecoverConxid`: they are beyond the four modelled parts.
- `_cloneOrders`: it is beyond the four modelled parts.
- The single-request wrappers `websocket_subscribe` and `websocket_unsubscribe`. They delegate to the batch operations with a one-element batch.
- Prices and amounts are reals, not binary floats. Equality with 0 is exact.
- `parse_bid_ask` is an environment function returning a level or an error. The merge stores the parsed level, so the aliasing between the list entry and the caller's `bidAsk` is not modelled.
- The string `str(oid)` used as the event name is the nonce itself.
- Subscriptions.Exchange.Apply: its contract does not give the whole new contexts, nor the connection info after a `connect` action; `Subscriptions.Exchange.Refresh` states that info per branch. It also does not give the log beyond the final connect.
- Subscriptions.Exchange.EnsureConxActive: its contract gives the new store only for the error and no-action paths. For actions it states the delayed map, the slot's presence and the returned id, but not the whole new contexts.
- Subscriptions.Exchange.SubscribeAll: its contract does not state the store on failure paths after validation, nor the log of sends. It does not state the subscribing marking set while slots are prepared, nor each slot's final state; a later acknowledgement may rewrite a slot, so the per-slot state is stated at each acknowledgement, by `Subscriptions.Exchange.AwaitAck`.
- OrderBook.CloneOrderBook: the clone is modelled as a value, but the source copies only the outer side lists and shares the inner `[price, amount]` lists with the original. Aliasing is not modelled.
- OrderBook.PriceLevels.UpdateBidAskDiff: the source edits the amount of a shared inner level list in place, which is also visible through a clone. The model replaces the level in its own list instead.
- Resolver.ValidEvent: its contract states only consequences of the test; the exact condition, `events` present and the event one of its keys, is the predicate itself.
- Subscriptions.Exchange.UnsubscribeAll: its contract states neither the store nor the log. A later acknowledgement in the batch may rewrite a slot, so each slot's state is stated at its acknowledgement, by `Subscriptions.Exchange.AwaitAck` and `Subscriptions.AckFlags`, and the unconditional flush by the `delayed == []` clause.
- Markets whose `symbol` field is missing, in `_websocket_find_symbol`: markets are records that always carry an id and a symbol.
