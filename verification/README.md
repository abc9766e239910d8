# Gateway feeds, charts and registries

This project models what the gateway computes and publishes by itself, and proves properties of
that model with Dafny 4.11. Verify it with `dafny verify dfyconfig.toml`.

- **Order-book feed** (`Delta`, `Book`, `Feed`, `FeedRuns`, `FeedLogs`, `BookEvents`, `MarketRuns`, `MarketPrices`,
  `PromptEvents`, `Counterexamples`). Per instrument the
  gateway stores a record with three views of the book: raw, 100ms and agg2. Each handler diffs a
  fresh snapshot against its own view, publishes `new`, `change` and `delete` rows, adds deletes it
  infers from the order event, and stores the new view. A client that applies the rows should hold
  the book. `Delta` says what one message does to any client; `FeedRuns` gives, for every run, the
  exact difference between such a client and the stored view; `FeedLogs` says from the inputs alone
  what each log holds, when the ticker publishes and which action a row names; `BookEvents` starts from the open
  orders in the database and gives, for each kind of event, the exact condition under which the
  message is right; `MarketRuns` puts these together over whole runs of the market, in which
  handlers may lag behind the database, and `MarketPrices` price by price; `PromptEvents` returns to
  the orders when events do not interfere; `Counterexamples` gives inputs and runs for the failures.
- **Candle chart** (`Candles`, `CandleTheorems`): the bucket loop, the assignment of trades, the
  open, high, low, close, cost and volume series.
- **100ms batching** (`Batching`, `BatchSteps`, `TickerFlag`): the read-send-reset drainer of orders and trades,
  and the clear-then-read drainer of tickers, as steps between lock acquisitions.
- **Connections** (`BookSockets`, `OrderConnections`, `Registry`): subscription indexes and close
  handlers, in-place removal from slices that several handlers share, and the registry of pending
  requests.
- **Rows and names** (`MarketData`, `Naming`, `NameTheorems`): the FIX row merge, request keys and instrument names.

Objects the gateway updates in place are classes; their methods are tied to the specification
functions, and the lemmas about whole runs speak of those functions. One handler call is one step of
the feed, and one call one step of the registry: the code holds no lock across them, so interleavings
inside one such call are not modelled. Saving an event to the database and handling it are separate
steps; so are the two critical sections of an order connection's close handler, and each critical
section of the batching. The database is taken to be sound: what is open of an order is positive,
and what is filled is not negative. Prices are integers, in the ticks of 10^-6 that the `%f` map keys
distinguish; amounts and costs are reals. A snapshot argument is the answer of the database query.

## What turned out not to hold

Each of these is a property the feed, the drainers, the connections or the registry suggest. For
each there is a failing input or run, and the exact condition under which it holds.

- A client that applies every message does not always hold the book of the last query: a handler
  queries a database that may be ahead of its event, and one order event's message names at most one
  level (`TwoLevelsVanish`). Two unfilled cancels saved before either is handled leave the client
  with a level that is gone, until it is quoted again (`LaggingCancels`). Handled promptly, but both
  between two ticks, they leave a 100ms client so (`CancelsBetweenTicks`). On either channel the
  client holds the book exactly while each message infers just the levels that vanished since the
  channel's query before (`ClientHoldsBook`), and after any run exactly if, price by price, no false
  delete stands and no vanishing went unannounced (`HoldsPriceByPrice`). While each event is alone in
  its effect on the levels, that is a condition on its orders (`HoldsWhenAlone`).
- A cancel is published exactly only if what remains on its level equals the amount it had filled
  just when nothing remains (`CancelExact`): a partly filled order alone on its level is never
  announced as gone (`CancelFails`). The same holds of batches on one instrument (`OneInstrumentRight`, `BatchFails`).
- A taker filled on arrival is published exactly only if all its makers were at its limit price, or
  it emptied no level and the level at its limit does not hold just its amount; a taker filled in
  part, or cancelled at once, only if it emptied no level (`ArrivalExact`, `FillFails`).
- A price edit always deletes the old level, although other orders may remain there (`EditExact`,
  `EditFails`).
- The batch handler's maps are shared by all instruments of the batch. An entry is one instrument's
  sum exactly if what the others cancelled on the level since it was last overwritten makes up for
  what that instrument had cancelled there before (`OwnSumsIff`, `BatchesMix`); what this means for a
  message is part of `BatchExact`.
- A subscription that seeds an empty view does not publish the seeded levels, so a client that
  followed the channel before keeps agreeing only if the snapshot is empty (`SeedingFollowers`,
  `SecondSubscriber`).
- Elements of the 100ms buffers can be lost or sent twice: exactly when a reset or a second creation
  finds elements no drainer has read, or a read finds elements one has (`OnceEach`). One drainer
  loses what is appended between its read and its reset (`AllEmitted`, `LateAppend`); two producers
  that both find the key missing lose one element and send another twice (`TwoCreators`).
- Trades exactly on a bucket boundary appear in no candle (`LosesBoundaries`, `BoundaryTrade`).
- The FIX merge returns before it sums when its last row opens a new key (`MergedTotal`,
  `FreshLastRow`).
- A client closed between its subscription and its handler's registration stays subscribed while it
  is left alone (`ClosedTooEarly`): then a closed client stays on exactly the channels it was on
  without a handler (`CloseErases`).
- Close handlers of one order key that overlap corrupt its list: two clients that close together
  leave a third twice in the list, and its own close then panics (`ClosingTogether`); a client that
  registers in between is lost (`RegistrationLost`). The list is right exactly while no handler
  writes back from a slice that is stale (`ListRight`).
- Two clients that use one request id at once: the second takes over the first one's entry, and can
  receive its reply (`SharedId`). A request is answered exactly if no other call touches its key on
  its way and its user id is not empty (`RequestAnswered`).
- A send to an empty record, which moving an absent key leaves behind, crashes (`CrashExact`): a
  request that times out before it is moved leads there (`LateMove`).
- A strike is checked as an integer and kept as a float. A printed name gives its instrument back
  exactly if the strike is a float below 2^63 (`NameRoundTrip`, `UnevenStrike`), and printing what a
  name gave and parsing it again fails exactly for the last 512 strikes that parse
  (`ParsedFixedPoint`, `LargestStrike`).

The book query filters on underlying, expiry, strike and side, but not on the contract
(`internal/repositories/order.go:996-1003`), so calls and puts of one strike share a book. The model
follows the code: an `Order` carries no contract, a database holds the orders of one strike, and an
event of the other contract changes the book without a message to this feed.

## Model

| member | source | states |
|---|---|---|
| Delta.DiffSide | internal/orderbook/service/orderbook.go:180-209 | the loop yields the rows and view that `DiffAt`, `DiffViewAt` and `DiffActions` characterise and the set of prices given a row; each row has a quoted amount and the action its price calls for |
| Delta.DiffAt | internal/orderbook/service/orderbook.go:180-242 | for any stored view, any snapshot with distinct prices and any client, applying the rows sets each written price to its quoted amount, removes each erased one, and leaves every other price as it was; rows exist for exactly those prices |
| Delta.DiffViewAt | internal/orderbook/service/orderbook.go:180-242 | the new view is the quoted amount wherever that is non-zero or already stored, and nothing else |
| Delta.DiffActions | internal/orderbook/service/orderbook.go:180-209 | a row is `new` if and only if its price is not stored, `change` if and only if it is stored with another amount and something is left, and `delete` if and only if nothing is left |
| Delta.RowsInOrder | internal/orderbook/service/orderbook.go:180-209 | rows come in the order of the levels they are for |
| Delta.GapStep | internal/orderbook/service/orderbook.go:701-919 | for any client, one message takes its exact difference from the view (stale, missing and wrong prices) to the computed next difference from the new view |
| Delta.FollowsExactly | internal/orderbook/service/orderbook.go:175-345 | a client equals the view if and only if nothing is stale, missing or wrong; it holds every stored level if and only if nothing is missing or wrong |
| Delta.ExactIffAnnounced | internal/orderbook/service/orderbook.go:243-322 | without zero amounts, an exact client stays exact if and only if the inferred deletes are precisely the vanished prices |
| Feed.InferSingle | internal/orderbook/service/orderbook.go:244-322 | the rows added for a cancel, a fill or an edit are one delete each for exactly the levels inferred gone |
| Feed.InferBatch | internal/orderbook/service/orderbook.go:564-598 | in whatever order the map is walked, one delete for each cancelled level whose whole stored amount was cancelled and that got no row yet |
| Feed.CollectCancelled | internal/orderbook/service/orderbook.go:407-460 | the loop builds the two maps that all instruments of the batch share |
| Feed.InstrumentFeed.HandleConsumeBook | internal/orderbook/service/orderbook.go:324-392 | consecutive ids, the raw view and log updated from the event, the ticker's entry set, the other two views kept |
| Feed.InstrumentFeed.HandleConsumeBookCancel | internal/orderbook/service/orderbook.go:462-677 | one such step with the shared cancelled sums as cause when the batch names the instrument, however often, and none otherwise |
| Feed.InstrumentFeed.HandleConsumeBookAgg | internal/orderbook/service/orderbook.go:701-919 | publishes under the stored ids and changes the agg2 view and log only; does nothing without a record |
| Feed.InstrumentFeed.Handle100msTick | internal/orderbook/service/orderbook.go:935-1224 | publishes one message, with the id and time of the record, whenever the polled id moved and there is a record, naming the last published id or the snapshot's; otherwise nothing; changes the 100ms view and log only |
| Feed.InstrumentFeed.SubscribeBook | internal/ws/service/orderbook.go:182-345 | a `new` row for each level under the id and time of the record, naming no predecessor, and the cases in which the snapshot becomes the stored view |
| FeedRuns.RunChained | internal/orderbook/service/orderbook.go:324-345 | in every run raw ids are consecutive and each names its predecessor, each later 100ms message names the 100ms message before it, the first names no later id than its own, and every 100ms id is a raw id |
| FeedRuns.StepFrame | internal/orderbook/service/orderbook.go:899-910 | a handler changes only its own channel's view and log; with a record stored only the raw handlers change the ids |
| FeedRuns.FollowerLedger | internal/orderbook/service/orderbook.go:175-345 | in every run, seeding subscriptions included, and on every channel, a client that starts with any book and applies all messages differs from the stored view exactly as the ledger kept from the events says |
| FeedRuns.ReplicaExact | internal/orderbook/service/orderbook.go:175-345 | at the end of every run the client equals the stored view if and only if the ledger is empty, and contains it if and only if the ledger shows nothing missing or wrong |
| FeedRuns.ReplicaContains | internal/orderbook/service/orderbook.go:564-598 | in a run with no inferred delete of a listed level and no level seeded without a message, a client that holds every stored level with the stored amount goes on to do so |
| FeedRuns.SeedingFollowers | internal/ws/service/orderbook.go:218-324 | a seeding subscriber holds exactly the stored view; a client that was already exact stays so if and only if the snapshot is empty |
| FeedRuns.JoiningFollower | internal/ws/service/orderbook.go:218-324 | a subscriber whose call does not seed joins with the difference between its snapshot and the stored view, price by price; exactly if and only if they agree |
| FeedLogs.RunLogged | internal/orderbook/service/orderbook.go:324-345 | in every run the raw log has one message for each order event, with its time and the next id; the record carries the id and time of the last change and the time of the one before, and the ticker's entry the cause of the last order event |
| FeedLogs.TickCatchesUp | internal/orderbook/service/orderbook.go:957-1224 | in every run a tick publishes if and only if there is a raw message and the last 100ms message has not its id; it then has the id and time of the last raw message and names the 100ms message before it, or the first time the last snapshot answered; after a tick the ids agree |
| FeedLogs.RawAndGrouped | internal/orderbook/service/orderbook.go:324-392 | in every run an order event adds one raw message with its time and the next id; the agg2 handler, once there is a record, one message with the id and time of the last change |
| FeedLogs.SubscriptionStores | internal/ws/service/orderbook.go:182-325 | in every run a subscription makes its snapshot the stored view of its channel if and only if there is no record, or, off the raw channel, that view is empty; nothing else changes |
| FeedLogs.RowsTell | internal/orderbook/service/orderbook.go:180-322 | in every run a client that equals the stored view hears `new` exactly for prices it lacks, `change` for prices it shows with another amount, and `delete` for prices it shows, inferred deletes included |
| FeedLogs.MessageCause | internal/orderbook/service/orderbook.go:1000-1190 | in every run a message comes from the stored view, the snapshot of its step and its cause; a tick's cause is that of the last order event |
| Book.ReplaceAllSum | internal/repositories/order.go:1013-1030 | rewriting order records moves every level's sum by exactly the sum of their shifts |
| Book.AfterSum | internal/repositories/order.go:1013-1030 | rewriting and adding orders moves every level of the aggregated book by exactly what they move and bring |
| Book.BookAt | internal/repositories/order.go:992-1030 | with open amounts positive, a price is in the aggregated book exactly when its open amounts add up to more than zero |
| Book.BookGroups | internal/repositories/order.go:992-1030 | for any database the query lists the prices of the open and partly filled orders of the side updated before the time, each with their amounts less what is filled |
| BookEvents.DeltaExact | internal/orderbook/service/orderbook.go:175-345 | whatever happened between two queries, the new view is the new book, and the message is exact if and only if the inferred deletes are the levels that vanished |
| BookEvents.CancelExact | internal/orderbook/service/orderbook.go:244-269 | a single cancel is exact if and only if the amount left on its level equals its filled amount just when nothing is left |
| BookEvents.EditExact | internal/orderbook/service/orderbook.go:295-322 | an edit of price, amount or both is exact if and only if the price did not change or the order was alone on its old level |
| BookEvents.ArrivalExact | internal/orderbook/service/orderbook.go:244-294 | an arriving order that keeps resting is published exactly if and only if it emptied no level; a fully filled one if and only if all makers were at its limit, or it emptied no level and the level at its limit does not hold its amount; one cancelled at once if and only if it emptied no level and its own level does not hold its amount |
| BookEvents.SharedSumsAt | internal/orderbook/service/orderbook.go:407-460 | for any batch over any instruments, an entry of the shared maps is the sum of what was cancelled on its level since the last order there that was the first of its instrument |
| BookEvents.OneInstrumentSums | internal/orderbook/service/orderbook.go:407-460 | for a batch on one instrument the maps hold the sum of cancelled amounts per level and a key for each such level |
| BookEvents.OwnSumsIff | internal/orderbook/service/orderbook.go:404-424 | an entry is the sum of one instrument if and only if that instrument cancelled there, if any did, and the others cancelled there since the last overwriting what it had cancelled before |
| BookEvents.BatchExact | internal/orderbook/service/orderbook.go:403-460 | for every batch over any instruments, the rows turn an old book into exactly the new one if and only if, on each listed level, the shared entry is the stored amount where the batch emptied the level, and is not where it left the level alone |
| BookEvents.OneInstrumentRight | internal/orderbook/service/orderbook.go:403-460 | for a batch on one instrument that is so if and only if every cancelled order on an emptied level was unfilled |
| BookEvents.BatchRowsOnce | internal/orderbook/service/orderbook.go:499-598 | no price appears twice on a side of a batch's message |
| MarketRuns.ClientHoldsBook | internal/orderbook/service/orderbook.go:130-392 | in every run of saves, of this contract or another, of handlers that run late and in any order, and of ticks and subscriptions: on the raw and the 100ms channel the stored view is always the book of the channel's last query, and a client that applies every message holds that book throughout if and only if each message infers exactly the levels that vanished since the query before, and no subscription seeds a book with levels |
| MarketRuns.ViewIsPresent | internal/orderbook/service/orderbook.go:957-1224 | in every run of the market a tick publishes if and only if the 100ms channel is behind the raw one, and the stored 100ms view is then the book in the database; after handling an event the raw view is |
| MarketPrices.ToldExact | internal/orderbook/service/orderbook.go:180-322 | after every run a client holds, at each price, what the messages last wrote there unless one deleted it since |
| MarketPrices.HoldsAsTold | internal/orderbook/service/orderbook.go:180-322 | after every run the client holds the book of the last query if and only if it was last told of each price what the book lists |
| MarketPrices.HoldsPriceByPrice | internal/orderbook/service/orderbook.go:180-322 | after every run without a seeding that is so if and only if, at each price, no false delete stands and no vanishing has gone unannounced since the price was last listed |
| MarketRuns.TwoLevelsVanish | internal/orderbook/service/orderbook.go:244-322 | when two levels vanished since the previous query, no message of a single order event is right |
| MarketRuns.SavedSince | pkg/kafka/consumer/consumer.go:64-80 | in every run the database differs from what a channel's last query saw by exactly what was saved since |
| PromptEvents.AloneRight | internal/orderbook/service/orderbook.go:175-345 | whatever else was saved since the previous query without emptying or refilling a level beside the event, its message is right if and only if the event meets its own condition on the orders |
| PromptEvents.HoldsWhenAlone | internal/orderbook/service/orderbook.go:130-392 | in a run in which each published event is alone in that sense, the client of the channel holds the book throughout if and only if every event meets its condition, and no subscription seeds a book with levels |
| PromptEvents.OnlyEventAlone | pkg/kafka/consumer/consumer.go:64-80 | an event that is the only one saved since the previous query is alone |
| PromptEvents.HoldsWhileUnfilled | internal/orderbook/service/orderbook.go:403-677 | in such a run, while orders only arrive and are cancelled unfilled, singly or in batches, the client holds the book throughout |
| Counterexamples.LaggingCancels | pkg/kafka/consumer/consumer.go:64-80 | two unfilled cancels saved before either is handled: the client ends with a level although the book and the stored view are empty |
| Counterexamples.CancelsBetweenTicks | internal/orderbook/service/orderbook.go:957-1001 | the two cancels handled promptly between two ticks: the raw client holds the book throughout, the 100ms client ends with a level of an empty book |
| Counterexamples.SecondSubscriber | internal/ws/service/orderbook.go:182-345 | a second 100ms subscriber before the first tick seeds the stored view, and the first one does not learn of it |
| Counterexamples.CancelFails | internal/orderbook/service/orderbook.go:244-269 | a partly filled order alone on its level, cancelled: the client keeps the level |
| Counterexamples.BatchFails | internal/orderbook/service/orderbook.go:564-598 | the same order cancelled in a batch |
| Counterexamples.FillFails | internal/orderbook/service/orderbook.go:270-294 | a taker that fills the only maker at a better price: the client keeps the level |
| Counterexamples.EditFails | internal/orderbook/service/orderbook.go:295-322 | an order moved off a level it shares: the client loses the level |
| Counterexamples.BatchesMix | internal/orderbook/service/orderbook.go:404-424 | two instruments on one level: the entry is 1 where the first instrument cancelled 2 |
| Candles.MapBuckets | internal/repositories/trade.go:1542-1572 | the loop ends with one bucket for a span of at most one width, otherwise floor(span/width)+1, each of that width from the start |
| Candles.BucketsCover | internal/repositories/trade.go:1542-1572 | buckets are contiguous and cover the span; the last starts at its end exactly when the span is two or more whole widths |
| Candles.InteriorsDisjoint | internal/repositories/trade.go:1591-1594 | no trade lies strictly inside two buckets |
| Candles.AssignTrades | internal/repositories/trade.go:1591-1609 | each bucket holds, as a multiset and in time order, the trades strictly inside it |
| Candles.Summarise | internal/repositories/trade.go:1649-1680 | open and close are prices at the earliest and latest time, low and high the extremes, cost and volume the totals, although the sums run over the re-sorted slice |
| Candles.BuildSeries | internal/repositories/trade.go:1611-1681 | all series have the length of the buckets; each candle summarises its bucket, and one without trades shows the open, high, low and close of the candle before it, or zeros, with zero cost and volume |
| Candles.GetTradingViewChartData | internal/repositories/trade.go:1511-1684 | invalid parameters, no data, or the chart of the mapped buckets, in exactly those cases; exactly twelve resolutions are accepted, and the ticks are that many minutes apart from the start until the end is reached |
| CandleTheorems.Resolutions | internal/repositories/trade.go:1519-1534 | exactly twelve texts are accepted: each is the printed number of its minutes, and "1D" is a day |
| CandleTheorems.TradedCandle | internal/repositories/trade.go:1643-1680 | told on the trades: a bucket with a trade strictly inside opens and closes at the price of an earliest and a latest one and spans the least to the greatest price; every bucket has the volume and cost of the trades strictly inside |
| CandleTheorems.CarriesForward | internal/repositories/trade.go:1615-1640 | a bucket that no trade lies strictly inside has the open, high, low and close of the nearest earlier bucket with such a trade, and zeros if there is none |
| CandleTheorems.Coherent | internal/repositories/trade.go:1611-1681 | in every candle, carried-forward ones included, open and close lie between low and high |
| CandleTheorems.VolumeWeighted | internal/repositories/trade.go:1668-1680 | with non-negative amounts the cost lies between low and high times the volume |
| CandleTheorems.Conserved | internal/repositories/trade.go:1591-1680 | volume and cost over the chart equal those of the trades within the buckets and on no boundary, each counted once |
| CandleTheorems.LosesBoundaries | internal/repositories/trade.go:1477-1482 | for the trades the query returns, the chart's volume and cost plus those traded at boundaries are those of all trades |
| CandleTheorems.BoundaryTrade | internal/repositories/trade.go:1591-1594 | a trade on the boundary of two buckets, whose chart shows no volume |
| Batching.RunLedger | internal/ws/service/order.go:133-144 | in every run with any number of producers and drainers, each place of the history was appended and read again as often as it was emitted, is in hand, lies unread in the buffer and left it unread |
| Batching.OnceEach | internal/ws/service/trade.go:169-222 | once nothing is in hand or unread, every place of the history was emitted exactly once if and only if no read found elements already read and no reset or creation found elements not yet read |
| Batching.BatchLedger | internal/ws/service/trade.go:196-226 | with one drainer nothing is read again, what was emitted is in order a subsequence of what was appended, and nothing appended once is emitted twice |
| Batching.AllEmitted | internal/ws/service/order.go:227-243 | with one drainer and an empty buffer, what was emitted is what was appended if and only if no reset found elements appended since the read |
| Batching.TwoCreators | internal/ws/service/order.go:133-144 | two producers can both find the key missing; then one element is lost and the other emitted twice |
| Batching.LateAppend | internal/ws/service/order.go:227-243 | one drainer loses an element appended between its read and its reset |
| BatchSteps.RunTold | internal/ws/service/order.go:133-144 | in every run the history, what each producer found, the buffer, each drainer's batch and what was emitted are what the steps alone say |
| BatchSteps.DrainerStarted | internal/ws/service/trade.go:169-194 | a put starts a drainer if and only if its producer had looked the key up before anything was put |
| BatchSteps.Round | internal/ws/service/order.go:227-243 | a drainer that waits can always read, send and reset, which emits exactly the buffer and empties it; over an empty buffer its read changes nothing |
| TickerFlag.NoMarkedSaveForgotten | internal/ws/service/orderbook.go:1067-1100 | for any number of producers and drainers, when the mark is clear and every drainer waits, some published snapshot reflects every marked save |
| TickerFlag.LastSnapshotCurrent | internal/ws/service/orderbook.go:1042-1057 | with one drainer it is the last published snapshot that does |
| TickerFlag.MarkedSaveReflected | internal/ws/service/orderbook.go:1067-1100 | told from the steps alone: once a save was marked, whenever the mark is clear and every drainer waits, some publication reflects that save and all before it |
| TickerFlag.Round | internal/ws/service/orderbook.go:1042-1057 | a waiting drainer that finds the mark can always clear it, read and publish the book as it is |
| BookSockets.BookSocket.Subscribe | pkg/ws/book.go:38-58 | the client joins those on the channel, whether it exists or not, other channels stay as they are, and the channel joins the client's list; a missing client changes nothing |
| BookSockets.BookSocket.Unsubscribe | pkg/ws/book.go:81-96 | the client is removed from every channel of its list, and the list is kept |
| BookSockets.BookSocket.BroadcastMessage | pkg/ws/book.go:99-110 | a message goes to each client on the channel exactly once |
| BookSockets.OnExactly | pkg/ws/book.go:38-96 | in every run a client is on a channel if and only if it subscribed there and no later step ran its handler for the channel or unsubscribed it |
| BookSockets.ListsKept | pkg/ws/book.go:52-56 | in every run a client's list holds what it subscribed to and its handlers what was registered, each as often and in order |
| BookSockets.RunCovered | pkg/ws/book.go:38-58 | in every run a client's list, and its registered or pending handlers, cover the channels that hold it |
| BookSockets.UnsubscribeErases | pkg/ws/book.go:81-96 | after any run, unsubscribing removes the client from every channel and no one else from any |
| BookSockets.StaysOn | pkg/ws/book.go:71-96 | while a client subscribes to nothing, it is on a channel at the end if and only if it was at the start and neither its handler for the channel ran nor it unsubscribed |
| BookSockets.CloseStarts | pkg/ws/client.go:262-272 | a close starts one run for each handler the client ever registered, none for another client, and takes nobody off by itself |
| BookSockets.CloseErases | pkg/ws/client.go:262-272 | in every interleaving that follows a close and runs its handlers in any order: the client stays on a channel if and only if it was on it and nothing took it off; only channels whose handler was not yet registered can be left, and, if it is left alone, exactly those without a handler are |
| BookSockets.ClosedTooEarly | pkg/ws/connection.go:154-159 | a client closed before its handler is registered stays subscribed |
| OrderConnections.Splice | pkg/ws/orders.go:44 | the slice expression shifts the rest of the slice down one place in the backing array and leaves the array beyond alone |
| OrderConnections.RemoveInPlace | pkg/ws/orders.go:39-46 | for any slice the loop panics if and only if the client stands in it twice and at its end; otherwise it leaves every element but the removed ones, in order, and copies of the last element behind |
| OrderConnections.SkimmedIsWithout | pkg/ws/orders.go:42-46 | the loop leaves the list without the client if and only if the client never stands twice in a row |
| OrderConnections.WithoutKeeps | pkg/ws/orders.go:30-53 | removal keeps the list duplicate-free and removes that client only |
| OrderConnections.EnrolledKeeps | pkg/ws/orders.go:57-91 | registration puts the client behind the others, keeps the list duplicate-free, and is undone by removal |
| OrderConnections.ConnectionList.RegisterOrderConnection | pkg/ws/orders.go:57-91 | the client is appended, and its handler registered, exactly when it was absent; in place while there is room, and otherwise in a new array |
| OrderConnections.ConnectionList.WriteBack | pkg/ws/orders.go:39-50 | the second one makes of the slice as fetched what the loop makes of it, in the shared array, and stores that, whatever the list is by then |
| OrderConnections.ListRight | pkg/ws/orders.go:30-53 | in every run of registrations and handlers side by side, the list is at every step the registrations without the closed clients, duplicate-free and without a panic, if and only if no handler writes back from a stale slice |
| OrderConnections.LiveExactly | pkg/ws/orders.go:30-91 | the clients the list should hold are, in every run, exactly those that registered and for which no handler has written back since |
| OrderConnections.AloneRight | pkg/ws/orders.go:33-50 | when nothing changes the list between the fetch and the write-back of any handler, it is right throughout |
| OrderConnections.SecondStale | pkg/ws/orders.go:33-50 | of two handlers that hold the current list for two of its clients, the second to write back finds its slice stale |
| OrderConnections.RegistrationLost | pkg/ws/orders.go:57-79 | after a registration, in place or not, a handler that fetched before it finds its slice stale |
| OrderConnections.ClosingTogether | pkg/ws/client.go:266-268 | two of three clients close together: the third stands twice in the list, and its own close panics |
| Registry.Protocols.RegisterProtocolRequest | pkg/protocol/protocol.go:99-126 | stores the request under its key, over any request already there, and says whether there was one |
| Registry.Protocols.UpgradeProtocol | pkg/protocol/protocol.go:128-143 | moves the entry to the new key, also when the old key is absent or the same |
| Registry.Protocols.DoSend | pkg/protocol/protocol.go:244-341 | answers and removes the entry under a key, sends nothing for an absent key |
| Registry.Protocols.RequestHelper | internal/ws/controller/ws.go:74-114 | the three outcomes of a request's entry and the registry each leaves behind |
| Registry.RunMatched | pkg/protocol/protocol.go:99-143 | in every run each entry is pending under its own key, and answered registrations are those with a response |
| Registry.ResponseLedger | pkg/protocol/protocol.go:244-341 | in every run registrations are responses plus pending, silent, overwritten, unregistered and dropped ones; none is answered twice, and each response goes to the connection that registered |
| Registry.TrackExact | pkg/protocol/protocol.go:99-143 | in every run, where a registration stands, if anywhere, is told by the calls since it was made |
| Registry.FateExact | pkg/protocol/protocol.go:99-143 | in every run a call gives a registration that stands under a key the fate the call has for it there, and one that ended keeps its fate |
| Registry.AnsweredIff | pkg/protocol/protocol.go:244-341 | in every run a send answers a registration, on its own connection and with the id of the key, if and only if the calls since it was made brought it to that key and its protocol has responses |
| Registry.RequestAnswered | internal/ws/controller/ws.go:80-114 | in every run, a request that is registered, moved and sent to is answered by that send, on its connection and with its id, if and only if its user id is not empty and no other call touched its key before or after the move |
| Registry.SharedId | internal/ws/controller/ws.go:80-88 | two requests under one id: the second overwrites the first and receives its reply |
| Registry.CrashExact | pkg/protocol/protocol.go:128-143 | in every run a step crashes if and only if it sends to a key to which a key without a request was moved and which no call touched since |
| Registry.LateMove | internal/ws/controller/ws.go:80-114 | a request answered before its move leaves an empty record, and the next send to its new key crashes |
| MarketData.MapMarketDataResponse | internal/fix-acceptor/ordermatch.go:1032-1050 | the loop with its early return yields the merge that `MergedRows` characterises |
| MarketData.SumAmount | internal/fix-acceptor/ordermatch.go:1061-1073 | each row gets the total of its key over the original rows |
| MarketData.MergedKeys | internal/fix-acceptor/ordermatch.go:1032-1059 | merged keys are distinct, the same as the input's, in order of first occurrence |
| MarketData.MergedRows | internal/fix-acceptor/ordermatch.go:1032-1073 | on any input: one row for each row that is the first with its instrument, price and side, in order and with its other fields; its amount is the sum over all rows with these three, or its own if the last of several rows is such a first one |
| MarketData.SideRowsAt | internal/fix-acceptor/ordermatch.go:840-861 | the rows of a side are one for each level, in order, with its price and amount and marked bid or ask |
| MarketData.MergedTotal | internal/fix-acceptor/ordermatch.go:1032-1073 | for positive amounts the grand total is conserved if and only if the last row repeats a key or no key repeats |
| MarketData.FreshLastRow | internal/fix-acceptor/ordermatch.go:1032-1050 | two rows of one key before a fresh row: the total drops from 3 to 2 |
| MarketData.MergedAmounts | internal/fix-acceptor/ordermatch.go:1061-1073 | when it sums, each amount is its key's total; when it returns early, the first row's |
| MarketData.BookUntouched | internal/fix-acceptor/ordermatch.go:840-873 | rows built from a book with distinct prices per side go through the merge unchanged |
| Naming.KeyRoundTrip | pkg/utils/string.go:17-34 | parsing a key gives its id for every 64-bit id and user id, and the user id exactly when that has no dash |
| Naming.KeyOverflow | pkg/utils/string.go:21-34 | an id too large for 64 bits is read as the largest, and the user id is dropped |
| Naming.KeyInjective | pkg/utils/string.go:17-19 | different pairs have different keys |
| Naming.ReplyCorrelates | internal/engine/service/engine.go:276-277 | the key recomputed from a printed request id is the registered one, and its reply carries that id |
| Naming.NearestIsFloat | pkg/utils/string.go:104-107 | the parsed strike is a float within half a spacing of the text, and rounding it again changes nothing |
| Naming.NameRoundTrip | pkg/utils/string.go:79-122 | parsing the printed name of an instrument in capitals gives it back if and only if its strike is a float below 2^63, as every strike up to 2^53 is |
| Naming.ParsedFixedPoint | pkg/utils/string.go:79-122 | every name that parses gives an instrument without a small letter and with the rounded strike, whose printed name parses to it again if and only if the strike was not one of the last 512 below 2^63 |
| Naming.LargestStrike | pkg/utils/string.go:100-107 | the largest strike that parses rounds to 2^63, and the name printed for it is refused |
| Naming.UnevenStrike | pkg/utils/string.go:100-107 | strike 2^53 + 1 is read as 2^53 |
| NameTheorems.CaseBlind | pkg/utils/string.go:86-110 | two texts of one length that agree at each place up to the case of an ASCII letter parse to the same result |
| NameTheorems.FourPieces | pkg/utils/string.go:79-83 | a text without exactly three dashes is refused as no instrument; with three it is four pieces |
| NameTheorems.PieceByPiece | pkg/utils/string.go:85-122 | four pieces are refused for the currency, then the strike, then the contract, each in exactly its case; otherwise the first two come in capitals, the strike as the nearest float, and the last piece, C or P in either case, names the contract |
| NameTheorems.StrikeReads | pkg/utils/string.go:100-107 | a piece is read as a strike if and only if it writes a number below 2^63, with any zeros before it and perhaps a plus sign |
| NameTheorems.Prefixes | internal/engine/service/engine.go:276-277 | how a prefix sets the base of an order id, in either case |
| NameTheorems.OneName | pkg/utils/string.go:79-122 | BTC-30JUN23-20500-C is printed and read, and read in small letters, as that call |

## Left out

- Kafka, Redis, MongoDB, HTTP, WebSocket and FIX transport; the stores are fields and the book query's answer is an argument.
- The agg2 grouping of the database: its snapshot is an arbitrary list of levels with distinct prices, so the theorems that start from the database are about the raw and the 100ms channel.
- MarketPrices.HoldsPriceByPrice: a seeding lists levels without a message, and a client's stale amount can then be right by chance; for such runs there is `MarketPrices.HoldsAsTold`.
- BookEvents.ArrivalExact: an order that did not rest in the book before; an order edited into a match is covered by `BookEvents.DeltaExact` and `MarketRuns.ClientHoldsBook` only.
- PromptEvents.HoldsWhenAlone: when events interfere on the levels, the condition on each one's orders gives way to the levels that vanished between two queries, of `MarketRuns.ClientHoldsBook`.
- Failed reads of the store, and the gap between storing a record and setting the ticker's entry inside one handler call.
- The user-changes drainer, which keeps two such buffers, and the user-order cancel fan-out, which compares an object id with a string.
- OrderConnections.ListRight: one list for each order key; the table from keys to lists is left out, as lists of different keys share nothing.
- Registry.RequestAnswered: requests are moved only as `requestHelper` moves them; for any moves there is `Registry.AnsweredIff`.
- Registry: timeouts are sends like any other; the timers themselves, the channel results and the metrics are left out.
- Naming: strikes with decimals do not parse. The expiry check, underscores in numbers read with base 0, and case mapping outside ASCII are left out.
- The library sort is any sort: `Candles.SortSlice` promises an ordered permutation and nothing about ties, and works on a sequence the caller stores back.
- Rounding of amounts and prices, decimal parsing of amounts, best bid and ask, implied volatility, greeks, limits, tokens and logging.
