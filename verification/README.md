# Commerce platform: verified model

A Dafny 4.11 model of the parts of a microservice shop that carry money, stock and events between services,
with proofs of what they promise together.

* **Event pipeline.** Product changes and their outbox rows (`Catalog`), the outbox relay (`Outbox`,
  `OutboxSafety`), the consumer loop with retries, holding and parking (`Consumer`), the search index
  (`Search`), all of them as one step system that ends in index convergence (`Pipeline`), and the same under the
  consumer loop's own computation (`IndexConsumer`).
* **Checkout saga.** Idempotency keys (`Idempotency`), reservations and stock (`Inventory`, `StockAccounting`),
  payments (`Payment`), orders (`Orders`, `OrderStore`), the orchestrator and the reconciler run call by call
  (`Saga`, `Checkout`), and every thread of them interleaved (`Compensation`, `CompensationLedger`); what each handler
  does to stock and payments, in figures (`Settlement`), and that every handler is a run of the interleaved saga
  (`HandlerRuns`).
* **Money.** Quotes (`Money`, `Pricing`, `Signature`), returns and refunds (`Returns`, `RefundConservation`), shop groups and
  fulfilment (`Groups`, `Fulfilment`), payouts (`Payout`).
* **Order lifecycle.** The interleaved saga and the returns desk together on the same orders and payments
  (`Lifecycle`).
* **Catalogue walk.** Page tokens (`Cursor`) and keyset pagination (`Pagination`).

`Base` and `Sorting` hold Go's integer arithmetic, sums, and what a sort determines.

## How it is built

What the source changes in place is a class whose methods are proved against functions on a value that stands
for its tables; each SQL transaction is one call, and one step. The theorems are lemmas over runs of those
functions, with crashes, failed calls, redeliveries and interleavings as choices of the environment:

* `OutboxRelay.DrainOnce`, `CatalogStore.WriteTx` and `SearchIndex.UpsertFromEvent` are tied to the step systems
  that `Pipeline` composes. `ConsumerLoop.Run` computes `Consumer.Polled`; `IndexConsumer` adds what its handler calls do
  to the index and shows that such a lifetime is a run of `Pipeline` (`IndexConsumer.LifetimeIsRun`) and, to the loop,
  one of its own (`IndexConsumer.LiveIsPolled`).
* The saga's handlers, run to completion, are `Saga.Work` on the same plans of work that `Compensation` lets any
  other thread interrupt between units; `HandlerRuns` shows that each handler, and each checkout, is such a run.
  `Lifecycle` runs `Compensation` and the returns desk on the same orders and payments; to the saga such a run is one of
  its own (`Lifecycle.IsSagaRun`).

Assumptions, where the code leaves something to its surroundings:

* `Apply` is documented as row-locked, but its read takes no `FOR UPDATE`
  (services/order/internal/store/store.go:162, 306); it is atomic here.
* One relay per outbox table, since the relay's row locks end with its query. Rows of one key become visible in id
  order, since the domain row they describe stays locked until commit.
* A fetch that reports any error carries no records (pkg/kafka/kafka.go:339-345 discards such a fetch).
* A failed call to another service had no effect, and a commit's outcome is known. The one exception is the search
  index, where a write may land without the consumer learning of it.
* Order ids, payment ids, reservation ids and return ids are fresh; SHA-256 stands for the text it hashes.
* Unit prices are not negative: the catalogue refuses negative list prices
  (services/catalog/internal/domain/product.go:138-140). Every theorem over runs of `Compensation` and `Lifecycle`
  rests on that, through the drafts its checkouts begin with.
* Return requests of one order are served one after the other, since `ReturnedQty` is read outside the insert's
  transaction.

Where the code and its own comments part ways, the model follows the code:

* The page token holds RFC 3339 text, not unix nanoseconds (services/catalog/internal/grpcsvc/server.go:276-282).
* `OnPaymentAuthorized` records the event before it calls Commit, so a redelivery after a failed Commit does nothing
  (services/order/internal/saga/saga.go:189-197). A CONFIRMED order need not have a COMMITTED reservation, and no
  such claim is made.
* Quantities of repeated products are added in int32 and can wrap (services/pricing/internal/grpcsvc/server.go:87);
  `Pricing.QuantityExact` says exactly when they do not. A wrapped sum that is not positive is refused
  (`Pricing.QuantityWraps`), one that is positive is priced as it stands (`Pricing.QuantityMispriced`), and
  `Pricing.PricedAfterWrap` says exactly which is which.
* A negative stock adjustment can leave less on hand than is reserved; `StockAccounting.AdjustBreaksExactly` says
  exactly when, `StockAccounting.NegativeAdjustmentOversells` gives an input.
* A fixed-amount coupon is not checked for its sign; `Pricing.QuoteAddsUp` says exactly when the discount stays
  non-negative, `Pricing.NegativeCouponRaises` gives a coupon with which it does not.
* A delivery that arrives before its order is CONFIRMED is recorded but fulfils nothing, and neither does the
  confirmation: with all groups delivered early the order waits for one more delivery record
  (services/order/internal/store/store.go:351-353). `Fulfilment.FulfilledExactly` covers such orders,
  `Fulfilment.EarlyDeliveryWaits` gives one.
* A FAILED payment cannot be voided, so an order cancelled by a failed payment stays in the reconciler's list;
  `CompensationLedger.SweepDischarges` says exactly which of the listed compensations a sweep completes.

## Model

| member | source | states |
|---|---|---|
| Catalog.CatalogStore.WriteTx | services/catalog/internal/store/store.go:182-217 | the product row and its outbox row change together or not at all: a create inserts its product, an update replaces every field but the slug, an archive moves the status alone, and the outbox row carries the product as it is now; what the transaction leaves is what the pipeline's insert and end steps leave |
| Search.SearchIndex.UpsertFromEvent | services/search/internal/index/index.go:96-124 | an event writes the document of an active product, field by field what a search shows of it, removes that of any other, and touches no other document; success means it was applied, an error may hide a write that landed |
| Search.SearchIndex.Delete | services/search/internal/index/index.go:127-137 | the document is gone afterwards, and a missing document is no error |
| Outbox.OutboxRelay.constructor | pkg/kafka/outbox.go:59-69 | a batch size that is not positive becomes 100 |
| Outbox.OutboxRelay.DrainOnce | pkg/kafka/outbox.go:119-180 | a pass publishes a prefix of the oldest unsent rows, up to the first failure, marks exactly that prefix if its update lands, and is a run of the relay's step system |
| Outbox.OutboxRelay.DrainUntilEmpty | pkg/kafka/outbox.go:95-117 | ends when no rows arrive, as a run of the relay's own steps; without an error nothing unsent is left, and without a failing call there is no error |
| Outbox.FirstUnsentMeaning | pkg/kafka/outbox.go:120-125 | the batch is the oldest unsent rows in id order, skipping none, and all of them when it comes back short |
| OutboxSafety.RunKeeps | pkg/kafka/outbox.go:119-180 | over every run of writers and relay, whatever fails: only published rows are marked, the marked rows of a key are a prefix by id, and first publications of a key come in id order |
| OutboxSafety.LastIsNewest | pkg/kafka/outbox.go:149-178 | once every visible row is marked, a key's last log entry is its newest row |
| Consumer.ConsumerLoop.constructor | pkg/kafka/kafka.go:130-139 | zero attempts become three |
| Consumer.ConsumerLoop.HandleRecord | pkg/kafka/kafka.go:144-169 | the retry loop is the bounded series of attempts that `TriedSeries` is about |
| Consumer.ConsumerLoop.ParkInPlace | pkg/kafka/kafka.go:261-281 | the loop is the endless parking that `ParkingEnds` is about |
| Consumer.ConsumerLoop.RetryInPlace | pkg/kafka/kafka.go:229-256 | the loop is the holding of a record that `RetriedDecides` is about |
| Consumer.ConsumerLoop.Dispatch | pkg/kafka/kafka.go:192-212 | attempts first, then shutdown, holding or parking, as `DispatchDecides` and, from the events alone, `DispatchFollowsRule` are about |
| Consumer.ConsumerLoop.HandleFetches | pkg/kafka/kafka.go:320-328 | records are dispatched in order up to the first one given up on; committable means none was |
| Consumer.ConsumerLoop.Run | pkg/kafka/kafka.go:332-352 | the polling loop is one process lifetime: failed fetches skipped, each other fetch dispatched, and committed only if it was settled to its end |
| Consumer.TriedSeries | pkg/kafka/kafka.go:144-169 | at most the configured number of calls, all on this record; a success is the last call's, and unless the context ended so is the failure reported |
| Consumer.ParkingEnds | pkg/kafka/kafka.go:258-281 | parking ends with the record on its dead-letter topic, or with the context |
| Consumer.RetriedDecides | pkg/kafka/kafka.go:221-256 | a held record ends handled, or parked after a failure no longer to be held, or with the context |
| Consumer.DispatchDecides | pkg/kafka/kafka.go:183-219 | an offset may advance only past a record handled without error or parked by the rules; giving up means the context has ended |
| Consumer.BatchSettles | pkg/kafka/kafka.go:313-328 | the settled records of a fetch each have their handled or parked event; one left over means the context has ended |
| Consumer.LifetimeIsRun | pkg/kafka/kafka.go:332-352 | a process lifetime takes the steps of the offset protocol, none of them a restart |
| Consumer.GivenUpIsLast | pkg/kafka/kafka.go:320-352 | once a record is given up on nothing more is polled or committed, so no commit covers it |
| Consumer.DispatchFollowsRule | pkg/kafka/kafka.go:192-256 | told from the events alone: a record is called until it succeeds or its configured attempts are used up, then by the rule: without a dead-letter topic it is called again after every failure; with one that knows retryable errors it is called again after a retryable failure and parked after any other; with any other it is parked; all until it is settled or the context ends |
| Consumer.LifetimesParkByRule | pkg/kafka/kafka.go:192-219 | over any process lifetimes nothing is parked without a dead-letter topic, and with one that knows retryable errors every parked record comes right after a failure that is not retryable |
| Consumer.FetchCommits | pkg/kafka/kafka.go:320-352 | if every record of a fetch was settled and the commit is answered, each partition's offset moves on to just past its fetched records; otherwise no offset moves |
| Consumer.FailedFetchesSkipped | pkg/kafka/kafka.go:339-345 | the loop ends as if the fetches that failed had not been |
| Consumer.CommittedHaveEvidence | pkg/kafka/kafka.go:192-352 | across any number of process lifetimes, whatever fails, every record below a committed offset was handled without error or published to its dead-letter topic |
| Consumer.CommittedWereSettled | pkg/kafka/kafka.go:320-352 | in the offset protocol alone, over any acts and restarts, whatever is below a committed offset was settled |
| Consumer.SettledInOrder | pkg/kafka/kafka.go:183-212 | within one process lifetime a partition's records are settled in strict offset order, none skipped and none twice |
| Pipeline.RunKeeps | services/search/internal/index/index.go:96-137 | over every run, the index shows each key as some log entry left it, and every later entry the consumer has passed was parked |
| Pipeline.CommitKeepsProducts | services/catalog/internal/store/store.go:182-200 | the product table always holds each product as its newest visible outbox row describes it |
| Pipeline.KeyConverges | services/search/internal/index/index.go:96-137 | once all rows are marked and the consumer has caught up, every key whose last record was not parked shows as the product table has it |
| Pipeline.IndexConverges | services/search/internal/index/index.go:96-137 | after any run with publish failures, mark failures, crashes and restarts: all marked, caught up and nothing parked means the index is exactly the active products at their latest snapshots |
| IndexConsumer.DispatchShape | pkg/kafka/kafka.go:183-219 | all that happens to a dispatched record is failed handler calls and, if it is settled, one last success or parking |
| IndexConsumer.FetchIsRun | pkg/kafka/kafka.go:313-352 | one fetch of the loop, with whatever its handler calls wrote, failed ones included, is a run of the pipeline's consumer steps |
| IndexConsumer.LifetimeIsRun | services/search/internal/consumer/consumer.go:36-53 | a process lifetime of the loop with the index-writing handler, writers and relay going on, is a run of the pipeline |
| IndexConsumer.LiveIsPolled | pkg/kafka/kafka.go:332-352 | that lifetime's offsets and events are those the polling loop computes |
| IndexConsumer.LoopConverges | services/search/internal/index/index.go:96-137 | over any process lifetimes of the loop itself: all marked, caught up and nothing parked means the index is exactly the active products at their latest snapshots |
| Idempotency.KeyTable.ClaimIdempotencyKey | services/order/internal/store/idempotency.go:64-125 | who gets the key, when a stale claim is taken over, and that a replay or a reuse error depends on the stored owner and fingerprint; the table changes only by an insert or a takeover |
| Idempotency.KeyTable.ReleaseIdempotencyKey | services/order/internal/store/idempotency.go:129-136 | only an in-flight claim is dropped |
| Idempotency.KeyTable.ReapIdempotencyKeys | services/order/internal/store/idempotency.go:155-165 | a completed row goes when it is older than the retention time, an in-flight one when it is older than 900 seconds, every other row stays as it is, and the number of those gone is returned |
| Idempotency.FingerprintInjective | services/order/internal/store/idempotency.go:42-50 | the hashed texts agree exactly when all parts agree, as long as no part holds a NUL |
| Idempotency.OrdersPerKey | services/order/internal/store/idempotency.go:64-202 | under any interleaving of statements by any holders, the orders committed for a key are its completed rows reaped so far plus one if its current row is completed |
| Idempotency.OneOrderBetweenReaps | services/order/internal/store/idempotency.go:167-202 | between two reaps a key yields at most one order, and none if it was completed already |
| Idempotency.ExclusiveOverRuns | services/order/internal/store/idempotency.go:78-124 | if attempts stop acting within the staleness bound, at most one live attempt holds a key, and a replay answers with an order committed for the same key, owner and fingerprint |
| Idempotency.OnlyHolderActs | services/order/internal/saga/saga.go:79-113 | an attempt that reserves stock or opens a payment is the only live holder of its key |
| Idempotency.KeysProtectCheckouts | services/order/internal/saga/saga.go:79-113 | from an empty table, after any interleaving within the staleness bound: whoever reserves or pays next is the only live holder of its key, and every replay answered with an order placed for the same key, owner and fingerprint |
| Idempotency.OneOrderWithinRetention | services/order/internal/store/idempotency.go:64-202 | within the retention time of a claim, whatever statements run and reap in between, its key yields at most one order, and once it has, its row stays |
| Idempotency.RetryIsReplayed | services/order/internal/store/idempotency.go:78-125 | a retry of the same owner and request within the retention time of a completed claim inserts nothing and is answered with its order |
| Inventory.InventoryStore.EnsureStockRow | services/inventory/internal/store/store.go:62-67 | seeds a product once and never overwrites it |
| Inventory.InventoryStore.HoldLines | services/inventory/internal/store/store.go:78-101 | the first line that cannot be met decides the error; otherwise each level grows by exactly its units |
| Inventory.InventoryStore.Reserve | services/inventory/internal/store/store.go:71-122 | all lines are held in a new HELD reservation, or nothing changes |
| Inventory.InventoryStore.Finish | services/inventory/internal/store/store.go:144-171 | a HELD reservation's items are taken off row by row with clamping and it leaves HELD; any other id is a no-op |
| Inventory.InventoryStore.AdjustStock | services/inventory/internal/store/store.go:238-257 | on_hand moves by the delta, not below zero; reserved stays |
| Inventory.InventoryStore.ExpireDue | services/inventory/internal/store/store.go:261-294 | picks reservations that are HELD and past their expiry, the longest due first and all of them unless the limit cuts off later ones, then releases and announces them one by one up to the first release or announcement that fails; reports their number, or none after a failure |
| Inventory.SweptAnnounces | services/inventory/internal/store/store.go:261-294 | an expiry sweep that goes through appends one announcement for each reservation it picked, in order, naming the order it was for |
| StockAccounting.RunKeepsSound | services/inventory/internal/store/store.go:71-235 | in every reachable state reserved is the sum over HELD reservations, and an announced reservation is no longer HELD |
| StockAccounting.ReserveAcceptsExactly | services/inventory/internal/store/store.go:71-122 | a reserve goes through exactly when every line asks for some of a stocked product, no product twice, and each is available |
| StockAccounting.RefusedAtFirst | services/inventory/internal/store/store.go:78-114 | a refused reserve names its first line that cannot be met, and whether stock or the database refused it |
| StockAccounting.ReserveFigures | services/inventory/internal/store/store.go:78-122 | an accepted reserve adds each line's quantity to what its product has reserved, touches no other level, and writes one HELD reservation |
| StockAccounting.FinishFigures | services/inventory/internal/store/store.go:144-235 | from accounted stock, a Commit leaves each product of the reservation with reserved lower by exactly its units and on_hand too, where on_hand stops at zero only if stock had been oversold; a Release lowers reserved alone; every other level and reservation is as it was |
| StockAccounting.AdjustFigures | services/inventory/internal/store/store.go:238-257 | an adjustment moves one on_hand by its delta, not below zero, and nothing else |
| StockAccounting.ClampNeverFires | services/inventory/internal/store/store.go:215-235 | at every point of the item loop reserved is the old value less the units taken so far and not negative |
| StockAccounting.LeavesHeldOnce | services/inventory/internal/store/store.go:180-193 | under any mix of Commit, Release and expiry a reservation leaves HELD at most once |
| StockAccounting.RunConserves | services/inventory/internal/store/store.go:62-257 | while adjustments leave on_hand at or above reserved, nothing is oversold, and on_hand is what was supplied less what was committed |
| StockAccounting.NonNegativeAdjustmentsAreSafe | services/inventory/internal/store/store.go:238-257 | runs without negative adjustments meet that condition |
| StockAccounting.AdjustBreaksExactly | services/inventory/internal/store/store.go:238-257 | exactly when an adjustment oversells |
| StockAccounting.NegativeAdjustmentOversells | services/inventory/internal/store/store.go:238-257 | an input on which it does |
| Payment.PaymentStore.Create | services/payment/internal/grpcsvc/server.go:27-41 | an order id and a wire amount, canonical or not, of at least a cent open an unconfirmed intent of exactly its cents; anything else is refused for a stated reason |
| Payment.PaymentStore.Transition | services/payment/internal/store/store.go:90-137 | the status moves only along the state machine, once, with its event; repeating a transition is harmless |
| Payment.PaymentStore.Refund | services/payment/internal/store/store.go:144-238 | a repeated key changes nothing, zero means what is left, more than what is left is refused, and a refund writes its row, balance, status and event together |
| Payment.TransitionFigures | services/payment/internal/store/store.go:90-137 | which moves there are, and that a move changes one status, emits the authorised or the failed event, or none when voided, and leaves the rest |
| Payment.RefundFigures | services/payment/internal/store/store.go:144-238 | a refund whose key is new, of a payment authorised and with that much left, writes exactly one row and one event of what was asked for, and REFUNDED exactly when nothing is left; any other changes nothing, and why |
| Payment.RunKeepsConsistent | services/payment/internal/store/store.go:90-238 | over any sequence of operations the refunded balance is the sum of refund rows and of refunded events, stays within the amount, reaches it exactly when REFUNDED, and no non-empty key is applied twice |
| Payment.StepKeepsFinal | services/payment/internal/store/store.go:128-137 | FAILED and VOIDED are final, and an authorised payment never fails |
| Orders.MovedKeepsFinal | services/order/internal/domain/order.go:86-132 | CANCELLED and FULFILLED are final, CONFIRMED comes only from PENDING_PAYMENT and FULFILLED only from CONFIRMED, and nothing but status and reason moves |
| OrderStore.Store.Apply | services/order/internal/store/store.go:299-323 | one mutation with its outbox row per event id; duplicates, unknown orders and refused transitions leave everything as it was |
| OrderStore.AppliedFigures | services/order/internal/store/store.go:299-323 | what each outcome of a mutation leaves: the event id noted, and, only if the status moved, the order stamped and one outbox row of its new status |
| OrderStore.Store.ApplyShipmentDelivered | services/order/internal/store/store.go:333-376 | records the delivery once per event and fulfils a confirmed order exactly when every shop group has a delivery row |
| OrderStore.CountCovers | services/order/internal/store/store.go:353-362 | comparing the distinct delivered count with the number of groups decides whether every group has delivered |
| OrderStore.Store.InsertWithKey | services/order/internal/store/idempotency.go:174-202 | the order and its completed key are written together, or neither is |
| OrderStore.Store.MarkReservationReleased | services/order/internal/store/compensation.go:21-28 | sets one order's mark and nothing else |
| OrderStore.Store.MarkPaymentVoided | services/order/internal/store/compensation.go:31-38 | sets one order's mark and nothing else |
| OrderStore.Store.PendingCompensations | services/order/internal/store/compensation.go:47-81 | the settled cancelled orders that still owe something, each once, oldest first, all of them unless the limit cuts off newer ones, each naming exactly what it owes |
| Groups.ShopGroups | services/order/internal/domain/order.go:72-83 | the distinct shops of the lines, sorted |
| Groups.GroupsFrom | services/fulfillment/internal/consumer/consumer.go:65-83 | the same list with each shop's items in line order, whatever order the map was walked in |
| Groups.GroupsAgreeAndPartition | services/fulfillment/internal/consumer/consumer.go:62-83 | both services find the same groups, none is empty, and together they hold every line's item exactly once |
| Fulfilment.FulfilledExactly | services/order/internal/store/store.go:325-376 | a confirmed order that nothing cancels is FULFILLED exactly when every group has delivered and a delivery was processed since; the latter goes without saying unless all had delivered before |
| Fulfilment.CancellationRace | services/order/internal/store/store.go:346-376 | the first cancellation wins exactly when the order was not fulfilled before it, by the same condition |
| Fulfilment.EarlyDeliveryWaits | services/order/internal/store/store.go:346-354 | an order all of whose deliveries came before its confirmation is CONFIRMED and waits |
| Fulfilment.DeliveriesAre | services/order/internal/store/store.go:334-350 | a delivery row is there exactly when it was before or its shipment arrived, duplicates and redeliveries included |
| Fulfilment.NewIsProcessed | services/order/internal/store/store.go:333-338 | a delivery of the order is processed exactly when its record was not seen before, whatever came in between |
| Fulfilment.ArrivalOrderIrrelevant | services/order/internal/store/store.go:325-376 | two histories carrying the same shipments leave the order in the same status, for an order already covered if both or neither bring a new record |
| Money.WireRoundTrip | services/pricing/internal/domain/money.go:13-20 | every amount in cents survives units and nanos, and the nanos fit int32 |
| Money.WireExact | services/order/internal/domain/order.go:26-31 | exactly which wire amounts survive cents |
| Money.WireInNanos | services/pricing/internal/domain/money.go:13-20 | a decoded amount is off by less than a cent and by nothing for whole cents, an encoded one by nothing |
| Pricing.PercentOffNearest | services/pricing/internal/domain/money.go:35-43 | a percentage is within half a cent of exact and between zero and the whole |
| Pricing.TaxBpsNearest | services/pricing/internal/domain/money.go:46-51 | tax is within half a cent of exact and not negative |
| Pricing.Price | services/pricing/internal/domain/quote.go:68-106 | fills in the line totals up to the first bad quantity and answers with the quote, or with the first error there is; a quote is given exactly when there are lines, all of positive quantity, and the coupon has not expired and, if it has a limit, has uses left |
| Pricing.QuoteFigures | services/pricing/internal/domain/quote.go:68-106 | the quote's own figures: subtotal is the sum of its line totals; the discount is 0 without a coupon or with one of unknown kind, within half a cent of the coupon's percentage of the subtotal, or the smaller of its amount and the subtotal; the tax is within half a cent of the rate on the rest; total is subtotal less discount plus tax |
| Pricing.RefusedUnlessUsable | services/pricing/internal/domain/quote.go:34-44 | exactly which coupons are refused, and for which reason |
| Pricing.QuoteAddsUp | services/pricing/internal/domain/quote.go:85-105 | total is subtotal less discount plus tax without the clamp firing; the discount is within the subtotal exactly when no amount coupon is negative |
| Pricing.NegativeCouponRaises | services/pricing/internal/domain/quote.go:85-105 | a coupon on which the discount is negative and the total exceeds the subtotal |
| Pricing.QuoteIgnoresLineOrder | services/pricing/internal/domain/quote.go:108-125 | figures and signature text do not depend on the order of distinct lines |
| Signature.SignatureTells | services/pricing/internal/domain/quote.go:108-125 | two quotes of one signature text agree on currency, discount, tax, total and each product's quantity and unit price, as long as no currency holds a semicolon and no product id a colon |
| Pricing.QuantitiesByProduct | services/pricing/internal/grpcsvc/server.go:81-90 | refuses any non-positive quantity, otherwise adds up each product in int32 |
| Pricing.QuantitiesMeaning | services/pricing/internal/grpcsvc/server.go:81-90 | every mentioned product, and only those, with its exact sum wrapped to int32 |
| Pricing.QuantityExact | services/pricing/internal/grpcsvc/server.go:82-88 | exactly when the sum is what was asked for |
| Pricing.QuantityWraps | services/pricing/internal/grpcsvc/server.go:82-88 | an input whose sum wraps to a negative quantity, which no catalogue gets a quote |
| Pricing.QuantityMispriced | services/pricing/internal/grpcsvc/server.go:82-88 | an input of 2^32 + 1 units that is quoted, and as one unit |
| Pricing.PricedAfterWrap | services/pricing/internal/grpcsvc/server.go:81-90 | a collected quantity is positive exactly when the sum modulo 2^32 lies in 1 to 2^31-1, and is that remainder then |
| Pricing.PriceLines | services/pricing/internal/grpcsvc/server.go:110-127 | one line a product, in whatever order the map yields; succeeds exactly when every product is priceable in the currency |
| Pricing.QuotePrice | services/pricing/internal/grpcsvc/server.go:42-77 | exactly when a quote is given, and that it is the quote of the request |
| Pricing.QuotableMeans | services/pricing/internal/grpcsvc/server.go:42-127 | a quote is given exactly when the currency has three letters, something is asked for, every product is in the catalogue in that currency, its summed quantity is positive after the wrap, and the coupon, if one is named, exists and is usable |
| Pricing.QuotedLine | services/pricing/internal/grpcsvc/server.go:81-127 | each quoted line is a product that was asked for, in the collected quantity, with the catalogue's title, shop and price |
| Pricing.QuoteIgnoresMapOrder | services/pricing/internal/grpcsvc/server.go:56-66 | two quotes of one request agree on every figure, the signature and the bag of lines, however the map was walked |
| Returns.ReturnDesk.ResolveReturnLines | services/order/internal/saga/returns.go:86-123 | the validated lines, or the first error; nothing beyond what is still returnable |
| Returns.ReturnDesk.AllocateRefunds | services/order/internal/saga/returns.go:47-65 | the running cumulative rounding gives each line the growth of the cumulative share |
| Returns.ReturnDesk.RequestReturn | services/order/internal/saga/returns.go:25-75 | when a return is refused and why, and the return that is written otherwise |
| Returns.AcceptedExactly | services/order/internal/saga/returns.go:25-123 | a request is accepted exactly when the order is there and the caller's own, fulfilled and of positive value, every product asked for is on it with that much still returnable, something comes back, and no product comes back twice; and exactly when it is answered that there is no such order |
| Returns.NewReturnFigures | services/order/internal/saga/returns.go:36-75 | an accepted request writes a REQUESTED return with one line for each product that comes back, of as many units as were asked for or of all that is left, and a total that is the sum of its lines |
| Returns.ReturnDesk.DecideReturn | services/order/internal/saga/returns.go:128-150 | a decision is taken once; an approval answered without an error has refunded the return's own total on the order's payment under the return's own key, unless that was done before; a rejection and a failed refund move no money; and which of them is answered with which error |
| Returns.LinesSumToShare | services/order/internal/saga/returns.go:47-65 | the line refunds add up to the rounded share of the whole return |
| Returns.LineRefundBounds | services/order/internal/saga/returns.go:52-56 | each line refund is non-negative and the floor or the ceiling of its exact share |
| Returns.WholeOrderRefundsTotal | services/order/internal/saga/returns.go:43-46 | a return of everything refunds the order total to the cent |
| Returns.ProductsStaySmall | services/order/internal/saga/returns.go:54 | no product in the computation exceeds total times subtotal |
| RefundConservation.RunKeepsSafe | services/order/internal/saga/returns.go:25-172 | over any serial run of requests and decisions, retries included, no product is returned beyond what was ordered and every refund on the payment is that of one approved return |
| RefundConservation.LiveRefundWithinTotal | services/order/internal/saga/returns.go:43-65 | the refunds of returns not rejected never exceed the order total |
| RefundConservation.RefundNeverRefused | services/payment/internal/store/store.go:221-238 | an approved return's refund never exceeds the balance, is of its own positive amount, and writes at most one row |
| RefundConservation.DecisionFailsOnlyUnreached | services/order/internal/saga/returns.go:128-150 | a decision the return allows fails only when it approves a refund and the payment service cannot be reached |
| RefundConservation.ApprovalPaysBack | services/order/internal/saga/returns.go:128-150 | an approval answered without an error, of a return with something to refund and a payment, leaves exactly one refund row of that payment, amount and key; the refunded balance grows by the amount if the row was not there before and by nothing if it was |
| RefundConservation.OtherDecisionsPayNothing | services/order/internal/saga/returns.go:128-150 | refused decisions, rejections and approvals whose refund failed move no money |
| RefundConservation.RefundedWithinTotal | services/payment/internal/store/store.go:144-204 | what the payment has refunded is covered by returns not rejected, and by the order total |
| RefundConservation.FullReturnShortfall | services/order/internal/saga/returns.go:43-65 | an order returned in full over k returns is refunded to within k - 1 cents |
| Payout.GroupsFrom | services/payout/internal/consumer/consumer.go:56-72 | one group a shop, each of exactly its lines' total after the wire |
| Payout.PayoutStore.CreateFromOrder | services/payout/internal/store/store.go:45-104 | one payout a shop not yet paid out and none for the platform, each with its created event, and the event id noted; a repeated event id changes nothing |
| Payout.PayoutStore.MarkPaid | services/payout/internal/store/store.go:192-225 | a payout becomes PAID once, with one event |
| Payout.RunKeepsInv | services/payout/internal/store/store.go:45-104 | over any redelivery or republication of orders in any currencies: at most one payout a shop and order, of exactly the shop's total in the order's currency, with one created event of that amount and at most one paid event |
| Payout.ConservedOverRuns | services/payout/internal/store/store.go:45-104 | once one confirmation was processed, the payouts plus the platform's own lines are the whole order |
| Saga.Orchestrator.ReleaseReservation | services/order/internal/saga/saga.go:283-294 | the release, and the mark only after it succeeded; success means exactly that both calls did |
| Saga.Orchestrator.VoidPayment | services/order/internal/saga/saga.go:297-308 | the void, and the mark only after it succeeded; success means exactly that both calls did |
| Saga.Orchestrator.OnPaymentAuthorized | services/order/internal/saga/saga.go:188-200 | confirms and then commits, and reports exactly a refused transition, an unknown order or a failed Commit; a redelivered event does nothing |
| Saga.Orchestrator.OnPaymentFailed | services/order/internal/saga/saga.go:203-212 | cancels and then releases |
| Saga.Orchestrator.OnReservationExpired | services/order/internal/saga/saga.go:224-257 | cancels a pending order, marks its reservation and voids its payment; an order never written, or already resolved, is no error |
| Saga.Orchestrator.CancelOrder | services/order/internal/grpcsvc/server.go:109-125 | cancels the caller's own order and compensates it |
| Saga.Orchestrator.CompensateCancelled | services/order/internal/saga/saga.go:262-268 | releases and voids, each whether or not the other succeeds |
| Saga.Orchestrator.TakeKey | services/order/internal/saga/saga.go:84-104 | the checkout proceeds exactly when the claim gets the key; otherwise the answer is the stored order of the same owner and fingerprint, a reuse error or a conflict, and nothing changed |
| Saga.AnswersTell | services/order/internal/saga/saga.go:84-104 | a key of another owner or request is refused, a completed checkout is answered with its own order and never with another owner's, an attempt of the last 15 minutes is in progress |
| Saga.RetryMeets | services/order/internal/saga/saga.go:79-113 | the same request sent again meets the order that was placed, and after a failure a free key at once, or once the claim is more than 15 minutes old if it could not be given back |
| Saga.RequestTells | services/order/internal/saga/saga.go:74-84 | two checkouts count as the same request exactly when owner, cart, coupon and currency agree, a currency not of three letters being US dollars |
| Saga.Orchestrator.CreateOrder | services/order/internal/saga/saga.go:67-185 | a checkout that proceeds places one order, or fails for a stated reason in one of the failed outcomes; its key ends closed on the order, given back, or, if even that failed, still held; one that does not proceed changes nothing, and a replay answers only with the caller's own stored order |
| Saga.Sweeper.Sweep | services/order/internal/reconcile/reconciler.go:151-195 | does the release and the void of every order the query lists |
| Checkout.PlacedAgrees | services/order/internal/saga/saga.go:139-184 | one new PENDING order, a HELD reservation of exactly the units its lines list that expires 900 seconds on, an unconfirmed payment of exactly its total, and nothing else |
| Checkout.PlacedWellPriced | services/order/internal/saga/saga.go:154-168 | with no negative catalogue price the order's lines and totals are as returns rely on |
| Checkout.PlacedCharges | services/order/internal/saga/saga.go:121-168 | a placed order charges each line at the catalogue's price in the checkout's currency, its coupon's cut if the coupon is usable and nothing if none was named, the tax on the rest, and a positive total of just that |
| Checkout.FailureLeaves | services/order/internal/saga/saga.go:148-174 | under any pattern of failed compensations a failed checkout leaves no order, and at most one reservation and one payment, as its own two compensations left them |
| Checkout.FailureCompensated | services/order/internal/saga/saga.go:148-174 | with working compensations: no order, stock levels as before, any payment opened is VOIDED |
| Checkout.LeftoverExpires | services/inventory/internal/store/store.go:261-294 | a hold that was not released comes due, and expiring it puts the stock back |
| Checkout.SweptIsFree | services/inventory/internal/store/store.go:261-294 | what an expiry sweep picked is no longer HELD when it is through |
| Settlement.ConfirmationTakesStock | services/order/internal/saga/saga.go:188-200 | from accounted stock, confirming a PENDING order whose reservation is HELD makes it CONFIRMED and, if the Commit call succeeds, the reservation COMMITTED, with on_hand and reserved of each of its products lower by exactly its units, where on_hand stops at zero only if stock had been oversold; every other level, reservation, order and payment is as it was |
| Settlement.FailureGivesBack | services/order/internal/saga/saga.go:203-212 | a failed payment cancels its order, naming the reason, and a release that succeeds gives back exactly the reservation's units |
| Settlement.ExpiryTakesBack | services/order/internal/saga/saga.go:224-257 | an expiry cancels a PENDING order, marks its stock released, and a void that succeeds makes an open payment VOIDED; stock stays as it is |
| Settlement.CancellationGivesBack | services/order/internal/saga/saga.go:262-268 | a cancellation gives back exactly the reservation's units and voids an open payment, each exactly when its own call succeeds |
| Settlement.SoldOnlyIfConfirmed | services/order/internal/saga/saga.go:188-200 | over every interleaving, each order's statuses were announced one by one along the state machine, and a reservation is COMMITTED only if its order was confirmed |
| Settlement.OnHandIsUnsold | services/inventory/internal/store/store.go:144-257 | over every interleaving whose adjustments leave what is promised: nothing is oversold, and on_hand is what was supplied less the units of COMMITTED reservations |
| HandlerRuns.HandlerIsMethod | services/order/internal/saga/saga.go:188-268 | each handler and the sweep, run call by call to its end whatever calls succeed, is a run of the interleaved saga |
| HandlerRuns.PlacedIsRun | services/order/internal/saga/saga.go:67-185 | so is a checkout that goes through |
| HandlerRuns.FailedIsRun | services/order/internal/saga/saga.go:67-185 | and one that fails, with its compensations |
| Compensation.RunKeeps | services/order/internal/saga/saga.go:67-308 | over every interleaving with crashes and failed calls: marks are true, only payments of cancelled or never written orders are voided, every id belongs to one checkout, and every pending unit of work stays right to do |
| Compensation.AuthorizedIsPaid | services/order/internal/saga/saga.go:188-200 | an order whose payment was once authorised is paid for unless it is cancelled |
| Compensation.AnnouncedIsFree | services/order/internal/saga/saga.go:224-257 | the reservation of an order whose expiry was announced is not HELD, so the mark set without a release is true |
| CompensationLedger.NeverForgotten | services/order/internal/store/compensation.go:47-81 | in every reachable state a cancelled order with a HELD reservation or an open payment meets the reconciler's filter once settled, and the query names what it owes |
| CompensationLedger.CancelledSettles | services/order/internal/store/store.go:286-294 | the updated_at of a cancelled order never moves again, so it does settle |
| CompensationLedger.ConfirmedIsPaid | services/order/internal/saga/saga.go:188-200 | a CONFIRMED or FULFILLED order has an authorised or refunded payment of exactly its total |
| CompensationLedger.ListedUnlessCrowdedOut | services/order/internal/store/compensation.go:48-62 | a pending order is listed unless as many as the limit are at least as old |
| CompensationLedger.SweepDischarges | services/order/internal/reconcile/reconciler.go:151-195 | under any pattern of failures a listed reservation is freed exactly when its release succeeds, a listed payment is voided exactly when its void succeeds and it is neither FAILED nor REFUNDED, each is marked exactly when its mark lands as well, and no other order, reservation or payment changes |
| Lifecycle.RunKeeps | services/order/internal/saga/saga.go:67-308 | checkouts, payments, handlers, cancellations, sweeps, deliveries, return requests and decisions interleaved in any order keep both the saga's invariant and refund conservation |
| Lifecycle.BooksSquare | services/order/internal/saga/returns.go:128-150 | in every reachable state an order's payment is of exactly its total, its refunds never exceed that and need a fulfilled order, a voided payment was never refunded and its order is cancelled, and no more units came back than were ordered |
| Lifecycle.ApprovalGoesThrough | services/order/internal/saga/returns.go:128-150 | in every reachable state a return that is not rejected can be approved and its refund is accepted |
| Lifecycle.ApprovedIsPaidBack | services/order/internal/saga/returns.go:128-150 | over every interleaving: once an approval was answered without an error its refund row is there, exactly once, ever after |
| Lifecycle.IsSagaRun | services/order/internal/saga/returns.go:142-150 | to the saga a decision is a refund like any other, so what holds of all its runs holds with returns in between |
| Lifecycle.ReturnsMayBegin | services/order/internal/saga/returns.go:25-75 | whatever the saga did alone, its orders and payments meet what refund conservation starts from, unless one of those payments was refunded |
| Cursor.DecodeEncode | services/catalog/internal/grpcsvc/server.go:283-290 | base64url without padding brings back every byte string |
| Cursor.Alphabet | services/catalog/internal/grpcsvc/server.go:283 | the letters are those of RFC 4648, section 5 |
| Cursor.EncodeVectors | services/catalog/internal/grpcsvc/server.go:283 | four of the vectors of RFC 4648, section 10, without their padding |
| Cursor.ParseFormat | services/catalog/internal/grpcsvc/server.go:282-298 | every UTC instant of the years 0 to 9999 survives RFC 3339 text to the nanosecond |
| Cursor.TokenRoundTrip | services/catalog/internal/grpcsvc/server.go:278-303 | a token brings back exactly its position, whatever bytes the id holds, and only no position has the empty token |
| Cursor.TokenDecides | services/catalog/internal/grpcsvc/server.go:286-303 | only the empty token starts a listing over; one that is not base64url, or holds no bar, is refused as such |
| Pagination.ProductTable.ListPage | services/catalog/internal/store/store.go:115-152 | the first rows of the filtered, ordered query, and a cursor exactly when more follow |
| Pagination.ProductTable.ListProducts | services/catalog/internal/grpcsvc/server.go:89-103 | a page token in, a page and the next token out; or the token's error, exactly when it does not decode |
| Pagination.QueryHolds | services/catalog/internal/store/store.go:115-152 | the public list holds exactly the ACTIVE products of the category and shop asked for, a shop's own list all of its products, and a cursor keeps those before it |
| Pagination.NewerMeans | services/catalog/internal/store/store.go:120-130 | a list shows the latest first, and of the same instant the larger id first |
| Pagination.ResumesExactly | services/catalog/internal/store/store.go:120-124 | resuming below a row on a table that gained newer rows gives exactly what followed that row |
| Pagination.WalkIsFullQuery | services/catalog/internal/store/store.go:112-152 | following tokens ends, and the pages concatenate to exactly the matching rows in order, each once, even when newer rows are inserted between pages |
| Sorting.OneArrangement | services/pricing/internal/domain/quote.go:112-114 | a strictly ordered arrangement is determined by which elements it holds, so any correct sort gives the same |

## Left out

- gRPC adapters, gateways, front ends, generated code, service start-up, configuration, telemetry: no state of their own. The order adapter does not pass the idempotency key on; the model starts at the saga's input.
- Authentication, authorisation and role checks: policy over libraries that are not part of this model.
- Postgres, Kafka and OpenSearch themselves: tables with atomic transactions, logs and maps. Rebalances, deadlock retries and ambiguous commits are not modelled.
- The analytics sink: what it promises depends on flushes not overlapping, which its wiring does not give.
- Keyset lists of the order, payout, shipment, review, shop and notification stores: their cursor is created_at alone.
- Returns.ReturnDesk.DecideReturn: restocking after an approval is left out, and with it the error of a failed restock. AdjustStock and MarkRestocked are separate steps, so only at-least-once holds; in Lifecycle a restock is one of the stock adjustments that may come at any time.
- Cart, shop, shipment, media, review and notification aggregates: single-function invariants.
- Clearing the cart after checkout: best effort, and without effect on what is modelled.
- int64 overflow of amounts: cents are unbounded; Returns.ProductsStaySmall bounds the largest product by total times subtotal.
- Refunds that no return asked for: nothing in the repository asks for one. Compensation allows them, Lifecycle does not.
- Back-off delays and their doubling: a wait is a step of unknown length that the context may end.
- stock_changed outbox rows: they copy the new level and nothing reads them here.
- Saga.Orchestrator.OnReservationExpired: its first lookup, by reservation id, is left out; the announcement carries the order id, which is no reservation id.
- Inventory.InventoryStore.ExpireDue: rows another transaction has locked are not skipped, and reservations due since the same instant come in any order.
- OrderStore.Store.Apply: is one atomic step, though its read takes no lock; two concurrent mutations of one order are not modelled.
- OrderStore.Store.PendingCompensations: orders with equal updated_at come in any order.
- Returns.ReturnDesk.RequestReturn: concurrent requests for one order are not modelled.
- Cursor.ParseFormat: is about the form the encoder writes; the model's parser refuses zone offsets and the looser spellings the Go parser also takes.
- Pagination.WalkIsFullQuery: rows that are updated or archived between pages are not covered, only insertions of newer ones.
- IndexConsumer.LifetimeIsRun: the writers and the relay take their steps between two fetches, not in the middle of one; Pipeline.RunKeeps covers every interleaving of single steps.
- IndexConsumer.LoopConverges: every record decodes; the handler skips one that does not, and the catalogue writes none.
- Pipeline.IndexConverges: the index's own indexed_at timestamp is left out of its documents.
- CompensationLedger.SweepDischarges: the sweep runs from a reachable state with no other thread in between; interleaved sweeps are covered by Compensation.RunKeeps, which promises true marks but not progress.
