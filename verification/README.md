# A verified model of the choreography saga

Order (Go), Payment (Python) and Inventory (C++) run one saga per order without a coordinator. Each service
writes its tables and an outbox row in one transaction, a relay publishes the outbox to Kafka at least once, and
consumers absorb duplicates with markers. Payment also calls Inventory's ReserveStock directly. This project
models the three services as code and as one transition system, and proves what the choreography promises, over
every run: any interleaving, duplicates, failed publishes, crashes between publish and mark, rewinds, restarts,
and reserve calls that are lost or repeated.

`dafny verify dfyconfig.toml` checks the whole project.

## How it is built

* **Services.** `OrderDomain`, `Orders`, `Payments` and `Inventory` hold each transaction twice: a class whose
  methods update the tables step by step, with rollback, as the source does, and a function on table values that
  the methods are proved equal to. Lemmas such as `Orders.RollbackIsExact` or `Inventory.FirstReserveIsExact` say of
  each transaction when it does what, on the request and the tables alone. `Sums` and `Ledger` are about stock alone.
* **Loops.** `OutboxRelay` has the three drains, `RelayFleet` any number of relays on one outbox, act by act,
  `OrderConsumer` and `OrderRetries` Order's poll/dispatch/rewind/commit loop, `PollingConsumer` the loop that
  Payment and Inventory share.
* **System.** `SagaSystem` composes the transactions, the topic logs with offsets, and the reserve calls in flight
  into `Sys`, `Step` and `Next`. `SagaView` projects the system onto one saga (a finite record), `SagaInvariant`
  states the joint invariant `Inv`, and `OrderSteps`, `PaymentSteps`, `InventorySteps` and `BrokerSteps` show that
  every step keeps it. Each step is split into what it does to the channels, what it does to its own saga's view,
  and that other sagas do not notice.
* **Results.** `SagaSafety`, `SagaReports`, `SagaOutcome`, `SagaProgress`, `Confluence`, `SagaConfluence`, `FetchOrder`.
  `SagaScenarios` has concrete runs: the outcomes are reachable, and some stronger claims are false.
* **Loops in the system.** `FleetRefinement` interleaves the acts of any number of relays per service with all other
  steps, `LoopRefinement` does the same for Order's loop, and `PollingRefinement` has the turns of Payment's and
  Inventory's loops. `WholeSystem` puts all of them together, each acting in its own small moves in any order, and
  shows that what comes out is a run of the system. So the safety results hold at every point inside a drain, a batch
  or a turn. The drains and turns that the class methods compute are such sequences of acts
  (`RelayFleet.DrainIsActs`, `LoopRefinement.PollIsMoves`).

## Where the code and its documentation differ

The model follows the code.

* A reservation failure that reaches a PENDING order cancels it at once
  (`services/order/internal/domain/order.go:68-70`), although Payment has charged by then. So "CANCELLED implies
  refunded" is false: `SagaScenarios.CancelledBeforeRefunded` is a run that shows it.
  `SagaSafety.CancelledUnrefundedIsExact` says at exactly which cancellations it fails,
  `SagaSafety.RefundIsNeverSwallowed` what holds in every state, `SagaSafety.RefundedIsExact` when a payment is
  refunded, and `SagaOutcome.QuiescentOutcome` that it is refunded in the end.
* The event `inventory.reservation_failed` carries no amount, so `payment.refunded` reports 0.0 whatever was charged
  (`services/payment/src/payment/app.py:143`): `SagaScenarios.RefundMisreportsTheCharge`, and for all runs
  `SagaSafety.RefundReportsZero`.
* A failing handler in Payment or Inventory is logged as "will be redelivered", but the loop polls on without seeking
  back, and a later commit passes the record: `PollingConsumer.OneExceptionSkips`. `PollingConsumer.SkippedIsExact`
  says exactly when a record is skipped for good.
* A second reserve for a saga under another key moves stock but keeps the old reservation row
  (`services/inventory/src/db.cpp:78-87`). `Ledger.ReserveBalanceIsExact` says exactly when reserve keeps
  "reserved stock = sum of RESERVED reservations"; `Ledger.SecondKeyBreaksTheLedger` breaks it.
* `docs/tech-stack.md:257` says SKIP LOCKED avoids double dispatch. The locks end with the fetch, before anything is
  published. `FleetRefinement.DoubleDispatchHappens` logs one envelope twice without any fault, the second time after
  its mark. `RelayFleet.SecondDispatchIsExact` says exactly when a row is logged again, and
  `RelayFleet.StaleSendOverlaps` that a send of a marked row comes from a fetch made before another relay's mark.
* A publish that raises does not mean that nothing was published: Inventory's producer throws while its message is
  still queued (`services/inventory/src/kafka_io.cpp:57-61`), and delivers it later.
  `RelayFleet.FailedPublishIsLoggedTwice` is a run of a single relay in which the retry then logs the row again.
* Order's loop is said to redeliver a parked event until its prerequisite arrives. If the prerequisite is dispatched
  behind the parked event, it never does: `SagaScenarios.ParkedBeforeItsPrerequisite` is a reachable state and a poll
  that show it, `OrderRetries.RetryingInTheSameOrderIsStuck` the general fact. When a batch is accepted whole is
  `OrderRetries.BatchAcceptedIsExact`, and `FetchOrder.GoodOrderIsAccepted` gives an order of topics that always is.

## Model

| member | source | states |
|---|---|---|
| `OrderDomain.Apply` | services/order/internal/domain/order.go:60-103 | An accepted event reports a change exactly when the status differs, and emits one OrderCancelled exactly on entry into CANCELLED. |
| `OrderDomain.AbsorbedForever` | services/order/internal/domain/order.go:60-103 | An event rejected as invalid or absorbed as a no-op has no effect after any further sequence of triggers. |
| `OrderDomain.PrematureIsExact` | services/order/internal/domain/order.go:71-89 | An event is premature if and only if it has no effect now but has one after some sequence of triggers. |
| `OrderDomain.ReplayIsExact` | services/order/internal/domain/order.go:57-59 | A trigger is absorbed as a no-op if and only if the order is terminal or the trigger is one that brings an order to the status it has. |
| `OrderDomain.TerminalIsExact` | services/order/internal/domain/order.go:21-23 | The terminal statuses are exactly those that no sequence of triggers ever changes. |
| `OrderDomain.ChangesAreBounded` | services/order/internal/domain/order.go:60-103 | Over any trigger sequence the status changes at most as often as its starting status allows: three times from PENDING, never from a terminal one. |
| `Orders.HandleEvent` | services/order/internal/store/store.go:88-130 | Anything but a first acceptance (duplicate, invalid, premature, unknown order or topic) leaves the database exactly as it was; a first acceptance adds exactly its key to the markers. |
| `Orders.AcceptedEffect` | services/order/internal/store/store.go:88-130 | A first acceptance moves only its own order to the status that Apply gives, and appends one OrderCancelled row exactly when the order has just become CANCELLED. |
| `Orders.OutcomeIsExact` | services/order/internal/app/service.go:134-189 | The answer to an event, decided by topic, key, order and state machine in that order; only a premature event is returned as an error. |
| `Orders.Store.Create` | services/order/internal/store/store.go:49-64 | The order row and its outbox row are inserted together, or nothing is; it fails for an order id that exists and for a request that the server refuses. |
| `Orders.CreatedIsExact` | services/order/internal/grpcapi/server.go:24-27 | A request is accepted if and only if it names a sku, a positive quantity and a new id; the new row is PENDING with the figures of the request, and one order.created row announces them. |
| `Orders.Attempt` | services/order/internal/app/service.go:167-189 | Under any database fault a handler call either has the effect of HandleEvent or none; without an error it is HandleEvent, and an error without a lost reply leaves no trace. |
| `Orders.RollbackIsExact` | services/order/internal/store/store.go:88-129 | A failing statement leaves no trace and is reported if and only if the call gets to it: marker and read always, the commit of an accepted event as third, the update before the commit, a cancellation row before it. |
| `Orders.LostReplyIsExact` | services/order/internal/store/store.go:88-129 | A lost reply keeps the effect and reports an error if and only if the call had something to commit. |
| `Orders.Store.Handle` | services/order/internal/store/store.go:88-130 | Marker, transition, outbox loop and rollback, with any one statement or the commit failing, have exactly the effect of Attempt. |
| `Orders.FirstAcceptancesAreDistinct` | services/order/internal/store/store.go:88-130 | No key is accepted twice in any stream of deliveries. |
| `Orders.RedeliveryEquivalence` | services/order/internal/store/store.go:88-130 | For any stream with any repetitions, the tables and the outbox equal those of delivering each message only at its first acceptance, and the markers are exactly the keys of those. |
| `Payments.Database.Record` | services/payment/src/payment/db.py:35-58 | Inserts the payment and its event together for a new saga; a saga that has a payment is left alone. |
| `Payments.Database.MarkProcessed` | services/payment/src/payment/db.py:93-106 | True exactly for a key not seen before; the key is marked afterwards. |
| `Payments.Database.Refund` | services/payment/src/payment/db.py:68-88 | A first delivery turns PROCESSED into REFUNDED with one event and leaves any other payment alone; a repeat changes nothing. |
| `Payments.RefundIsExact` | services/payment/src/payment/db.py:68-88 | A refund is first if and only if its key is unused; it then uses the key, and turns a PROCESSED row to REFUNDED with its event, and touches no other row. |
| `Payments.Database.ProcessCreated` | services/payment/src/payment/app.py:100-139 | Records the decision once and asks for a reserve call exactly when the payment is new and approved. |
| `Payments.DecisionIsExact` | services/payment/src/payment/domain.py:25-37 | A charge is approved if and only if failure is not forced and the amount is at least half a cent away from 66.06. |
| `Payments.FieldsOrDefaults` | services/payment/src/payment/app.py:102-104 | Fields are read where the data has them, with 0.0, the empty sku and 0 for those it lacks. |
| `Payments.ChargeIsExact` | services/payment/src/payment/app.py:100-139 | The first order.created of a saga records and announces the amount it says, as processed or failed, and asks for its stock under its own key if and only if approved; a later one does nothing. |
| `Payments.Database.ProcessReservationFailed` | services/payment/src/payment/app.py:141-152 | The compensation handler refunds under the key of the message. |
| `Payments.CompensationIsExact` | services/payment/src/payment/app.py:141-149 | The compensation of a refusal is a refund under the message key whose event says 0.0. |
| `Inventory.Database.MarkProcessed` | services/inventory/src/db.cpp:24-30 | True exactly for a (key, consumer) pair not seen before; the pair is marked afterwards. |
| `Inventory.Database.ReserveStock` | services/inventory/src/db.cpp:44-95 | A replayed key answers from the reservation table and changes nothing; a first one marks the key and either refuses with one event or moves stock and keeps an existing reservation row. |
| `Inventory.FirstReserveIsExact` | services/inventory/src/db.cpp:71-94 | A first reserve is granted if and only if the sku is not the poison one and the quantity is at most what is available, 0 if unstocked; then stock moves and the saga has a reservation, else nothing moves; either way one event says so with sku, quantity and reservation id. |
| `Inventory.RepeatedReserveIsExact` | services/inventory/src/db.cpp:53-68 | A reserve under a used key changes nothing and answers with the RESERVED reservation of the saga, if there is one. |
| `Inventory.Database.ReleaseStock` | services/inventory/src/db.cpp:97-127 | A first release of a RESERVED row returns its stock, marks it RELEASED and emits; otherwise only the marker is written. |
| `Inventory.ReleaseIsExact` | services/inventory/src/db.cpp:97-127 | A release takes place if and only if its key is new to its consumer and the saga has a RESERVED row; it then returns that stock, marks the row RELEASED and appends one inventory.released row, else only the key is used. |
| `Ledger.StockIsConserved` | services/inventory/src/db.cpp:44-127 | available + reserved is constant for every sku over every sequence of reserves and releases, with any keys and quantities. |
| `Ledger.ReleaseKeepsBalance` | services/inventory/src/db.cpp:97-127 | Release always keeps "reserved = sum of RESERVED quantities". |
| `Ledger.ReserveBalanceIsExact` | services/inventory/src/db.cpp:44-95 | Reserve keeps that equality if and only if its key was used, it is refused, the sku is not stocked, the quantity is zero, or the saga has no reservation row. |
| `Ledger.SecondKeyBreaksTheLedger` | services/inventory/src/db.cpp:78-87 | Two reserves for one saga under two different keys break the equality. |
| `Ledger.LedgerHolds` | services/inventory/src/db.cpp:44-127 | With positive quantities and one reserve key per saga, every sequence of calls keeps the equality and available >= 0. |
| `Ledger.LedgerBounds` | services/inventory/src/db.cpp:44-127 | Under that discipline available and reserved stay between 0 and the initial total, and reserved equals what is held. |
| `Ledger.ReplayRepeatsTheAnswer` | services/inventory/src/db.cpp:53-68 | A replayed reserve returns the first status and reservation id after any calls that do not release the saga, and changes neither stock nor outbox. |
| `Ledger.OneOutcomeRowPerKey` | services/inventory/src/db.cpp:53-94 | The reserved-or-failed rows that any sequence of calls appends are, in order, one for each first use of a reserve key, under the event key and saga of that call. |
| `Ledger.FirstUsesAreDistinct` | services/inventory/src/db.cpp:24-30 | No key has two first uses, and after the sequence every reserve in it has its key used. |
| `Ledger.OneReleasedRowPerRelease` | services/inventory/src/db.cpp:110-124 | The inventory.released rows that any sequence of calls appends are, in order, one for each reservation that it takes from RESERVED to RELEASED. |
| `Ledger.ReleasedOncePerSaga` | services/inventory/src/db.cpp:84-88 | No sequence of calls releases a saga twice, under whatever keys and consumers. |
| `SagaInvariant.TransactKeepsChannels` | services/order/internal/store/store.go:88-130 | A transaction that adds at most one row under a fresh key keeps: logged records come from outbox rows, PUBLISHED rows have been logged, and records below a position have been handled. |
| `SagaInvariant.OtherViewsUntouched` | services/order/internal/store/store.go:88-130 | A step on one saga leaves the view of every other saga as it was. |
| `OrderSteps.OrderStepKeeps` | services/order/internal/app/service.go:134-193 | Order handling any next record, accepted, parked or dropped, keeps the joint invariant. |
| `PaymentSteps.CreatedStepKeeps` | services/payment/src/payment/app.py:100-139 | Payment handling order.created keeps the joint invariant. |
| `PaymentSteps.ReservationFailedStepKeeps` | services/payment/src/payment/app.py:141-152 | Payment handling inventory.reservation_failed keeps the joint invariant. |
| `InventorySteps.CancelledStepKeeps` | services/inventory/src/service.cpp:125-143 | Inventory handling order.cancelled keeps the joint invariant. |
| `InventorySteps.ExecuteStepKeeps` | services/inventory/src/service.cpp:74-106 | Executing a reserve call, for the first time or again, keeps the joint invariant. |
| `BrokerSteps.SendStepKeeps` | services/order/internal/outbox/relay.go:107-131 | Sending any row, also one sent or marked before, keeps the joint invariant. |
| `BrokerSteps.CommitStepKeeps` | services/order/internal/kafkax/kafka.go:121-123 | Committing anything up to the position keeps the joint invariant. |
| `BrokerSteps.RewindStepKeeps` | services/order/internal/kafkax/kafka.go:111-120 | Going back to anything not committed, by rewind or restart, keeps the joint invariant. |
| `SagaSafety.StepKeeps` | services/order/internal/domain/order.go:60-103 | Every step of the three-service system keeps the joint invariant. |
| `SagaSafety.ReachableInv` | services/payment/src/payment/app.py:100-139 | The joint invariant holds in every reachable state. |
| `SagaSafety.ConfirmedIsPaidAndHeld` | services/order/internal/domain/order.go:60-103 | In every reachable state a CONFIRMED order has a PROCESSED payment of its amount and a RESERVED reservation of its sku and quantity. |
| `SagaSafety.CancelledHoldsNoStock` | services/inventory/src/db.cpp:44-127 | In every reachable state a CANCELLED order has no reservation. |
| `SagaSafety.UnhandledIsOwed` | services/order/internal/outbox/relay.go:107-131 | Every emitted event has been handled by its consumer, or is pending in the outbox or in the unread part of its topic: nothing is lost. |
| `SagaSafety.RefundIsNeverSwallowed` | services/payment/src/payment/db.py:68-88 | In every reachable state the payment of a CANCELLED order is FAILED, or REFUNDED, or PROCESSED with its reservation-failed event still owed to Payment. |
| `SagaSafety.RefundedIsExact` | services/payment/src/payment/db.py:68-88 | A payment is REFUNDED if and only if Payment has accepted a reservation-failed event of that saga. |
| `SagaSafety.CancelledUnrefundedIsExact` | services/order/internal/domain/order.go:66-89 | Whenever Order is about to cancel an order, its payment is FAILED or REFUNDED already if and only if it is not a reservation failure that finds the order PENDING and that Payment has not accepted. |
| `SagaSafety.NothingIsRejected` | services/order/internal/app/service.go:151-189 | No record the services produce is an invalid transition, unknown topic or unknown order at Order, and no order.cancelled finds stock to release, at any time. |
| `SagaSafety.NothingIsReleased` | services/inventory/src/service.cpp:125-143 | inventory.released is never emitted unless ReleaseStock is called from outside. |
| `SagaSafety.OrderEmitsOnce` | services/order/internal/app/service.go:195-213 | One OrderCreated row per order and one OrderCancelled row exactly if it is CANCELLED. |
| `SagaSafety.PaymentEmitsOnce` | services/payment/src/payment/db.py:35-88 | Each payment has exactly one PaymentProcessed or PaymentFailed row, matching its decision, and one PaymentRefunded row exactly if it is REFUNDED. |
| `SagaSafety.InventoryEmitsOnce` | services/inventory/src/db.cpp:53-94 | A saga has one InventoryReserved row exactly if it has a reservation, and one reserved-or-failed row in all exactly if its reserve key was used. |
| `SagaSafety.RefundReportsZero` | services/payment/src/payment/app.py:141-152 | A PaymentRefunded event belongs to a refunded payment and reports the charge if and only if the charge was zero. |
| `SagaReports.EveryRowIsTrue` | services/payment/src/payment/app.py:168-200 | In every reachable state every outbox row says what the tables say: order.created the order, payment.processed and payment.failed the amount of their payment, inventory.reserved the reservation, inventory.reservation_failed what was ordered. |
| `SagaReports.EveryRecordIsTrue` | services/inventory/src/service.cpp:12-47 | The same of every record of every topic. |
| `SagaReports.ChargesTheOrder` | services/payment/src/payment/app.py:100-139 | In every run, the first handling of an order.created charges the amount of the order, and calls for its own sku and quantity if and only if approved. |
| `SagaReports.CoveredIsReserved` | services/inventory/src/db.cpp:71-94 | In every run, the first execution of a reserve call leaves a reservation of what was ordered if and only if stock covers it, and else a refusal. |
| `SagaReports.CancellationReleases` | services/inventory/src/service.cpp:125-145 | In any state, an order.cancelled record under a new key whose saga has a RESERVED row returns that stock, marks the row RELEASED and announces it; else it only uses its key. |
| `SagaScenarios.ConfirmedIsReachable` | services/order/internal/domain/order.go:78-81 | A run that ends with a CONFIRMED order. |
| `SagaScenarios.StuckIsReachable` | services/payment/src/payment/app.py:129-139 | A run that ends quiescent with an order at PAYMENT_OK, its reserve call lost. |
| `SagaScenarios.CancelledBeforeRefunded` | services/order/internal/domain/order.go:66-70 | A run in which an order is CANCELLED while its payment is still PROCESSED. |
| `SagaScenarios.RefundMisreportsTheCharge` | services/payment/src/payment/app.py:141-152 | A run that charges 10.0 and reports a refund of 0.0. |
| `SagaScenarios.ParkedBeforeItsPrerequisite` | services/order/internal/kafkax/kafka.go:101-120 | A reachable state and a poll that holds both a parked reservation and, behind it, the charge it waits for; through any number of polls that dispatch the reservation first, the order stays PENDING and nothing is committed. |
| `SagaOutcome.QuiescentOutcome` | services/payment/src/payment/app.py:119-139 | With outboxes drained, topics read and no call in flight, an order is CONFIRMED, paid and held, or CANCELLED, undone and unheld, unless its reserve call was lost; and the lost ones are exactly those at PAYMENT_OK, PROCESSED, nothing reserved. |
| `SagaOutcome.RunConserves` | services/inventory/src/db.cpp:44-127 | Every run of the system conserves available + reserved for every sku. |
| `SagaOutcome.ConfirmedWithinHeld` | services/inventory/src/db.cpp:71-90 | The quantities of all CONFIRMED orders of a sku sum to at most what Inventory holds of it. |
| `SagaOutcome.NeverOversold` | services/order/internal/grpcapi/server.go:24-27 | For every sku, the quantities of all CONFIRMED orders sum to at most its initial available stock, in every run. |
| `SagaProgress.EffectiveShrinks` | services/order/internal/app/service.go:151-189 | A natural-number backlog falls on every fault-free step that does work. |
| `SagaProgress.ParkedIsOwedItsPrerequisite` | services/order/internal/domain/order.go:71-89 | Whenever a record is parked as premature, the prerequisite of the same saga is still on its way to Order. |
| `SagaProgress.SomeHeadIsAccepted` | services/order/internal/app/service.go:171-185 | With every outbox drained and Order not done, the head of some topic is accepted: parking never deadlocks. |
| `SagaProgress.WorkIsEnabled` | services/payment/src/payment/app.py:119-136 | In every state of the invariant that is not quiescent a fault-free step that does work is enabled. |
| `SagaProgress.EffectiveRunsAreBounded` | services/order/internal/outbox/relay.go:107-131 | No sequence of such steps is longer than the backlog. |
| `SagaProgress.AllParkedMeansUnsent` | services/order/internal/domain/order.go:71-89 | When the head of every unread topic at Order is premature, the prerequisite of each is a PENDING row in the outbox of the service that produces it. |
| `SagaProgress.EveryRunCanComplete` | services/order/internal/app/service.go:151-189 | Every run can be extended by at most backlog-many fault-free steps, each taking one row, call or topic head, to a quiescent state. |
| `Confluence.SagaIsConfluent` | services/order/internal/domain/order.go:60-103 | For a coherent and complete set of events, every order of acceptance ends in the one status the set determines. |
| `Confluence.ConfluenceIsExact` | services/order/internal/domain/order.go:66-89 | For a coherent set of events the final status is independent of the order if and only if a refusal comes with its refund. |
| `Confluence.SagasProject` | services/order/internal/store/store.go:88-130 | In any interleaved stream, each saga's status and cancellation rows depend only on its own first acceptances. |
| `Confluence.OrderIsConfluent` | services/order/internal/store/store.go:88-130 | For any number of interleaved sagas with parking and redelivery, once all events are accepted each saga has the status its events determine, with one OrderCancelled row exactly if it is CANCELLED. |
| `SagaConfluence.EmittedEventsAreCoherent` | services/payment/src/payment/app.py:100-152 | In every reachable state, the events the services have emitted to Order are one of a kind and coherent for every saga. |
| `SagaConfluence.QuiescentStatusIsTheVerdict` | services/order/internal/domain/order.go:60-103 | In every quiescent reachable state, the events are complete and each order has the status its events determine. |
| `OutboxRelay.Relay.FetchPending` | services/order/internal/store/store.go:144-170 | Returns the first pending rows in creation order, up to the limit. |
| `OutboxRelay.FetchIsExact` | services/order/internal/store/store.go:144-170 | A fetch takes the oldest PENDING rows in creation order, as many as there are up to the limit. |
| `OutboxRelay.Relay.DrainOrder` | services/order/internal/outbox/relay.go:107-131 | Order's drain, with a failing fetch or any faults on the way, refines the common drain at its batch size (100 if not positive), count and error together. |
| `OutboxRelay.Relay.DrainInventory` | services/inventory/src/outbox.cpp:9-33 | Inventory's drain refines the same drain, under the same faults, and raises exactly when it does not return normally. |
| `OutboxRelay.Relay.DrainPayment` | services/payment/src/payment/outbox.py:73-89 | Payment's drain refines the same drain with its batch size as it is, so a negative one is a fetch error that changes nothing. |
| `OutboxRelay.DrainSends` | services/order/internal/outbox/relay.go:107-131 | A drain logs, in order, a prefix of its batch: all of it exactly on normal return, else the rows published and the one it stopped at if that one reached the log all the same. |
| `OutboxRelay.DrainEnds` | services/order/internal/outbox/relay.go:107-131 | A drain ends at the first row that meets a fault, with the error of that fault and the number of rows before it; without one it is done. |
| `OutboxRelay.NoFetchNoDrain` | services/payment/src/payment/outbox.py:73-80 | A failing fetch, or a negative limit, is reported and touches nothing. |
| `OutboxRelay.DrainEffect` | services/inventory/src/outbox.cpp:12-33 | Rows before the failure are PUBLISHED; the failing one stays PENDING, with one more attempt when that was written, unless its mark committed and only the reply was lost; no other row changes. |
| `OutboxRelay.CountFallsByPublished` | services/payment/src/payment/outbox.py:73-89 | However the drain ends, the PENDING count falls by exactly the number published, and by one more if the reply of the last mark was lost. |
| `OutboxRelay.FaultlessDrain` | services/order/internal/outbox/relay.go:107-131 | Without faults one drain removes min(n, b) pending rows. |
| `OutboxRelay.DrainsEmptyTheOutbox` | services/order/internal/outbox/relay.go:107-131 | Without faults k drains of batch size b leave max(0, n - k*b) of n pending rows, so ceil(n/b) drains empty them. |
| `RelayFleet.FleetInvHolds` | services/order/internal/store/store.go:144-193 | With any number of relays in any interleaving, failing publishes and late deliveries included, the rows ever logged are exactly those PUBLISHED, in flight at a relay, or logged by a dispatch that ended without a mark. |
| `RelayFleet.FetchUnlockedIsExact` | services/order/internal/store/store.go:144-170 | A concurrent fetch takes the oldest PENDING rows that are not locked, as many as there are up to the limit. |
| `RelayFleet.QueuedOnce` | services/inventory/src/kafka_io.cpp:57-61 | A message left in a producer queue is delivered or given up once, and no other message leaves the queue with it. |
| `RelayFleet.SecondDispatchIsExact` | services/order/internal/store/store.go:144-170 | A row is logged again, by a send or by a late delivery, if and only if it is PUBLISHED, in flight at another relay, or was logged by a dispatch that ended without a mark. |
| `RelayFleet.FailedPublishIsLoggedTwice` | services/inventory/src/kafka_io.cpp:57-61 | A run of one relay in which a publish raises, its message is delivered all the same, and the retry logs the row a second time. |
| `RelayFleet.StaleSendOverlaps` | services/inventory/src/db.cpp:129-155 | A relay about to send a PUBLISHED row fetched it while it was PENDING, and another relay marked it later. |
| `RelayFleet.OneRelayRepeatsLostMarks` | services/payment/src/payment/outbox.py:73-89 | A single relay logs a row again if and only if an earlier dispatch logged it and ended without a mark. |
| `RelayFleet.LogShape` | services/order/internal/outbox/relay.go:107-131 | With one relay, through any publish failures, late deliveries, mark failures and crashes and with rows inserted at any moment, the log follows creation order from the first row with only adjacent repeats, PUBLISHED rows are a prefix, and the rows logged are those and at most the next one. |
| `RelayFleet.DrainIsActs` | services/order/internal/outbox/relay.go:107-131 | A drain with any faults, after the producer has delivered what it still had queued in any order, is a sequence of acts of its relay. |
| `FleetRefinement.WorldIsAFleet` | services/order/internal/store/store.go:132-139 | In the system with relays, each outbox lives the life of RelayFleet: service transactions only append rows, at most one each. |
| `FleetRefinement.WorldIsARun` | services/order/internal/outbox/relay.go:107-131 | Any number of relays per outbox, every act interleaved with all other steps: still a run of the system. |
| `FleetRefinement.WorldIsSafe` | services/order/internal/outbox/relay.go:107-131 | The joint invariant holds at every point of every such interleaving. |
| `FleetRefinement.SecondDispatchInTheWorld` | services/order/internal/store/store.go:144-170 | The exact condition for a row to be logged again holds in the whole system. |
| `FleetRefinement.LogShapeInTheWorld` | services/order/internal/outbox/relay.go:107-131 | With one relay on an outbox, what it logs has the shape of LogShape in the whole system. |
| `FleetRefinement.DoubleDispatchHappens` | services/order/internal/store/store.go:144-170 | From any initial state, two relays without a fault log one envelope twice, the second time after its row was marked. |
| `PollingConsumer.Consumer.Run` | services/payment/src/payment/kafka_io.py:53-77 | The loop that handles, then commits, and polls on after an exception has exactly the offsets of the specification. |
| `PollingConsumer.SkippedIsExact` | services/inventory/src/kafka_io.cpp:88-121 | A record below the committed offset was never handled if and only if its handler raised, a later record of its topic was committed before a restart, and no other attempt succeeded. |
| `PollingConsumer.OneExceptionSkips` | services/payment/src/payment/kafka_io.py:72-75 | One exception followed by one handled record skips the first record. |
| `PollingConsumer.SkippedForGood` | services/payment/src/payment/kafka_io.py:72-75 | A skipped record stays skipped in every continuation. |
| `PollingConsumer.NoExceptionNoSkip` | services/payment/src/payment/kafka_io.py:53-77 | Without handler exceptions every record below the committed offset was handled, through any restarts and failed commits. |
| `OrderConsumer.Consumer.Receive` | services/order/internal/kafkax/kafka.go:83-99 | The position moves past the fetch, the records come partition by partition, and the rewind map undoes exactly that move. |
| `OrderConsumer.Consumer.DispatchBatch` | services/order/internal/kafkax/kafka.go:101-110 | Records are handled up to the first error, premature event or database fault, and not beyond; effects of the ones before it are kept, and of the failing one exactly if only its reply was lost. |
| `OrderConsumer.Consumer.PollOnce` | services/order/internal/kafkax/kafka.go:78-125 | One turn of the loop, under any handler failure, refines Poll: all accepted and committed, or a prefix accepted with positions and commits as before. |
| `OrderConsumer.StopsAtFirstError` | services/order/internal/kafkax/kafka.go:101-110 | Left alone, a batch goes on to its first premature event, and stops there. |
| `OrderConsumer.RollbackAbortsTheBatch` | services/order/internal/kafkax/kafka.go:101-120 | A failing statement at a record that the batch gets to keeps the effects of the records before it, and leaves all offsets as they were. |
| `OrderConsumer.LostReplyAbortsTheBatch` | services/order/internal/kafkax/kafka.go:101-120 | So does a lost reply, which keeps the effect of its record too. |
| `OrderRetries.NeverCommitsPast` | services/order/internal/kafkax/kafka.go:78-125 | Through any turns, batches failed for any reason, rewinds, failed commits and restarts, every record below the committed offset has been accepted by its handler. |
| `OrderRetries.RestartRedelivers` | services/order/internal/kafkax/kafka.go:60-71 | A restart changes no table and no commit, and whatever is not committed is fetched again. |
| `OrderRetries.LoopIsRedelivery` | services/order/internal/kafkax/kafka.go:101-124 | The database after any such turns equals that of the records the turns dispatched, in order, and that of one delivery of each of these messages at its first acceptance. |
| `OrderRetries.RetryIsStuck` | services/order/internal/kafkax/kafka.go:101-120 | After a batch that stopped at a record, wherever it sits, any batch that agrees with it up to that record stops there again, and changes no order and no outbox. |
| `OrderRetries.RetryingInTheSameOrderIsStuck` | services/order/internal/kafkax/kafka.go:111-120 | After such a poll, any number of polls that dispatch the same records up to that one, whatever they fetch after it and whatever else fails, change no order, outbox or offset. |
| `OrderRetries.OneRecordTurn` | services/order/internal/kafkax/kafka.go:101-123 | A turn that polls one record which is not parked handles it and commits it. |
| `OrderRetries.BatchAcceptedIsExact` | services/order/internal/kafkax/kafka.go:101-110 | From any database, a batch of any length, with repeats and any number of sagas, is accepted whole if and only if each early event of each order is preceded in the batch by one that makes it acceptable. |
| `OrderRetries.NeverParkedIsExact` | services/order/internal/domain/order.go:71-89 | From any status, a trigger sequence is never parked if and only if every early trigger is preceded by what it needs: from PENDING a start or a settlement, from PAYMENT_OK a settlement, from the others nothing. |
| `FetchOrder.GoodOrderIsAccepted` | services/order/internal/kafkax/kafka.go:101-110 | In every reachable state with drained outboxes, for any number of sagas, one poll of everything unread in the order payment.processed, payment.failed, inventory.reserved, inventory.reservation_failed, payment.refunded is accepted whole, and leaves Order at the end of every log it reads, committed if the commit succeeds. |
| `LoopRefinement.LoopIsARun` | services/order/internal/kafkax/kafka.go:78-125 | Order's loop with its fetches, handler calls, database faults, rewinds, commits and restarts, interleaved at every point with all other steps, reaches the tables, logs and calls of a run of the system, and between batches its offsets. |
| `LoopRefinement.PollIsMoves` | services/order/internal/kafkax/kafka.go:78-125 | A turn of the loop that ends as Poll says, for any reason, is a sequence of such moves. |
| `LoopRefinement.RestartIsAMove` | services/order/internal/kafkax/kafka.go:60-71 | A restart at any point of the loop is the restart of its specification. |
| `PollingRefinement.TurnIsARun` | services/payment/src/payment/kafka_io.py:53-77 | A turn of Payment's or Inventory's loop in which no handler raises, or a restart, is a run of the system with the same offsets: the handler's transaction for a handled record, no table changed otherwise. |
| `WholeSystem.WholeIsARun` | services/payment/src/payment/app.py:100-152 | All relays, all three consumer loops, clients and reserve calls, interleaved move by move in any order: the tables, logs, calls and the offsets of Payment and Inventory are those of a run of the system, and between batches so are Order's. |
| `WholeSystem.WholeIsSafe` | services/order/internal/domain/order.go:60-103 | At every point of every such interleaving each saga's view and the stock satisfy the joint invariant, and a CONFIRMED order is paid and held. |
| `WholeSystem.WholeRefundsAreOwed` | services/payment/src/payment/app.py:141-152 | At every such point the payment of a CANCELLED order failed or was refunded, or the refusal that refunds it is in Inventory's outbox or unread by Payment. |
| `WholeSystem.WholeNeverOversells` | services/inventory/src/db.cpp:44-95 | At every such point the CONFIRMED orders of a sku add up to no more than was available at the start. |
| `WholeSystem.WholeTellsTheTruth` | services/inventory/src/service.cpp:12-47 | At every such point every outbox row says what the tables say. |
| `WholeSystem.PollersTakeTurns` | services/inventory/src/kafka_io.cpp:88-121 | In every such interleaving the offsets of Payment and of Inventory are those after the turns that their own moves make up (handled and committed, uncommitted, or a restart that drops the record in hand), and these turns handled every record below a committed offset. |
| `WholeSystem.PollersSkipNothing` | services/payment/src/payment/kafka_io.py:53-77 | In every such interleaving, each record below a position of Payment or Inventory is in its log and the service's tables show that it was handled. |

## Left out

- JSON envelopes and poison messages: an envelope is a record of key, saga, topic and data; a message that does not parse is not modelled. Fields that no service reads (status, reason, customer and order ids, the reservation id of inventory.released) are left out of the data.
- Kafka, PostgreSQL, gRPC: a publish that returns appended its record and everything its producer had queued before, transactions are atomic, each topic has one partition.
- UUIDs are natural numbers; a drawn key is one never drawn before (`issued` remembers them). Customer ids and timestamps do not occur.
- Database errors inside a handler of Payment or Inventory: the system has crashes and restarts of these two services but not an exception followed by more polling, which `PollingConsumer` treats on its own.
- A batch of Order meets at most one database fault, because the first error ends it.
- Outside callers of ReserveStock and ReleaseStock: in the system Payment is the only caller. `Ledger` covers arbitrary callers.
- The amount comparison of `decide_payment` is over real numbers, not binary floating point; no result depends on which amounts are approved.
- 32-bit quantities are unbounded integers; `Ledger.LedgerBounds` keeps stock levels within the initial total.
- Wall-clock time, backoff, poll intervals: any schedule is allowed. `created_at` order is the order of commits.
- RelayFleet.LogShape: speaks of a single relay, because two concurrent relays may send out of order.
- Orders.Store.Create: checks the request first, which the server does before it reaches the store.
- Tracing, logging, metrics, configuration, REST gateway, deployment.
