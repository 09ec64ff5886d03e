# Rocket shop: a verified model

A Dafny 4.11 model of the rocket shop's services, with proofs about whole runs of them:

- the order / payment / assembly protocol: the orders table, the payment store, the two
  Kafka topics, the use cases and the two handlers, with every read, remote call, write
  and publish allowed to fail, to lose its reply or to leave duplicates;
- the Kafka consumer loop over any number of sessions;
- the graceful-shutdown `Closer`, under every schedule of its goroutines and callers;
- the inventory filter, in memory and as a MongoDB query;
- the order API's generated router, client paths and JSON decoders;
- the session cache with its time-to-live.

`dafny verify dfyconfig.toml` checks everything.

## How it is laid out

| file | content |
|---|---|
| `Domain.dfy`, `Wrappers.dfy` | entities and the shared state `Sys` |
| `OrderProtocol.dfy` | the stages of each use case and handler, as functions, and their serialised composition |
| `OrderService.dfy` | repositories, use cases and handlers as classes, each method tied to its stage or step |
| `Serialised.dfy`, `Ledger.dfy`, `Delivery.dfy`, `Drain.dfy` | runs whose steps are whole use cases and handlers |
| `Interleaved.dfy` | runs whose steps are single stages of any number of requests holding stale snapshots |
| `Consumption.dfy` | serialised runs whose topics are consumed partition by partition, with marks, commits and new sessions |
| `Overtaking.dfy`, `Steadiness.dfy` | exactly which interleaved runs keep what every serialised run keeps |
| `Serialisable.dfy`, `InterleavedLedger.dfy` | each of those is equivalent to a serialised run, and its counters are conserved |
| `Linking.dfy` | every serialised run is one of those; runs that show what interleaving breaks |
| `Closer.dfy`, `CloserRuns.dfy` | the shutdown steps and what holds under every schedule; what CloseAll answers, by what was added and returned |
| `ConsumerGroup.dfy`, `Inventory.dfy`, `InventoryMongo.dfy`, `Router.dfy`, `OrderJson.dfy`, `Sessions.dfy` | one component each |

What lies outside the code enters as parameters: which calls fail and how (before or after
taking effect), fresh identifiers, clock readings, how many copies a publish leaves, the
random build time. A new transaction or order id need not be new: a used one takes the
code's own error branch. Handlers may be given any topic position, any number of times, for
what holds however messages are delivered; `Consumption` delivers them as the consumer loop
does, for what can still happen.

## What the proofs found

- Run one step at a time, the protocol is safe although the order consumer writes COMPLETED
  without looking at the status: the status only moves forward, no cancelled order
  completes, at most one payment call succeeds and at most one event is created.
- Interleaved, three of these fail, and `Linking` gives the runs: two payment calls for one
  order both succeed with two transactions and two events; a cancellation overwrites a paid
  order; that cancelled order then completes with an empty transaction id. `Overtaking` says
  exactly when: statuses move forward at every step and each order is paid at most once, if
  and only if no UPDATE overtakes, that is pays an order no longer pending or cancels one
  already paid or completed. A condition on the status in those two UPDATEs would be enough;
  the order consumer's unguarded COMPLETED is never the first to break anything. What holds
  of every interleaved run is provenance and coherence of the (transaction, method) pair.
- The two models meet there: a run in which no UPDATE overtakes leaves the same rows (up to
  updated_at), transactions and events as some serialised run, and every serialised run is
  such a run.
- A failed publish is swallowed, and a failed handler is passed over, so a paid order can
  stay PAID for ever even when its event is in the topic: `Consumption` gives the run. A PAID
  order can still complete if and only if some message in either topic names it at or past
  what its partition has committed.
- Run one step at a time, the "paid" counter equals the number of paid and completed orders
  if and only if no payment's UPDATE took effect while reporting an error, and the "created"
  counter the number of orders if and only if no INSERT did; every counter is short by
  exactly those calls. Interleaved, the same holds up to payments written and not yet
  counted as long as no UPDATE overtakes; otherwise one order may be counted twice.
- A message below a partition's mark never succeeded if and only if it failed before a later
  success of the same session; nothing is lost exactly when no session has a success after
  a failure.

Where the code and its documentation differ, the model follows the code: the documented
status ASSEMBLED is COMPLETED; cancelling a completed or already cancelled order is
documented as refused but returns success and changes nothing (`Serialised.CancelSuccessCondition`); the build takes 1 to 10
seconds, not 2 to 10.

## Model

| member | source | states |
|---|---|---|
| Domain.ToProto | order/internal/client/grpc/payment/converter/converter.go:8-23 | The converted method has the original's name, and determines it, except that unlisted text becomes "unspecified" |
| OrderService.OrderRepository.Create | order/internal/repository/create.go:12-45 | Inserts the row unless its key is used or the statement failed before taking effect |
| OrderService.OrderRepository.Update | order/internal/repository/update.go:13-57 | Read, merge of the fields present, write of four columns; its new table and error flag under each fault |
| OrderService.PaymentRepository.CreateTransaction | payment/internal/repository/payment/repository.go:22-32 | Stores a transaction exactly when its id is unused |
| OrderService.PaymentRepository.ListTransactions | payment/internal/repository/payment/repository.go:58-70 | Returns each transaction of the order exactly once and nothing else, in whatever order the map is walked |
| OrderService.PaymentUseCase.PayOrder | payment/internal/usecase/pay.go:16-50 | Refuses empty ids, otherwise stores the new transaction with order, user and method, and returns its id |
| OrderService.OrderUseCase.CreateOrder | order/internal/usecase/create.go:20-76 | The price loop and insert compute the CreateOrder step; on success every part was in stock and the total is the sum of the quoted prices; which error a missing and a sold-out part gets |
| OrderService.OrderUseCase.PayOrder | order/internal/usecase/pay.go:16-67 | The five stages with their early returns compute the PayOrder step on the whole shared state |
| OrderService.OrderUseCase.CancelOrder | order/internal/usecase/cancel.go:12-33 | Guard and update compute the CancelOrder step |
| OrderService.ShipHandler.Handle | order/internal/service/consumer/order_consumer/handler.go:29-60 | Undecodable messages change nothing; any other writes COMPLETED whatever the status |
| OrderService.PaidHandler.Handle | assembly/internal/service/consumer/order_consumer/handler.go:34-97 | Cancellation publishes nothing; otherwise the event for the same order and user is published; the duration is observed once, as an error only on cancellation |
| Serialised.PaySuccessCondition | order/internal/usecase/pay.go:16-67 | Exactly when PayOrder succeeds; a failed call publishes and counts nothing |
| Serialised.PaySuccessMeaning | order/internal/usecase/pay.go:24-66 | A success pays a pending order with a new stored transaction and matching method, publishes only the matching event and changes no other row |
| Serialised.PayAnswers | order/internal/usecase/pay.go:16-67 | Which error each failing stage of PayOrder returns, each if and only if |
| Serialised.CancelAnswers | order/internal/usecase/cancel.go:12-33 | Which error each failure of CancelOrder returns, and the one row change it can make |
| Serialised.HandlePaidAnswers | assembly/internal/service/consumer/order_consumer/handler.go:34-97 | When the assembly handler fails and how, and every field of what it publishes |
| Serialised.HandleShipAnswers | order/internal/service/consumer/order_consumer/handler.go:29-60 | When the order consumer fails and how, and the one row change it makes |
| Serialised.CancelSuccessCondition | order/internal/usecase/cancel.go:12-33 | Exactly when CancelOrder succeeds: also on an order already cancelled or completed |
| Serialised.CancelSuccessMeaning | order/internal/usecase/cancel.go:12-33 | A successful cancel leaves the order CANCELLED or COMPLETED; a paid order is refused; an order past PENDING_PAYMENT is not touched, and no other row ever |
| Serialised.StepKeepsInv | order/internal/service/consumer/order_consumer/handler.go:46-53 | Every step, however it fails, keeps the cross-service invariant and moves statuses along PENDING_PAYMENT, PAID, COMPLETED or PENDING_PAYMENT, CANCELLED |
| Serialised.StatusOnlyMovesForward | order/internal/usecase/cancel.go:18-30 | Over any run no order is removed, statuses only move forward, CANCELLED is final and a paid order is never cancelled |
| Serialised.NoCancelledOrderCompletes | order/internal/service/consumer/order_consumer/handler.go:46-53 | The same between any two moments of any run from an empty system |
| Serialised.PaidAtMostOnce | order/internal/usecase/pay.go:24-66 | Over any run at most one PayOrder call per order succeeds and all its OrderPaid events are one event, whatever earlier attempts recorded |
| Serialised.UnannouncedStaysPaid | order/internal/usecase/pay.go:52-64 | A PAID order no OrderPaid in the topic names is PAID after every continuation, whatever is delivered how often |
| Serialised.PaidOrderCanBeStranded | order/internal/usecase/pay.go:60-64 | A run in which the payment succeeds and its publish is lost |
| Ledger.UnreportedMeaning | order/internal/usecase/pay.go:42-49 | The calls left uncounted, given by what they meet and which write misreports, are exactly those that change the table and return an error |
| Ledger.StepLedger | order/internal/usecase/pay.go:42-49 | Each step keeps the distance between the table and every counter, except an INSERT or UPDATE that took effect but was reported as failed |
| Ledger.CountersMatchOrders | order/internal/usecase/pay.go:42-49 | Over whole runs each revenue counter, the paid counter and the created counter equal the table's totals minus exactly what went unreported; the paid and created counters are right if and only if nothing did |
| Ledger.UnreportedWeighsOne | order/internal/usecase/create.go:60-66 | Every write reported as failed after taking effect leaves the created or paid counter short by exactly one |
| Ledger.PaidCounterCanFallShort | order/internal/usecase/pay.go:42-49 | A run from an empty system whose paid counter is short of the one paid order |
| Ledger.TotalsAreHeadCounts | order/internal/usecase/pay.go:46-47 | The table's totals for the paid and the created counter are the number of PAID and COMPLETED orders and the number of all orders |
| Ledger.QuoteMeaning | order/internal/usecase/create.go:31-43 | A quote succeeds exactly when all parts are found and in stock, with the sum over all positions; otherwise the error is the first bad part's |
| Ledger.QuoteAnswers | order/internal/usecase/create.go:31-40 | "Not found" if and only if the first part not in stock was not quoted, "out of stock" if and only if it was quoted with nothing left |
| Ledger.CreateAnswers | order/internal/usecase/create.go:20-76 | Which error each failure of CreateOrder returns, and every field of the row it inserts |
| Ledger.SumIsMultisetSum | order/internal/usecase/create.go:31-43 | The total depends on the prices with their multiplicities only |
| Ledger.OrderKeepsItsPrice | order/internal/repository/update.go:35-41 | No later step touches an order's owner, parts or price |
| Ledger.PriceIsQuotedSum | order/internal/usecase/create.go:31-62 | Every order in the table was created by a CreateOrder of the run, at the sum of what it was quoted, and still has that price |
| Delivery.DeliveryCompletesExactlyTheNamed | order/internal/service/consumer/order_consumer/handler.go:29-60 | Any deliveries turn exactly the existing orders they name into COMPLETED and change nothing else but updated_at |
| Delivery.DeliveryOrderIsIrrelevant | order/internal/repository/update.go:13-57 | Order, repetition, timing and failed writes do not matter: same orders named, same rows up to updated_at |
| Delivery.AnyInterleavingOfPartitions | assembly/internal/service/producer/order_producer/producer.go:38-39 | Any interleaving of what two partitions deliver leaves the same rows up to updated_at |
| Drain.NextKeepsDInv | order/internal/usecase/pay.go:52-64 | In fault-free runs an order is PAID exactly while one message of it is unread in one of the topics, never two; a handler step takes exactly one off twice the unread OrderPaid plus the unread ShipAssembled |
| Drain.DrainCompletesPaidOrders | assembly/internal/service/consumer/order_consumer/handler.go:79-89 | Once API calls stop, every schedule of the handlers that leaves nothing unread has turned exactly the PAID orders into COMPLETED ones |
| Drain.CanBeDrained | order/internal/service/consumer/order_consumer/handler.go:46-53 | From every state such a schedule exists, of exactly that length, taking the messages of each topic in order |
| Drain.EveryPaidOrderCompletes | order/internal/usecase/pay.go:52-66 | An order paid in a fault-free run is COMPLETED whenever nothing is unread, whatever happened in between |
| Drain.FaultFreeRunsDrain | order/internal/usecase/pay.go:52-64 | All of this from an empty system: after any fault-free run, PAID exactly while one message is unread; handler steps count down to where exactly the PAID orders are COMPLETED; such a schedule exists, in order |
| Consumption.PaidOrderCanComplete | platform/pkg/kafka/consumer/group_handler.go:40-72 | After any run with any faults, under any split into partitions: some continuation completes a PAID order if and only if a message in either topic, at or past what its partition has committed, names it; if none does, it is PAID after every continuation |
| Consumption.AnnouncedOrderCanBeLost | platform/pkg/kafka/consumer/group_handler.go:60-65 | A run in which an order's event is in the topic, failed, was passed over by a later success and committed past: PAID after every continuation |
| Consumption.MarksArePastSuccesses | platform/pkg/kafka/consumer/group_handler.go:60-65 | In these runs too, a mark and what is committed only move to one past a message whose handler succeeded |
| Consumption.ConsumedRunsAreSerialised | platform/pkg/kafka/consumer/consumer.go:39-54 | Every such run is a serialised run, so all that is proved of those holds of it |
| Interleaved.StageKeepsOk | order/internal/usecase/pay.go:16-67 | Every stage of every request and handler keeps the cross-service invariant, from any stale snapshot |
| Interleaved.WriteKeepsOk | order/internal/repository/update.go:43-57 | Writing a stale merged copy over whatever the row has become keeps the invariant |
| Interleaved.Provenance | order/internal/service/consumer/order_consumer/handler.go:33-53 | In every interleaved run each COMPLETED row and each ShipAssembled has an OrderPaid for that order and user, and each OrderPaid a stored transaction with its order, user, id and converted method |
| Interleaved.TransactionAndMethodAgree | order/internal/repository/update.go:17-57 | In every interleaved run each row and each held snapshot has no transaction or a stored one for that order and user with the converted method; a PAID row always has one |
| Overtaking.SafeUnlessOvertaken | order/internal/usecase/pay.go:24-44 | For every interleaved run: no UPDATE overtakes if and only if every move takes every order along an edge and at most one payment of each order takes effect |
| Overtaking.NothingOvertakenMeans | order/internal/usecase/cancel.go:18-30 | If no UPDATE overtakes: between any two moments statuses only move forward, no cancelled order completes, at most one PayOrder call per order succeeds, and its OrderPaid events are one event |
| Overtaking.DoStaysInStep | order/internal/service/consumer/order_consumer/handler.go:46-53 | A move that overtakes nothing keeps the invariant, and settles an order exactly when it is that order's payment UPDATE |
| Steadiness.DoKeepsSteady | order/internal/repository/update.go:17-57 | If no UPDATE overtakes, snapshots keep their order's owner, parts and price, and a merged copy that can still matter has the row's own transaction and method; only payments change those in a row |
| Serialisable.SerialisableUnlessOvertaken | order/internal/usecase/pay.go:16-67 | For every interleaved run in which no UPDATE overtakes, some serialised run leaves the same rows up to updated_at, the same transactions and the same events in both topics, each as often |
| InterleavedLedger.CountersMatchUnlessOvertaken | order/internal/usecase/pay.go:42-49 | For those runs and every counter: the table's total is what was counted, plus payments written and not yet counted, plus what was written but reported as failed |
| Linking.StepIsItsStages | order/internal/usecase/pay.go:16-67 | A use case or handler whose stages run back to back has exactly its serialised effect and result, and overtakes nothing |
| Linking.SerialisedRunsAreInterleaved | order/internal/usecase/pay.go:16-67 | Every serialised run is an interleaved run in which nothing is overtaken |
| Linking.TwoPaysCanBothSucceed | order/internal/usecase/pay.go:24-44 | A run in which two overlapping payments of one order both succeed |
| Linking.CancelCanOverwritePaid | order/internal/usecase/cancel.go:23-30 | A run in which a cancellation overwrites a paid order and drops its transaction |
| Linking.CancelledOrderCanComplete | order/internal/service/consumer/order_consumer/handler.go:46-53 | Its continuation: the cancelled order completes |
| ConsumerGroup.WhatTheMarkMeans | platform/pkg/kafka/consumer/group_handler.go:40-72 | After any sessions the mark is the start or one past a success; everything below was delivered; a message below never succeeded if and only if it failed before a later success of its session |
| ConsumerGroup.MarkNeverMovesBack | platform/pkg/kafka/consumer/group_handler.go:60-65 | The mark never moves back from one session to a later one |
| ConsumerGroup.SuccessIsFinal | platform/pkg/kafka/consumer/group_handler.go:60-65 | A message that succeeded is below the mark and is not delivered in any later session |
| ConsumerGroup.NothingLostCondition | platform/pkg/kafka/consumer/group_handler.go:60-65 | Everything below the mark succeeded exactly when no session has a success after a failure |
| ConsumerGroup.PartitionSession.ConsumeClaim | platform/pkg/kafka/consumer/group_handler.go:40-72 | The receive loop with its `continue` on error computes the session's mark |
| ConsumerGroup.Consume | platform/pkg/kafka/consumer/consumer.go:36-55 | Runs sessions up to the first error, closed group or finished context: nil exactly for a closed group, the error exactly for a failed one, the context's exactly for a finished context |
| ConsumerGroup.NewGroupHandler | platform/pkg/kafka/consumer/group_handler.go:20-30 | The reversed loop builds the composition of the middlewares in listed order |
| ConsumerGroup.MiddlewaresRunInOrder | platform/pkg/middleware/kafka/logging.go:16-23 | Logging middlewares act in listed order before the handler and leave its outcome alone |
| Closer.NextKeepsInv | platform/pkg/closer/closer.go:145-216 | Every step of every caller, worker, waiter and of the select loop keeps the invariant |
| Closer.NoCrashNoBlockDoneOnce | platform/pkg/closer/closer.go:148-213 | Under every schedule nothing is sent or closed after the channel closed, no worker blocks on its send, `done` is closed exactly once |
| Closer.ExactlyTheAddedAreCalledOnce | platform/pkg/closer/closer.go:137-185 | Exactly the functions added before the snapshot are launched, last added first and all before the select loop, so on cancellation too; each is called at most once, exactly once when it is finished |
| Closer.WhatCloseAllReturns | platform/pkg/closer/closer.go:193-215 | Nil only if all functions finished cleanly; without cancellation nil exactly then, else the first error; on cancellation the first error taken or the context's |
| Closer.OnlyTheRunnerGetsTheResult | platform/pkg/closer/closer.go:145-148 | The caller that begins the body gets its result; every other call returns nil, and none before the body is over |
| Closer.CloseAllIsBounded | platform/pkg/closer/closer.go:166-213 | At most 6n + 4 steps follow the snapshot of n functions, under every schedule |
| Closer.NeverStuck | platform/pkg/closer/closer.go:193-213 | While the body runs, some step is possible that needs no registered function to return, or such a function is still running |
| CloserRuns.ReturnsAreCarried | platform/pkg/closer/closer.go:170-184 | Under every schedule, from a function's return on its worker holds no error for nil, that error for an error, the recovered one for a panic |
| CloserRuns.AnswerIsTheFunctions | platform/pkg/closer/closer.go:145-216 | Nil only if all that returned, returned nil; any error is one a function brought or, on cancellation, the context's; without cancellation every function has returned and nil is answered if and only if all returned nil |
| CloserRuns.TakenIsWhatWasAdded | platform/pkg/closer/closer.go:137-154 | The functions taken are all those added before the snapshot, in order; later ones stay registered |
| CloserRuns.CanLeaveEarly | platform/pkg/closer/closer.go:195-201 | A schedule in which CloseAll returns the context's error while a function is running |
| CloserRuns.Shutdown.AddFuncs | platform/pkg/closer/closer.go:137-141 | Appends to the registered functions |
| CloserRuns.Shutdown.CloseAll | platform/pkg/closer/closer.go:145-216 | Run to its end by an arbitrary scheduler it terminates, closes `done` once; a later call returns nil and runs nothing; without cancellation it returns nil exactly when all functions finished cleanly, else the first error; on cancellation the first error taken, else the context's; and all this by what the functions returned in the object's whole history |
| Inventory.InventoryRepository.CreatePart | inventory/internal/repository/inventory/repository.go:60-70 | Stores a part exactly when its id is unused |
| Inventory.InventoryRepository.DeletePart | inventory/internal/repository/inventory/repository.go:84-94 | Removes exactly the named part, or reports it missing |
| Inventory.InventoryRepository.ListParts | inventory/internal/repository/inventory/repository.go:35-58 | Each stored part meeting all five criteria exactly once and nothing else, for every map order, through the shortcut as well |
| Inventory.ApplyFilters | inventory/internal/repository/inventory/repository.go:97-113 | The five passes select exactly the parts meeting all five criteria |
| Inventory.FilterByUuids | inventory/internal/repository/inventory/repository.go:116-128 | Keeps exactly the listed keys, repeated values or not |
| Inventory.FilterByNames | inventory/internal/repository/inventory/repository.go:131-146 | Keeps exactly the parts with a listed name, leaving the inner loop early |
| Inventory.FilterByCategories | inventory/internal/repository/inventory/repository.go:149-164 | Keeps exactly the parts with a listed category |
| Inventory.FilterByCountries | inventory/internal/repository/inventory/repository.go:167-185 | Keeps exactly the parts that have a manufacturer from a listed country |
| Inventory.FilterByTags | inventory/internal/repository/inventory/repository.go:188-206 | Keeps exactly the parts sharing a tag, leaving both inner loops at the first |
| Inventory.PassesCommute | inventory/internal/repository/inventory/repository.go:105-112 | The five passes give the same parts in any order and with any repetition |
| InventoryMongo.BuildQuery | inventory/internal/repository/inventory/repository_mongo.go:74-99 | One condition for each list that is not empty, categories converted |
| InventoryMongo.QueryMeansCriteria | inventory/internal/repository/inventory/repository_mongo.go:72-99 | The query holds of a part's document exactly when the part meets the five criteria, with or without manufacturer and tags |
| InventoryMongo.InMillisIsFloor | inventory/internal/entyties/models/models.go:21-22 | A stored time is the last whole millisecond not after it |
| InventoryMongo.EncodeCarries | inventory/internal/entyties/models/models.go:10-23 | Each field of a part is in the document under its own name; a nil manufacturer and empty tags are left out |
| InventoryMongo.DecodeEncode | inventory/internal/entyties/models/models.go:10-23 | A stored part is read back, omitted fields included, with its times rounded down to the millisecond |
| InventoryMongo.MongoRepository.ListParts | inventory/internal/repository/inventory/repository_mongo.go:72-117 | Each stored part meeting the five criteria, once and nothing else, or an error if the database fails |
| InventoryMongo.MongoRepository.CreatePart | inventory/internal/repository/inventory/repository_mongo.go:120-130 | Inserts with new timestamps unless the unique index refuses or the insert fails before taking effect |
| InventoryMongo.MongoRepository.DeletePart | inventory/internal/repository/inventory/repository_mongo.go:153-164 | Removes the one document with that uuid, or reports it missing or the failure |
| InventoryMongo.RunBoth | inventory/internal/repository/inventory/repository.go:60-94 | Any creates and deletes done to both repositories, as long as the database reports no failure, succeed and fail alike and leave the same parts |
| InventoryMongo.SamePartsSelected | inventory/internal/repository/inventory/repository_mongo.go:72-117 | Repositories with the same parts answer every filter with the same parts, each once, timestamps aside |
| Router.ServeHTTP | shared/pkg/openapi/order/v1/oas_router_gen.go:28-166 | The nested switches compute the dispatch |
| Router.FindPath | shared/pkg/openapi/order/v1/oas_router_gen.go:213-367 | The nested switches find exactly what ServeHTTP would dispatch |
| Router.CutPrefix | shared/pkg/openapi/order/v1/oas_router_gen.go:13-24 | Succeeds exactly on paths under the prefix and cuts it |
| Router.ServedMeansTemplates | shared/pkg/openapi/order/v1/oas_router_gen.go:28-166 | For every verb and path: served exactly when a template fits with its verb, "not allowed" exactly when one fits with another, "not found" exactly when none fits |
| Router.FourRoutes | shared/pkg/openapi/order/v1/oas_router_gen.go:28-166 | The four paths written out: POST creates, cancels and pays, GET gets, and any other verb is told which one is allowed |
| Router.OnlyFourRoutes | shared/pkg/openapi/order/v1/oas_router_gen.go:28-166 | Any other path is "not found" |
| Router.TemplatesNeverOverlap | shared/pkg/openapi/order/v1/oas_router_gen.go:254-355 | A path fits at most one of the four templates, with one argument |
| Router.BuildPath | shared/pkg/openapi/order/v1/oas_client_gen.go:416-439 | The client's parts, slot by slot, make a path that fits the operation's template |
| Router.ClientToServer | shared/pkg/openapi/order/v1/oas_client_gen.go:158-179 | Every path the client builds from an order UUID is dispatched to the same operation with the same argument |
| OrderJson.ListMissing | shared/pkg/openapi/order/v1/oas_json_gen.go:638-669 | The popcount and trailing-zero loop lists exactly the missing required fields, once each, in index order, always by name |
| OrderJson.AbsentMeaning | shared/pkg/openapi/order/v1/oas_json_gen.go:638-669 | The names listed are those of the fields not met, each once, in index order |
| OrderJson.LastMeaning | shared/pkg/openapi/order/v1/oas_json_gen.go:535-635 | A field's value is what its last occurrence reads |
| OrderJson.ReadMeaning | shared/pkg/openapi/order/v1/oas_json_gen.go:535-635 | A field reads exactly what its kind of value writes |
| OrderJson.Decode | shared/pkg/openapi/order/v1/oas_json_gen.go:535-672 | First unreadable known field, else the missing ones, else each field's last occurrence, for any key order, duplicates and unknown keys; of UUID texts only the canonical lower-case form reads |
| OrderJson.DecodeReorderedEncoding | shared/pkg/openapi/order/v1/oas_json_gen.go:489-672 | Decoding any reordering of an encoded value with unknown keys mixed in gives it back |
| Sessions.AuthService.Login | iam/internal/service/auth/service.go:36-71 | The code computes the login step on cache and history |
| Sessions.AuthService.Whoami | iam/internal/service/auth/service.go:73-96 | The code computes the whoami step, with lazy deletion |
| Sessions.SessionRepository.Create | iam/internal/repository/session/create.go:17-36 | A keyed write with a time-to-live, none for zero or less, which may fail before or after taking effect |
| Sessions.LoginAnswers | iam/internal/service/auth/service.go:36-71 | Success if and only if lookup, credentials, store and user set are all right; which refusal each failure gets; every field of what is written, and its deadline |
| Sessions.WhoamiAnswers | iam/internal/service/auth/service.go:73-96 | The user if and only if the session is there, not past its expiry, and the user is found; which refusal each failure gets; only an expired session is removed |
| Sessions.LoginOutcome | iam/internal/service/auth/service.go:36-71 | A success means the credentials were right and the session is cached; wrong credentials change nothing; nothing is ever written without right ones |
| Sessions.StepKeepsInv | iam/internal/service/auth/service.go:82-88 | Logins, lazy deletions and evictions keep: what the cache no longer holds has reached its expiry |
| Sessions.DeletionIsUnobservable | iam/internal/service/auth/service.go:73-96 | After any run Whoami answers like a table that never deletes, save possibly in the instant of expiry |
| Sessions.SessionLivesUntilItExpires | iam/internal/service/auth/service.go:50-96 | A login's session gives its user, as the accounts then have it, strictly before ExpiresAt and is refused for ever after it |

## Left out

- Logging, tracing, configuration, dependency wiring, migrations, Telegram, Envoy and the HTTP and gRPC delivery layers: no behaviour beyond calls to what is modelled.
- Money as float32 and NUMERIC(12,2): prices are exact integers, so rounding is not modelled, nor that the metrics library panics on a negative price.
- Interleaved requests and the Closer's goroutines are steps on values, since Dafny has no threads; CloserRuns.Shutdown.CloseAll runs the Closer's steps as a loop on an object, with the scheduler's choices arbitrary.
- Payment-service restarts: its store is in memory only, and every claim about stored transactions is about one lifetime of it.
- Commits of Kafka offsets in `ConsumerGroup`: there a session is assumed to resume at the mark the last one reached; `Consumption` has commits as steps of their own.
- Decoding and encoding of events: topics hold the events themselves; undecodable messages appear only as arguments of the handlers.
- GetTransaction and UpdateTransaction of the payment store, and the conversion of Kafka headers: they would add easy members only.
- created_at of an order: carried along and never read.
- InventoryMongo.DecodeEncode: leaves out the dimensions and metadata of a part, which no filter reads.
- InventoryMongo.RunBoth: says nothing of runs in which the database fails, since the in-memory repository cannot.
- Sessions: times are whole milliseconds, the finest time-to-live the cache is given.
- MongoDB updates: `$set` without omitted fields keeps old values, so the repositories do not agree after them; in-memory updates under another key are not part of the agreement either.
- Escaped paths: the router is modelled for an empty RawPath, and the client's base path is the server's prefix.
- JSON text, and UUID texts other than the canonical lower-case form: values are tokens; the two decoders are one decoder over a list of fields.
- Bits of a byte are listed instead of packed, with AND, XOR, count and trailing zeros defined on the list.
- The set of a user's sessions: adding to it appears only as a failure that makes Login report an error after the session was stored.
- CloserRuns.Shutdown.CloseAll: is not called while another call is in the body, since a method runs to its end; Closer.OnlyTheRunnerGetsTheResult covers such calls.
- OrderJson.Decode: refuses UUID texts in upper case, in braces or after "urn:uuid:", which the code reads.
- handleSignals, Configure and Wait: a signal is one more caller of CloseAll, and waiting reads `done`.
