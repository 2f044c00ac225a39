# Order pipeline: a verified model

An order-management system built from event sourcing and CQRS. Commands rebuild an order from its stored events,
check a guard, append one event at the next version and publish it to Kafka. A consumer projects the topic into two
Postgres tables, deletes the cached view, marks the event as processed and commits the offset; what fails goes to a
queue, from which a scheduled handler re-publishes it or files it as a dead letter. An archiver copies the topic to
object storage, and a reader serves orders through a cache.

The model has two layers.

* **Machines.** Each concurrent part is a total step function over a state and an action. An action that is not enabled
  changes nothing, a run is a fold of the step function over any sequence of actions, and every outside write ends in one
  of three ways: it returns, it takes effect but raises, or it raises without effect. A read that raises is the end of
  its request or process. Crashes, expiring keys and
  interleavings are actions. Hypotheses are predicates on a state and an action, never on the conclusion.
* **Objects.** The code that updates state in place is a class with the same fields. Its methods state their effect on
  these fields in plain terms, and are proved to do exactly the steps of the machine, so what is proved of all runs of
  the machine holds of the objects.

| files | part of the system |
|---|---|
| `Events`, `Aggregate`, `Rebuild`, `EventStore` | events and factories, the aggregate and its guards, the event store |
| `WriteSide`, `Publisher`, `CommandRouter` | interleaved command handlers, the publisher, one command from request to response |
| `ReadModel`, `Postgres`, `Agreement`, `Redelivery`, `LateRedelivery` | the projection and its relation to the aggregate |
| `Topics`, `Consumer`, `ConsumerLoop`, `CrashSafety`, `CrashRuns` | the consumer, its loop body, crash safety |
| `RetryCircuit`, `RetryHandler`, `BoundedRetries`, `TightRetries`, `LostEvents`, `LateRuns` | the retry circuit |
| `Pipeline`, `Expiry`, `EndToEnd`, `Convergence`, `HeaderConvergence`, `Mishaps` | commands, topic, consumer and retry handler together |
| `Cache`, `StaleCache`, `QueryRouter` | the cache-aside reader |
| `Archiver`, `ArchiverLoop`, `ArchiveReading` | the archiver |
| `Seqs` | left folds |

Money is in integer cents, ids are strings, timestamps are dropped. A read of the event store, a Postgres transaction and
an update of all events of one order are atomic. The topic has any positive number of partitions, and the partitioner is
an arbitrary fixed function of key and partition count.

Where the code does less than its documentation says:

* "Exactly-once" (README.md:69, consumers/main.py:10-17) holds in the sense of `CrashRuns.CrashSafeConsumer` and
  `Redelivery.RewindSafeReplay`. The upserts alone do not give it: an old event delivered again on its own moves the
  order row's version back unless it is the CREATED event or the last one (`LateRedelivery.LateRedeliveryExact`,
  `LateRuns.LateCopyIsReached`). `HeaderConvergence.HeaderIsRightIff` says exactly when an order's row is right.
* "So it's not lost" (consumers/main.py:19-20) needs the send to the queue to succeed: `send_to_dlq` swallows its own
  failure and the offset is committed all the same. `LostEvents.NothingIsLostIff` says exactly when that loses an event;
  the losing step can also be the handler's delete (`LostEvents.DeleteLosesEvent`).
* The key of an archived batch holds an offset and a second but no partition, so two batches can share a key
  (`ArchiveReading.CollisionLosesBatch`). `Archiver.NoGapsIff` says exactly when that leaves a gap.
* The publisher says it stores its key before it publishes (api/services/publisher.py:9-10); the code stores it after.
  The model follows the code: `Publisher.RetriedSendDuplicates` shows an event sent twice, and
  `Publisher.DuplicatedIff` says exactly when that happens.

## Model

| member | source | states |
|---|---|---|
| `Events.IssuedLineIsPositive` | api/models/schemas.py:15-19 | every line a validated request can lead to has positive quantity and price, and their product as a positive line total |
| `Aggregate.LawfulAt` | api/services/aggregate.py:88-108 | in a history built step by step every event passed its guard in the state folded from exactly the events before it |
| `Aggregate.LawfulVersion` | api/services/aggregate.py:50-54 | the folded version is the number of events |
| `Aggregate.LawfulIffLanguage` | api/services/aggregate.py:50-108 | a numbered history is legal if and only if its event types spell CREATED ITEM\* CANCELLED\*, or CREATED ITEM+ CONFIRMED CANCELLED\*, or CREATED ITEM+ CONFIRMED PAID CANCELLED\*, or CREATED ITEM+ CONFIRMED PAID SHIPPED |
| `Aggregate.SettledOnce` | api/services/aggregate.py:98-104 | a legal history has at most one payment and at most one shipment |
| `Aggregate.CancelledForGood` | api/services/aggregate.py:85-108 | an order with a cancellation anywhere in its history folds to CANCELLED |
| `Rebuild.SortSorts` | api/services/aggregate.py:46-46 | the sort is by version and a permutation |
| `Rebuild.RebuildIgnoresOrder` | api/services/aggregate.py:35-48 | any permutation of events with distinct versions rebuilds the same aggregate |
| `Rebuild.RebuildIsIncremental` | api/services/aggregate.py:35-54 | appending an event of a higher version is one more application to the previous rebuild |
| `Rebuild.RebuildLawful` | api/services/aggregate.py:35-54 | rebuilding a legal history is replaying it as stored, and gives its length as version |
| `Rebuild.OrderAggregate.ApplyEvent` | api/services/aggregate.py:50-86 | the in-place update of the nine fields is the fold step |
| `Rebuild.OrderAggregate.RebuildFromEvents` | api/services/aggregate.py:34-48 | no aggregate exactly for no events; otherwise a fresh object holding the fold of the sorted events |
| `EventStore.VersionsCoincide` | api/services/event_store.py:74-89 | in a store of legal histories the latest version, the rebuilt version and the event count are one number |
| `EventStore.Store.Append` | api/services/event_store.py:36-72 | a duplicate is reported exactly when a stored event has the same event id, or the same order and the same version, and leaves the collection as it was; an insert that raises otherwise has appended the event or changed nothing |
| `EventStore.Store.GetEvents` | api/services/event_store.py:74-80 | an event is in the result if and only if it is stored for the order, as often as it is stored, and the result ascends by version |
| `EventStore.Store.GetLatestVersion` | api/services/event_store.py:82-89 | the highest stored version of the order, 0 for none |
| `EventStore.Store.SetExpiryForAggregate` | api/services/event_store.py:98-104 | stamps every event of the order, no other event, and changes no event |
| `WriteSide.AppendIsLegal` | api/services/event_store.py:36-72 | an event that was legal on a possibly stale snapshot and meets no duplicate key is legal after everything stored |
| `WriteSide.StepKeepsInv` | api/routers/command_router.py:46-218 | every step of any handler keeps all stored histories legal, event ids distinct and the topic within the store |
| `WriteSide.OptimisticConcurrencyLinearises` | api/routers/command_router.py:101-113 | under every interleaving of any number of handlers each order's versions are 1..n in order of storage, each event's guard held after exactly the events before it, and rebuilt version, latest version and count agree |
| `WriteSide.StoredCommandTakesEffect` | api/routers/command_router.py:94-218 | whatever other handlers do between a command's load and its insert, if it gets through it is stored as one event under its id with everything the client sent, and the next rebuild shows exactly that on top of everything stored before |
| `WriteSide.ReachableIffLanguage` | api/routers/command_router.py:53-218 | a history is reachable if and only if it is numbered 1..n, has distinct event ids and spells a word of the language |
| `WriteSide.StoreReachableIff` | api/services/event_store.py:36-46 | a whole store is reachable if and only if event ids are distinct and every order's events, taken by themselves, are numbered and in the language: orders never refuse each other's events |
| `WriteSide.StoredWasAskedFor` | api/routers/command_router.py:151-173 | in every run each stored event goes back to a valid request for its order and under its id with the same contents, and a stored payment to one whose charge succeeded |
| `Publisher.PublishExactly` | api/services/publisher.py:33-71 | the whole effect of publishing an unmarked event in three attempts: in its partition exactly the copies that attempts sent, at most three; its key exactly when an attempt left it; a normal return exactly when an attempt found that out, and then with at least one copy; nothing else |
| `Publisher.ThreeAttempts` | api/services/publisher.py:33-36 | while all sends raise the handler goes on after one and two attempts and has failed after the third, whatever would follow |
| `Publisher.SentIff` | api/services/publisher.py:44-61 | a copy is sent if and only if some send takes effect before any attempt has left the key |
| `Publisher.DuplicatedIff` | api/services/publisher.py:44-61 | the event is sent more than once if and only if two sends take effect before any attempt has left the key |
| `Publisher.RetriedSendDuplicates` | api/services/publisher.py:50-71 | the input: when the reply to a send is lost the next attempt sends again, and the publish returns normally with two copies |
| `Publisher.MarkedIsNotSent` | api/services/publisher.py:44-48 | an event that is marked is not sent, whatever the attempts |
| `Publisher.DoneIgnoresAttempts` | api/services/publisher.py:33-48 | once an attempt has succeeded further attempts change nothing |
| `Publisher.KafkaEventPublisher.TryOnce` | api/services/publisher.py:44-71 | check, send and mark are the protocol's two steps, for every way the send and the mark can end |
| `Publisher.KafkaEventPublisher.Publish` | api/services/publisher.py:33-71 | the retried publish is a run of the protocol; in plain terms, which copies, which key and which return it leaves, for marked and unmarked events |
| `CommandRouter.Router.Guard` | api/services/aggregate.py:88-108 | each command is let through by the aggregate exactly when the rule for its event type allows it |
| `CommandRouter.Router.LoadAggregate` | api/routers/command_router.py:46-50 | nothing exactly when the store has no event of the order; otherwise the fold of its events |
| `CommandRouter.Router.Prepare` | api/routers/command_router.py:151-173 | an event is built exactly when the order is new or allows the step, and a payment is charged; it has the next version; otherwise each refusal is given exactly for its cause |
| `CommandRouter.Router.Handle` | api/routers/command_router.py:94-218 | a command is the run of one handler; in plain terms, each of the eight responses is given exactly for its cause in the request, the stored events, the charge, the insert and the publish, and the store gains exactly the event asked for, exactly when the request is in order, charged and not taken and the insert takes effect |
| `ReadModel.ProjectIsLocal` | consumers/main.py:77-149 | projecting an event changes only its own order's rows, and those as the per-order projection says |
| `ReadModel.OrdersAreIndependent` | consumers/main.py:77-149 | two deliveries with the same sequence of events for each order give the same tables |
| `ReadModel.ProjectionsCommute` | consumers/main.py:77-149 | projections of events of different orders commute |
| `ReadModel.TotalsAlwaysMatch` | consumers/main.py:87-149 | after any events in any order, with duplicates and rollbacks, every total is the sum of the order's lines and no line lacks its order |
| `ReadModel.ProjectIdempotent` | consumers/main.py:77-81 | projecting the same event twice in a row is projecting it once |
| `Postgres.Database.SumOfLines` | consumers/main.py:113-113 | the loop computes the sum of the order's line totals |
| `Postgres.Database.ProjectToPostgres` | consumers/main.py:87-149 | the statements fail exactly for a line whose order is unknown, and then leave both tables as they were; an UPDATE of an unknown order commits |
| `Postgres.Database.ProjectWithRetry` | consumers/main.py:76-77 | however three attempts end, the event is projected once in effect or not at all; the call returns normally exactly when some attempt did and the foreign key held |
| `Agreement.FoldsAgree` | consumers/main.py:87-149 | for every in-order log the projected row has the aggregate's status, version, customer, payment and tracking, the item rows are the aggregate's items collapsed by product, and the total is their sum |
| `Agreement.CollapsedRow` | consumers/main.py:98-109 | a projected item has name and price of the product's first addition, quantity and line total of its last |
| `Agreement.CollapsedTotal` | api/services/aggregate.py:61-69 | a repeated product makes the projected total smaller; without repeats the totals are equal |
| `Agreement.TotalsCompared` | consumers/main.py:98-119 | the projected total is at most the aggregate's, with equality if and only if no product repeats |
| `Agreement.ItemsConverge` | consumers/main.py:98-119 | whatever order, duplication and rollbacks happened, once every ITEM_ADDED of an order with distinct products has been projected, item rows and total are the aggregate's |
| `Redelivery.EarlierCopyAbsorbed` | consumers/main.py:87-149 | an extra earlier delivery of an event is absorbed by its later one across any known event |
| `Redelivery.DeliverNext` | consumers/main.py:77-149 | each delivery keeps the log replayable, to the same final tables, from every offset at or below the next one |
| `Redelivery.RewindSafeReplay` | consumers/main.py:77-149 | any delivery that advances by one, jumps back any number of times and reaches the end leaves the tables of a single pass, without dedup |
| `LateRedelivery.LateRedeliveryExact` | consumers/main.py:121-149 | one old event delivered again is harmless if and only if it is the first or the last of its order; otherwise the row's version goes back to it |
| `LateRuns.LateCopyIsReached` | consumers/main.py:212-239 | for every history and every event of it there is a run in which every send arrives and the queue ends empty, and the event's late copy is projected last; the row is then right if and only if the event is the first or the last |
| `CrashSafety.ProjectKeepsInv` | consumers/main.py:212-214 | a projection that advances its own partition's image leaves every other partition's image alone |
| `CrashSafety.StepKeepsCuts` | consumers/main.py:183-228 | every step without an error, a crash or an expiring key included, keeps each partition's image at what is committed or one entry more, if projections advance it |
| `CrashSafety.StepKeepsInv` | consumers/main.py:183-228 | while no dedup key expires, projections always advance it |
| `CrashRuns.CrashSafeConsumer` | consumers/main.py:183-228 | in every run with crashes anywhere and no exception, the tables are the fold of a prefix of every partition with repeated ids dropped, each prefix what is committed or one more |
| `ConsumerLoop.ProjectionConsumer.TryBlock` | consumers/main.py:212-228 | each call of the try block happens exactly when all before it returned normally: tables, cache, dedup key, expiry dates and offset afterwards are given for every way the calls end |
| `ConsumerLoop.ProjectionConsumer.HandleMessage` | consumers/main.py:183-239 | one iteration, field by field, for skipped messages, normal ends and exceptions; the stored events of the order get an expiry date if and only if the message is a cancellation or delivery, was not skipped, projection, invalidation and mark returned normally and the stamp took effect |
| `ConsumerLoop.IterationIsRun` | consumers/main.py:183-239 | that iteration, on every path, is a run of the consumer machine |
| `RetryCircuit.NextLosesNothing` | consumers/main.py:199-239 | every step of producer, consumer and handler keeps each published event in some safe place |
| `RetryCircuit.NoEventIsLost` | consumers/main.py:199-239 | in every run in which sends to the queue arrive, each published event is uncommitted in Kafka, projected, in the queue or a dead letter |
| `LostEvents.StepLosesExactly` | consumers/main.py:230-239 | of all steps only a commit of an unprojected message and a delete of a queue message can lose an event, and they do if and only if it is not projected, dead-lettered, queued or uncommitted elsewhere |
| `LostEvents.NothingIsLostIff` | consumers/main.py:72-73 | in every run, whatever fails, each published event is in one of the four places at every moment if and only if no such commit and no such delete takes its only place |
| `LostEvents.ArrivingSendsLoseNothing` | consumers/main.py:56-73 | when sends to the queue arrive there is no such commit and no such delete |
| `LostEvents.FailedSendLosesEvent` | consumers/main.py:230-239 | for every line there is a run in which a failed send loses it |
| `LostEvents.DeleteLosesEvent` | lambda_handlers/retry_handler.py:135-139 | for every line there is a run in which the delete loses it: its re-published copy had failed while the queue could not be reached |
| `RetryHandler.Queue.HandleOne` | lambda_handlers/retry_handler.py:98-139 | a message retried less than three times is appended to the topic with its count raised by one, any other is filed as a dead letter, and it is deleted only after that succeeded |
| `RetryHandler.Queue.Handle` | lambda_handlers/retry_handler.py:61-141 | an invocation completes exactly when no put and no delete raises; then topic, dead letters and queue are as if each message had been handled alone, and every removed message is counted once, as retried or, from three retries on, as dead-lettered |
| `RetryHandler.RemainingKeeps` | lambda_handlers/retry_handler.py:131-139 | the queue keeps exactly the messages that were not received or could not be re-published |
| `RetryHandler.EffectIsRun` | lambda_handlers/retry_handler.py:98-139 | an invocation is a run of the circuit |
| `RetryHandler.InvocationLosesNothing` | lambda_handlers/retry_handler.py:98-139 | an invocation loses no event, however its calls end |
| `BoundedRetries.RetryCountNeverExceedsLimit` | lambda_handlers/retry_handler.py:105-123 | in any run no retry count exceeds 3 |
| `BoundedRetries.MeasureFalls` | lambda_handlers/retry_handler.py:101-139 | a measure over all Kafka and queue copies never rises and strictly falls at each failed delivery, re-publication and dead letter |
| `BoundedRetries.RetriesAreBounded` | lambda_handlers/retry_handler.py:98-141 | in crash-free runs with each queue message handled once a published event is re-published at most 3 times and fails at most 4 deliveries |
| `TightRetries.GivenUpOnlyAfterAllRetries` | lambda_handlers/retry_handler.py:35-35 | in any run an event that was given up has been re-published at least 3 times and has failed at least 4 deliveries |
| `TightRetries.RetriesAreTight` | lambda_handlers/retry_handler.py:98-141 | for every line that comes before its order there is such a crash-free run with exactly 3 and 4 that ends in a dead letter with everything consumed |
| `Pipeline.OnlyFinishedOrdersExpire` | consumers/main.py:221-224 | in every state reachable by commands, consumer and retry handler a stored event with an expiry date belongs to an order whose stored log folds to CANCELLED |
| `Expiry.ExpiringIff` | consumers/main.py:221-224 | in every such run a stored event has an expiry date if and only if a cancellation or delivery of its order was stamped after the event was stored |
| `Expiry.CancelledOrderExpires` | consumers/main.py:183-228 | there is a run, from the commands on, in which a cancelled order ends with an expiry date on all its events |
| `EndToEnd.WriteStaysCalm` | api/routers/command_router.py:101-113 | while commands on one order do not overlap, everything stored of an order is published in order, but for the one event being published |
| `EndToEnd.ProjectionSucceeds` | consumers/main.py:212-214 | in calm runs the foreign key never fails |
| `EndToEnd.ProjectionAdvances` | consumers/main.py:198-214 | in calm runs a projection advances the read model also when a dedup key has expired: a repeat is the last event of its order and is absorbed |
| `EndToEnd.ReadModelAgreesWithEventStore` | api/services/aggregate.py:35-86 | in every calm run, with crashes and expiring keys, a drained order's rows agree with the aggregate rebuilt from the store in every field; totals are equal if and only if no product repeats, and then the items are the same one by one |
| `Convergence.RunIsSound` | consumers/main.py:199-239 | in every run of commands, consumer and retry handler in which sends to the queue arrive, no event is lost and only stored events travel |
| `Convergence.ItemsConvergeInEveryRun` | consumers/main.py:98-119 | in every such run, however commands overlap and retries overtake each other, a settled order with distinct products has the item rows and total of the aggregate rebuilt from the store |
| `HeaderConvergence.RunIsTraced` | consumers/main.py:212-214 | in every such run the tables are the fold of the committed projections, and these are of stored events |
| `HeaderConvergence.RowShows` | consumers/main.py:87-149 | whatever was delivered and in whatever order, a row exists exactly when a CREATED was among it, and it shows the first CREATED and the last events that met the row |
| `HeaderConvergence.HeaderIsRightIff` | consumers/main.py:121-149 | in every such run a settled order's row has the aggregate's customer, and it has its version, payment and tracking if and only if the last projection onto the row that sets the field is the last stored event that sets it, its status if and only if that projection sets the same status |
| `Mishaps.CrashRedelivers` | consumers/main.py:161-184 | a consumer that dies before its commit meets the same message again, with everything it had written still there |
| `Mishaps.ExpiredKeyProjectsAgain` | consumers/main.py:198-219 | without its dedup key a processed message is projected once more |
| `Mishaps.KilledHandlerPublishesNothing` | api/routers/command_router.py:112-113 | a handler that dies between insert and publish leaves an event that is stored and not published |
| `Mishaps.ForgottenKeySendsAgain` | api/services/publisher.py:44-61 | once its key is forgotten a published event is sent again |
| `Mishaps.CrashForgetsBatch` | consumers/archiver.py:85-96 | an archiver that dies forgets its batch and consumes again from the committed offsets |
| `Mishaps.EvictedIsReadAgain` | api/routers/query_router.py:47-87 | an expired cache entry is read from the tables again |
| `Mishaps.SystemIsCircuit` | lambda_handlers/retry_handler.py:98-139 | in the whole system consumer and handler take exactly the retry circuit's steps |
| `Cache.AnswersWereTrue` | api/routers/query_router.py:47-89 | under every interleaving an answer was the committed row at a named earlier moment of the run, when some reader queried it, and its total matches its items |
| `Cache.CachedEntryIsStaleIff` | api/routers/query_router.py:50-87 | in any run a cached entry is what some reader queried and then stored, and it is stale if and only if the projections of the order since that query have changed what is shown |
| `Cache.CacheIsCoherent` | api/routers/query_router.py:47-89 | without a reader that spans a projection and its cache delete, every cached entry of an order not projected since its last delete equals the Postgres row |
| `Cache.DirtyOnlyBetween` | consumers/main.py:212-219 | when no cache delete fails and no crash or lost reply falls between a projection and its delete, only the order between the two can be out of step |
| `Cache.CachedEntriesAreCurrent` | api/routers/query_router.py:47-89 | in such runs, without a spanning reader, every cached entry equals its Postgres row unless the consumer is between the two steps for that order |
| `StaleCache.SpanLeavesStaleEntry` | api/routers/query_router.py:50-87 | there is a run without any failure that ends with a stale entry of an order counted as clean |
| `QueryRouter.Reads.GetOrder` | api/routers/query_router.py:38-89 | a read is the machine's steps; in plain terms, answer and cache for a cached order, an unknown one and one read from the tables, however the cache write ends |
| `Archiver.NdjsonRoundTrip` | consumers/archiver.py:67-78 | splitting a body on newlines and decoding each line gives back the batch in order, for every invertible encoder without raw newlines |
| `Archiver.ArchiveHasNoGaps` | consumers/archiver.py:95-127 | in all runs with failing uploads, failing or half-failing commits, crashes and shutdowns, every committed offset is in an object and the batch holds everything consumed since the last commit |
| `Archiver.CollisionExact` | consumers/archiver.py:62-65 | an upload onto an existing key leaves no gap if and only if every committed entry of the replaced object is in the batch or another object |
| `Archiver.NoGapsIff` | consumers/archiver.py:62-127 | in every run the archive has no gap at any moment if and only if no upload replaces the only copy of a committed entry outside its batch |
| `ArchiveReading.ShutdownArchivesEverything` | consumers/archiver.py:118-127 | from any state of any run a shutdown whose upload and commit return normally commits everything consumed, and unless some upload overwrote the only copy of a committed entry, everything consumed is in the archive |
| `ArchiveReading.CommittedIsReadable` | consumers/archiver.py:67-127 | in all runs with failing uploads and commits, crashes and shutdowns whatever the topic holds below a committed offset can be decoded from a line of some uploaded body |
| `ArchiveReading.SecondBatchReplacesFirst` | consumers/archiver.py:62-65 | two full batches of different partitions that end at one offset in one second leave no committed entry of the first |
| `ArchiveReading.CollisionLosesBatch` | consumers/archiver.py:62-65 | for every batch size there is a run without any failure that loses a whole committed batch |
| `ArchiverLoop.Process.HandleMessage` | consumers/archiver.py:99-117 | the message joins the batch; a batch of at least the set size is uploaded under its last offset, then committed, and forgotten only when both returned normally |
| `ArchiverLoop.Process.Archive` | consumers/archiver.py:95-127 | what is left in memory at shutdown is uploaded under its last offset, and if upload and commit return normally everything the process consumed is committed; the whole life is a run of the machine |

## Left out

- Deletion of expired events: MongoDB does it outside this code, and a partly deleted history no longer has the shape shown here; only the stamp is modelled.
- Convergence of status and version under re-published events out of order or overlapping publishes: the UPDATEs carry no version guard, so the code does not provide it; `HeaderIsRightIff` says exactly when the row is right, and items and totals do converge (`ItemsConvergeInEveryRun`).
- Idempotency key of `create_order`: lookup and store are separate steps around the command, and the sequential case would be an easy member.
- Payment gateway: a charge is a boolean input of the command, and the amount is never compared with the total, as in the code.
- Messages that cannot be decoded, JSON encoding, floating-point and NUMERIC rounding: encoders are abstract and money is in cents.
- Timestamps, `occurred_at`, `correlation_id` and backoff times: no modelled decision depends on them; only attempt counts are kept.
- DELIVERED: the aggregate, the projection and the expiry test know it and the model keeps those branches, but no endpoint issues it.
- Redelivery of a queue message while an invocation holds it, and ageing out of the queue: any number of invocations may hold a message, but none expires.
- `list_orders`, `get_stats`, `get_order_events` and `get_events_by_type`: query building and counting, which would add easy members.
- Internals of Kafka, MongoDB, Redis, Postgres, SQS and S3, connection setup, settings and provisioning scripts: they are logs, maps and sets with the failures named above.
- KafkaEventPublisher.Publish: takes the partition as an argument, because the partitioner is an arbitrary function; headers are dropped.
