# Message broker: a verified model

This project models a topic-routing message broker that keeps its queues in memory and mirrors the durable
ones in a relational database, and proves what the broker guarantees: over every interleaving of its service
calls, with repository calls that fail before or after taking effect, and with a crash between any two steps.

A producer publishes to an *exchange*; every queue of that exchange with a matching filter gets its own copy, a
*delivery*. Consumers fetch deliveries, which then are *in flight*, and acknowledge (Ack) or reject (NAck) them.
A rejected delivery goes back to the queue if attempts are left and another consumer could take it; otherwise it
becomes a *dead letter*. Deliveries of durable queues are rows in the database; after a crash, Restore rebuilds
exchanges, durable queues and their deliveries from those rows.

## How the model is built

* `Types.dfy`, `QueueModel.dfy` (the queue as a value and what each locked operation does to it), `Tables.dfy` (the
  five tables as a value, the effect of every statement, the constraints of the schema), `Routing.dfy` (the two
  regular languages and the token matcher).
* `Queue.dfy`, `Exchange.dfy`, `Broker.dfy`, `Repository.dfy`, `Service.dfy`, `FilterLists.dfy`: the objects, updated in
  place by loops and assignments as in the program. Each method is proved against a function or relation on values.
* `QueueRuns.dfy`, `QueueHistory.dfy`, `QueueAttempts.dfy`, `QueueOrder.dfy`, `QueueWitness.dfy`: one queue over all
  sequences of its operations, with waiting fetches.
* `Protocol.dfy`, `Ledger.dfy`, `ProtocolInvariant.dfy`, `ProtocolSteps.dfy`, `ProtocolFrames.dfy`,
  `ProtocolTheorems.dfy`, `ProtocolStores.dfy`, `ProtocolHistory.dfy`, `ProtocolPublish.dfy`, `ProtocolLag.dfy`,
  `ProtocolWitness.dfy`: the concurrent, crash-recovering system. A state holds memory, database, the calls in
  progress and a history; a step is one critical section or one statement; durable queues are fixed, transient queues
  come and go.
* `ServiceModel.dfy`, `ServiceRuns.dfy`, `RestoreModel.dfy`, `RestartOrder.dfy`, `RestartRuns.dfy`,
  `RestartWitness.dfy`, `ServiceFaults.dfy`, `ServiceBacking.dfy`, `ServiceOutcomes.dfy`: the same service as a
  sequence of complete calls, with exchanges and queues created and deleted; first when no repository call fails, then
  with every outcome a failing call can have, crashes and restarts.
* `ServiceAnswers.dfy`, `TopologyAnswers.dfy`, `PublishingAnswers.dfy`, `SettingsWitness.dfy`: what a caller sees of each
  outcome, in terms of exchanges, fields of queues and rows alone, which the methods promise as well.
* `Stretches.dfy`, `CallStretches.dfy`, `OutcomeStretches.dfy`, `Histories.dfy`: the two views joined. As long as
  exchanges and durable queues stay the same, every outcome that the service methods are proved to have is reached by
  steps of the concurrent system.

UUIDs, row times, map iteration orders and query answers are parameters or ghost results; UUIDs are assumed fresh
where the code relies on it (`AreFresh`, the history in `Protocol`). A notify channel is a number, and a
queue is modelled with the set of channels that have been closed, because closing one twice would panic.
Mutex-protected methods are atomic. A repository call is one atomic step whose reply
is success, refusal, or a loss after the database has committed.

## What does not hold, and exactly when it does

* Attempts are not bounded by the maximum: a disconnect requeues without looking at it. They exceed it if and only if
  a disconnect handed the delivery back with its attempts used up and it was fetched after that
  (`QueueAttempts.ExceedsExactlyWhen`, and `QueueAttempts.EnteredSpent` for deliveries that enter with none left). The
  bound is the maximum plus the number of handbacks (`QueueRuns.RetryBound`), and it is reached for every such number
  (`QueueWitness.RetryBoundIsTight`).
* A confirmed message can end up in neither table, although no repository call failed
  (`ProtocolWitness.ConfirmedMessageCanVanish`), because a NAck deletes the row before it stores the dead letter. A
  dead letter goes missing exactly when the reply to that delete is lost, the letter is refused, or a crash falls
  between the two (`ProtocolHistory.LetterMissingExactlyWhen`).
* Comparing filter lists by length and one inclusion is not set equality (`FilterLists.DuplicatesHideAFilter`). It can
  be trusted for a registered list if and only if that list has no duplicates (`FilterLists.ComparisonIsExact`, and
  `FilterLists.ComparisonIsExactForKeys` for the keys matched). The stored list has no duplicates, so after a restart
  the very registration that made a queue is refused if and only if it listed a filter twice
  (`FilterLists.RepeatedAfterRestart`).
* The attempts in a row may lag behind memory even when no call fails (`ProtocolWitness.AttemptsCanLag`); they never
  run ahead (`ProtocolTheorems.StoredBeforeHeld`). They agree if and only if the delivery has not been fetched since the
  broker started, or the last mark of it that took effect is that of its latest fetch
  (`ProtocolLag.AttemptsAgreeExactlyWhen`).
* A restart does not keep the order of the ready list (`RestartWitness.RestartReorders`). It does if and only if nothing
  was in flight and the list was in the order of its rows already (`RestartOrder.OrderKeptExactlyWhen`).
* A durable queue need not be stored as it was registered: if deleting an earlier queue of that name failed at its
  statement, the row it left behind keeps its settings, and a restart brings them back
  (`SettingsWitness.OldSettingsComeBack`). Settings are stored if and only if no row with other settings was there
  (`SettingsWitness.SettingsStoredExactlyWhen`).

## Model
| member | source | states |
|---|---|---|
| `ProtocolSteps.StepKeepsInv` | internal/service/broker.go:129-414 | every step of every service call, every reply of the repository, a crash and every step of Restore keep the invariant that ties queues, rows, calls in progress and history together |
| `ProtocolSteps.RunKeepsInv` | internal/service/broker.go:129-414 | hence every state of every interleaved, failing, crashing run satisfies it |
| `ProtocolTheorems.RestoreIsExact` | internal/service/broker.go:369-414 | when Restore has finished, the durable queues hold exactly the deliveries saved and never deleted, each in its own queue, ready, unowned and as its row says, and there are no consumers |
| `ProtocolTheorems.DeletedOnlyAfterSettled` | internal/service/broker.go:250-313 | a row disappears only after its delivery has left memory through an Ack of its owner or a NAck of its owner that gave up, earlier in the same process run |
| `ProtocolTheorems.SettledBecause` | internal/core/queue.go:58-101 | names the earlier step that took a settled delivery out of memory, when it was in flight to the consumer of that step; and for a NAck, that its attempts were spent under a positive limit or no other consumer was registered |
| `ProtocolTheorems.StoredBeforeHeld` | internal/service/broker.go:163-211 | write-ahead: at every point whatever a durable queue holds has a row of that queue with that message; stored attempts, and those of any pending MarkInFlight, never exceed those in memory |
| `ProtocolTheorems.RowsAccountedFor` | internal/service/broker.go:168-174 | while serving, a row is in its queue, or held by exactly one publish, Ack or giving-up NAck in progress, or stranded by one that failed, as `StrandedExactlyWhen` spells out; exactly one of the three |
| `ProtocolTheorems.EnqueueFindsItsQueue` | internal/service/broker.go:168-174 | a publish that has stored its row always finds the queue for the enqueue |
| `ProtocolTheorems.RestoreNeverStuck` | internal/service/broker.go:396-411 | at every point of Restore its next step is enabled: the queue of the next row is always found |
| `ProtocolStores.StoreStaysSound` | internal/service/broker.go:129-414 | if the first start finds a sound store (constraints, registrable queues, valid filters), interleaved calls, failures and crashes keep it sound |
| `ProtocolStores.RestoreIsTotal` | internal/service/broker.go:369-414 | for every store that interleaved calls leave behind, interrupted anywhere, no check of Restore can fail, and what it restores agrees with the store |
| `ProtocolTheorems.AckedNeverReturns` | internal/service/broker.go:267-273 | after a successful Ack the ID is never again in the table, in a queue, or in a call that could bring it back, through late marks, crashes and restores |
| `ProtocolTheorems.ConfirmedIsKept` | internal/service/broker.go:152-177 | every delivery that a publish has confirmed (`ConfirmsItsRoute` says which) is ever after stored, acknowledged, or rejected |
| `ProtocolTheorems.EveryDeliveryAccountedFor` | internal/service/broker.go:300-313 | every delivery ever saved has exactly one fate: stored, removed by an Ack, dead-lettered with its message, exchange and source queue, or rejected with its letter missing |
| `ProtocolTheorems.LettersAreDistinct` | internal/repository/postgres.go:196-226 | no two deliveries share a dead letter |
| `ProtocolHistory.LetterMissingExactlyWhen` | internal/service/broker.go:300-313 | a saved delivery has no row, no dead letter, was not acknowledged and no letter is pending, exactly when an earlier step lost it in one of those ways |
| `ProtocolHistory.LetterSaysWhatWasRejected` | internal/core/exchange.go:152-175 | a dead letter that is written has the message, attempts, queue and exchange that its delivery had when its owner's NAck gave it up |
| `ProtocolHistory.StrandedExactlyWhen` | internal/service/broker.go:168-174 | a row is stranded exactly when an earlier step of this process run was a publish that lost the reply to its save, or an Ack or giving-up NAck whose delete was refused |
| `ProtocolPublish.ConfirmsItsRoute` | internal/service/broker.go:147-177 | a successful publish, however interleaved, confirms exactly one stored delivery for each durable queue it was routed to, and nothing else |
| `ProtocolLag.AttemptsAgreeExactlyWhen` | internal/service/broker.go:204-211 | stored attempts equal those in memory if and only if the delivery has not been fetched in this process run or its last landed mark carries the attempts of its latest fetch |
| `ProtocolTheorems.RunRecords` | internal/service/broker.go:129-414 | nothing saved, deleted, acknowledged, confirmed, dead-lettered or dropped is ever taken back |
| `ProtocolWitness.ConfirmedMessageCanVanish` | internal/service/broker.go:300-313 | a run without repository failure in which a confirmed, unacknowledged message ends in neither table |
| `ProtocolWitness.AttemptsCanLag` | internal/service/broker.go:204-211 | a run without repository failure and with no call pending in which stored attempts are below those in memory |
| `QueueRuns.StepKeepsInv` | internal/core/queue.go:37-168 | every queue operation keeps the invariant on places, counts, owners and waiters |
| `QueueRuns.Conservation` | internal/core/queue.go:37-168 | in every reachable state the IDs that entered are the disjoint union of ready, in flight, acknowledged and dead, ready IDs are distinct, in-flight entries are keyed by their own ID |
| `QueueRuns.SettledStays` | internal/core/queue.go:58-101 | a delivery settles at most once per process run and stays settled |
| `QueueRuns.InFlightIsCapped` | internal/core/queue.go:103-179 | every in-flight delivery belongs to a registered consumer; with a positive limit, no consumer holds more and the queue has at most limit times consumers in flight |
| `QueueRuns.NoLostWakeup` | internal/core/queue.go:144-193 | a waiter whose channel has not been closed since its empty fetch has missed nothing: the queue is still empty |
| `QueueRuns.StepCloses` | internal/core/queue.go:190-193 | exactly the steps that enqueue, requeue or hand back a delivery close the current channel and make a new one |
| `QueueRuns.ChannelsCloseOnce` | internal/core/queue.go:190-193 | no close panics: over a whole run the channel a step closes is open, and no other step ever closes it |
| `QueueRuns.RetryBound` | internal/core/queue.go:86-115 | attempts are entry attempts plus fetches; NAcks requeue at most as often as the limit leaves; whatever it entered with, attempts exceed the limit, or the first attempt if that is larger, only by the number of handbacks |
| `QueueAttempts.ExceedsExactlyWhen` | internal/core/queue.go:86-115 | a delivery that entered with attempts to spare exceeds the maximum if and only if a disconnect handed it back with its attempts used up and it was fetched after that |
| `QueueAttempts.EnteredSpent` | internal/core/queue.go:49-56 | one that entered with none to spare, as a restored one may, exceeds it if and only if it entered above it or was fetched |
| `QueueOrder.FirstComeFirstServed` | internal/core/queue.go:37-47 | a delivery is never fetched before one that entered earlier has been, across requeues and disconnects |
| `QueueHistory.RegisteredExactlyWhen` | internal/core/queue.go:103-129 | the registered consumers are exactly those who joined and have not been disconnected since, whether or not they held anything |
| `QueueHistory.HolderExactlyWhen` | internal/core/queue.go:144-168 | a delivery is in flight to a consumer if and only if that consumer fetched it and nothing has happened to it, nor a disconnect of that consumer, since |
| `QueueHistory.SettledByHolder` | internal/core/queue.go:58-84 | an Ack or NAck that goes through is preceded by a fetch of the same delivery by the same consumer, with no other fetch or settlement of it and no disconnect of that consumer in between |
| `QueueHistory.FetchedByRegistered` | internal/core/queue.go:144-168 | only a consumer that has joined and holds fewer than the limit fetches; it gets the oldest delivery, with one attempt more |
| `QueueHistory.FateExactlyWhen` | internal/core/queue.go:86-101 | a delivery is dead if and only if it was rejected with its attempts spent under a positive limit or with no other consumer registered, without a limit only the latter; acknowledged if and only if an Ack went through |
| `QueueHistory.RejectedDiesOrReturns` | internal/core/queue.go:86-101 | a rejected delivery goes back to the end of the ready list, with its attempts and without its owner, exactly when attempts are left and another consumer is registered |
| `QueueHistory.DisconnectGivesBack` | internal/core/queue.go:103-122 | a disconnect always unregisters the consumer, and puts back exactly what it held |
| `QueueWitness.RetryBoundIsTight` | internal/core/queue.go:103-122 | for every limit and every number of disconnects some run reaches exactly limit plus disconnects |
| `QueueModel.DisconnectLive` | internal/core/queue.go:103-122 | in whatever order the map is walked, a disconnect keeps every delivery and only clears owners |
| `QueueModel.FetchLive` | internal/core/queue.go:144-168 | a fetch keeps every delivery; the oldest ready one gains an attempt and an owner |
| `QueueModel.RequeueLive` | internal/core/queue.go:86-98 | a requeue keeps the delivery and clears its owner |
| `QueueObject.Queue.constructor` | internal/core/queue.go:24-35 | a new queue is empty, with the given settings |
| `QueueObject.Queue.Append` | internal/core/queue.go:37-47 | appends a new delivery without owner or attempts and wakes waiters |
| `QueueObject.Queue.EnqueueDelivery` | internal/core/queue.go:136-142 | appends the delivery as given and wakes waiters |
| `QueueObject.Queue.RestoreDelivery` | internal/core/queue.go:49-56 | appends the delivery without its owner and wakes waiters |
| `QueueObject.Queue.AddConsumer` | internal/core/queue.go:124-129 | the consumer is registered, nothing else changes |
| `QueueObject.Queue.HasConsumers` | internal/core/queue.go:130-135 | decides whether any consumer is registered |
| `QueueObject.Queue.Ack` | internal/core/queue.go:58-72 | succeeds if and only if the delivery is in flight to the caller, and then removes it; not found if it is not in flight, owner mismatch if it is in flight to another, and then nothing changes |
| `QueueObject.Queue.Reject` | internal/core/queue.go:74-101 | the same errors; otherwise back to the ready list if and only if there is no limit or attempts are below it, and another consumer is registered; else given up |
| `QueueObject.Queue.DisconnectConsumer` | internal/core/queue.go:103-122 | unregisters the consumer whatever it held, and returns each delivery it held once, ready again and without owner, through a loop that deletes from the map it walks |
| `QueueObject.Queue.InFlightCount` | internal/core/queue.go:170-179 | counts the deliveries in flight to a consumer |
| `QueueObject.Queue.FetchOrWait` | internal/core/queue.go:144-168 | not found if and only if the consumer is not registered; too many if and only if it is and holds at least a positive limit; empty, with the channel, if and only if it could fetch but nothing is ready; else the oldest delivery |
| `QueueObject.Queue.MatchFilters` | internal/core/queue.go:181-188 | decides whether any filter matches |
| `Routing.KeyLanguage` | internal/core/routing_key.go:7-11 | the key expression accepts exactly the strings all of whose tokens are words |
| `Routing.FilterLanguage` | internal/core/routing_filter.go:10-14 | the filter expression accepts exactly the strings all of whose tokens are words or a lone star |
| `Routing.MatchMeaning` | internal/core/routing_filter.go:16-35 | a star stands for exactly one token, any other token for itself |
| `Routing.JoinSplit` | internal/core/routing_filter.go:18-19 | joining the tokens of a string gives the string back |
| `Routing.SplitJoin` | internal/core/routing_filter.go:18-19 | splitting joined dot-free tokens gives the tokens back |
| `Routing.ExactFilterMatchesItself` | internal/core/routing_filter.go:16-35 | a filter without a star matches exactly itself |
| `Routing.KeyIsItsOwnFilter` | internal/core/routing_filter.go:10-35 | a valid key is a valid filter that matches that key and no other |
| `Routing.FilterIsRegular` | internal/core/routing_filter.go:16-35 | among valid keys, the token matcher accepts exactly a regular language read off the filter |
| `FilterLists.EqualFilters` | internal/core/exchange.go:220-239 | the two-map comparison decides equal length and inclusion of the first list in the second |
| `FilterLists.ValidFilters` | internal/core/exchange.go:241-248 | decides whether every filter is valid |
| `FilterLists.SameFiltersIsSetEquality` | internal/core/exchange.go:220-239 | among lists without duplicates the comparison is set equality |
| `FilterLists.ComparisonIsExact` | internal/core/exchange.go:220-239 | a registered list is told apart from every list with other filters if and only if it has no duplicates |
| `FilterLists.ComparisonIsExactForKeys` | internal/core/exchange.go:220-239 | among valid lists, every list taken for a registered one matches the same routing keys if and only if the registered one has no duplicates |
| `FilterLists.DuplicatesHideAFilter` | internal/core/exchange.go:220-239 | two lists the comparison takes for equal that match different keys |
| `FilterLists.RegistrationIsIdempotent` | internal/core/exchange.go:19-23 | a repeated registration that succeeds yields a queue matching no key the caller's filters do not, and exactly those keys if the queue was registered without duplicates |
| `FilterLists.RepeatedAfterRestart` | internal/core/exchange.go:19-23 | after a restart, repeating the registration of a durable queue is accepted if and only if its filters were listed without duplicates |
| `ExchangeObject.Exchange.RegisterQueue` | internal/core/exchange.go:15-43 | the queue returned has the flags and maximum asked for; an existing one with other settings or filters is refused, a new one for its flags, its maximum or its filters, in this order |
| `ExchangeObject.Exchange.DeleteQueue` | internal/core/exchange.go:45-59 | removes a queue exactly if it exists and has no consumers |
| `ExchangeObject.Exchange.GetQueue` | internal/core/exchange.go:61-71 | finds the queue under its name or reports it missing |
| `ExchangeObject.Exchange.Publish` | internal/core/exchange.go:72-84 | each matching queue gets one new delivery at its end, which is returned with it; every other queue is unchanged |
| `ExchangeObject.Exchange.Route` | internal/core/exchange.go:86-108 | for a valid key, exactly the queues with a matching filter, each once, in whatever order the map is walked |
| `ExchangeObject.Exchange.EnqueueDelivery` | internal/core/exchange.go:110-117 | appends to the named queue and touches no other |
| `ExchangeObject.Exchange.FetchOrWait` | internal/core/exchange.go:119-131 | fetches from the named queue, with each of its errors exactly when it is due, and touches no other |
| `ExchangeObject.Exchange.Ack` | internal/core/exchange.go:133-144 | settles in the named queue exactly for the owner, and touches no other |
| `ExchangeObject.Exchange.NAck` | internal/core/exchange.go:152-175 | for the owner only: requeues exactly when attempts are left and another consumer is registered, or else settles and returns the dead letter with message, source queue and attempts |
| `ExchangeObject.Exchange.AddConsumer` | internal/core/exchange.go:177-185 | registers in the named queue and touches no other |
| `ExchangeObject.Exchange.DisconnectConsumer` | internal/core/exchange.go:187-201 | unregisters the consumer, hands its deliveries back, and removes the queue if and only if it is auto-delete and had no other consumer |
| `ExchangeObject.Exchange.HasActiveConsumers` | internal/core/exchange.go:203-218 | decides whether any queue has a consumer |
| `BrokerObject.Broker.CreateExchange` | internal/core/broker.go:20-37 | returns the existing exchange or adds an empty one; no queue changes |
| `BrokerObject.Broker.GetExchange` | internal/core/broker.go:39-49 | finds the exchange under its name or reports it missing |
| `BrokerObject.Broker.DeleteExchange` | internal/core/broker.go:51-61 | removes the exchange and exactly its queues |
| `RepositoryObject.Repository.SaveExchange` | internal/repository/postgres.go:27-36 | the statement took effect, or failed with or without effect |
| `RepositoryObject.Repository.DeleteExchange` | internal/repository/postgres.go:38-47 | the same; nothing of its queues and none of its dead letters remains, and nothing else is lost |
| `RepositoryObject.Repository.SaveQueue` | internal/repository/postgres.go:49-101 | an existing row stays as it is, filters are added and none is lost; refused without its exchange |
| `SettingsWitness.SettingsStoredExactlyWhen` | internal/repository/postgres.go:49-65 | a successful registration leaves its settings stored if and only if no row with other settings was there |
| `SettingsWitness.OldSettingsComeBack` | internal/service/broker.go:71-127 | a run in which a queue is registered again after its delete failed, and gets its old maximum back with a restart |
| `RepositoryObject.Repository.DeleteQueue` | internal/repository/postgres.go:103-112 | the same; none of its filters and deliveries remains, and nothing else is lost |
| `RepositoryObject.Repository.SaveReadyDelivery` | internal/repository/postgres.go:114-144 | a new ready row; refused without its queue or with a used ID |
| `RepositoryObject.Repository.MarkInFlight` | internal/repository/postgres.go:146-166 | updates status, consumer and attempts; an update that reaches no row is reported |
| `RepositoryObject.Repository.MarkReady` | internal/repository/postgres.go:168-183 | clears status and consumer of a row, if there is one |
| `RepositoryObject.Repository.DeleteDelivery` | internal/repository/postgres.go:185-194 | removes a row, if there is one |
| `RepositoryObject.Repository.SaveDeadLetter` | internal/repository/postgres.go:196-226 | a new letter row; refused without its exchange or with a used ID |
| `RepositoryObject.Repository.GroupRows` | internal/repository/postgres.go:308-346 | the map-and-order loop yields each queue of the rows once, with its flags and all its filters |
| `RepositoryObject.Repository.LoadQueues` | internal/repository/postgres.go:283-347 | one state per stored queue, with exactly its stored filters |
| `RepositoryObject.Repository.LoadDeliveries` | internal/repository/postgres.go:349-394 | every row once, by creation time and then ID, without status and consumer |
| `RepositoryObject.Repository.LoadState` | internal/repository/postgres.go:228-250 | a faithful load of the three tables, or a storage error |
| `RestoreModel.GroupingIsExact` | internal/repository/postgres.go:283-347 | grouping the left join gives back exactly the stored queues, whatever order the rows come in |
| `RestoreModel.SavedQueueComesBack` | internal/repository/postgres.go:49-101 | a queue saved into a fresh row is loaded with its settings, no filter twice, and matching exactly the keys of the saved list |
| `RestartRuns.RestartRoundTrip` | internal/service/broker.go:369-414 | after any sequential run without repository failures, with any number of restarts in it, Restore gives back every exchange and exactly the durable queues: same settings and matching, no consumers, nothing in flight, and ready exactly the former ready and in-flight deliveries with IDs, messages and attempts |
| `RestartRuns.RunKeepsAgreement` | internal/service/broker.go:41-414 | memory and database agree in every state of such a run |
| `RestartRuns.SecondRestartKeepsOrder` | internal/service/broker.go:396-411 | what a restart may reorder it reorders once: a second restart gives back each ready list as it was |
| `RestartOrder.RestoredInRowOrder` | internal/repository/postgres.go:349-360 | restored ready lists are in the order of their rows, by creation time and then ID |
| `RestartOrder.OrderKeptExactlyWhen` | internal/service/broker.go:396-411 | a restart keeps the order of a durable queue if and only if nothing was in flight and its ready list was in row order |
| `RestartWitness.RestartReorders` | internal/service/broker.go:396-411 | a run without failure after which the ready list is 2, 1 before a restart and 1, 2 after it |
| `ServiceRuns.ServeKeepsAgreement` | internal/service/broker.go:41-367 | every served call keeps memory and database in agreement: exchanges, durable queues, filters, and a mirror row per live delivery |
| `ServiceRuns.RunKeepsAgreement` | internal/service/broker.go:41-367 | hence every state of every sequential run without repository failures is in agreement |
| `ServiceRuns.TopologyAgrees` | internal/core/exchange.go:26-28 | stored queues are the durable queues in memory, no queue is durable and auto-delete, no row belongs to a queue that could auto-delete |
| `ServiceRuns.AutoDeleteLeavesNoRows` | internal/core/exchange.go:187-201 | a disconnect that removes its queue leaves no queue row and no delivery row of it |
| `ServiceFaults.ExactFanOut` | internal/service/broker.go:147-177 | a successful publish gives one fresh delivery to each queue with a matching filter and changes no other; a failing one reaches some of them, none twice |
| `ServiceFaults.RefusedOrAccepted` | internal/service/broker.go:51-367 | a call is served exactly when none of its checks, in their order, refuses it |
| `ServiceAnswers.AckAnswers` | internal/service/broker.go:250-276 | every outcome of an Ack, in fields: each error exactly when it is due, the delivery removed exactly for its owner, no other row touched |
| `ServiceAnswers.NAckAnswers` | internal/service/broker.go:278-324 | the same for a NAck; requeued exactly when attempts are left and another consumer is registered; a letter is never stored beside the row |
| `ServiceAnswers.FetchAnswers` | internal/service/broker.go:180-231 | the same for a fetch; the oldest delivery, one attempt later, in memory and in its row |
| `ServiceAnswers.DisconnectAnswers` | internal/service/broker.go:339-367 | the same for a disconnect: the consumer is gone, the queue with it exactly if it is auto-delete and had no other, and no row but those handed back is released |
| `TopologyAnswers.RegisterAnswers` | internal/service/broker.go:71-102 | the same for a registration: each error exactly when it is due, settings as asked, a stored row never overwritten |
| `TopologyAnswers.DeleteExchangeAnswers` | internal/service/broker.go:51-69 | the same for deleting an exchange: refused exactly while a queue of it has a consumer |
| `TopologyAnswers.DeleteQueueAnswers` | internal/service/broker.go:104-127 | the same for deleting a queue |
| `PublishingAnswers.PublishAnswers` | internal/service/broker.go:129-178 | the same for a publish: each error exactly when it is due; on success one delivery, and one row if durable, for every queue with a matching filter |
| `ServiceFaults.LeadsKeepsSound` | internal/service/broker.go:41-367 | however a call ends, the schema's constraints hold and only durable, permanent queues with valid filters are stored |
| `ServiceFaults.RestoreIsTotal` | internal/service/broker.go:369-414 | for every store that a sequential run with failures, crashes and queues coming and going leaves behind, no check of Restore can fail, and what it restores agrees with the store |
| `ServiceFaults.RestoreAgrees` | internal/service/broker.go:396-411 | restoring re-establishes full agreement of memory and database from any sound database |
| `OutcomeStretches.CallIsStretch` | internal/service/broker.go:129-367 | on fixed exchanges and durable queues, every outcome that a complete call can have is reached in the interleaved system by steps of that call alone |
| `Histories.RestartIsStretch` | internal/service/broker.go:369-414 | a crash and the restart after it are reached by the interleaved system, ending in exactly what Restore makes of the stored tables |
| `Histories.HistoryIsRun` | internal/service/broker.go:129-414 | hence every sequential history of call outcomes and restarts is an interleaved run that passes through each of its worlds, and what holds in all runs holds for the methods below |
| `Histories.HistoryStoresFirst` | internal/service/broker.go:163-211 | for example the write-ahead law with its bound on stored attempts |
| `ServiceBacking.FaultyRunIsBacked` | internal/service/broker.go:152-175 | the write-ahead law over every sequential run with failures, crashes and queues coming and going |
| `ServiceBacking.FetchFindsItsRow` | internal/repository/postgres.go:161-165 | in such runs a fetch never fails because its row is missing |
| `ServiceObject.BrokerService.CreateExchange` | internal/service/broker.go:41-49 | served, or broken off at its statement; memory has the exchange either way |
| `ServiceObject.BrokerService.DeleteExchange` | internal/service/broker.go:51-69 | refused by the first failing check and without effect, served, or broken off at its statement |
| `ServiceObject.BrokerService.RegisterQueue` | internal/service/broker.go:71-102 | as `RegisterAnswers` says; a repeated registration returns the same queue object, and the object has the settings asked for |
| `ServiceObject.BrokerService.DeleteQueue` | internal/service/broker.go:104-127 | the same; the database is touched only for a durable queue |
| `ServiceObject.BrokerService.Publish` | internal/service/broker.go:129-178 | as `PublishAnswers` says: served for the whole route, or stopped at a failing save with a prefix of it served |
| `ServiceObject.BrokerService.BlockingFetch` | internal/service/broker.go:180-231 | with other clients at work on the queue and its rows during each wait: the effect of the last round on the world it found, which differs from the first in that queue and in delivery rows only; as `FetchAnswers` says, at most one delivery, the oldest, and each error exactly when it is due; giving up while the channel it waited on is still open means the queue is still empty, and it gives up on a queue with something in it only if its time was up |
| `ServiceObject.BrokerService.Ack` | internal/service/broker.go:250-276 | as `AckAnswers` says: refused, served, or settled in memory with its row deleted or not |
| `ServiceObject.BrokerService.NAck` | internal/service/broker.go:278-324 | as `NAckAnswers` says: refused, served, or broken off before, at or after deleting the row |
| `ServiceObject.BrokerService.AddConsumer` | internal/service/broker.go:326-337 | refused or served, never touching the database |
| `ServiceObject.BrokerService.DisconnectConsumer` | internal/service/broker.go:339-367 | as `DisconnectAnswers` says: all deliveries handed back in memory, rows released one by one up to a failure |
| `ServiceObject.BrokerService.Restore` | internal/service/broker.go:369-414 | from an empty memory it ends with the restored world or with a repository error, and with nothing else |

## Left out

- gRPC handlers, authentication, error mapping, configuration, start-up, logging and the client library: plumbing around the modelled core.
- The PostgreSQL engine: each repository method is one atomic statement; row times are given.
- A statement that is still running when the process crashes and lands after the restart: a repository call is done, or never happens, once the process is down.
- Topology changes interleaved with other calls: durable queues are fixed in `Protocol`; creating and deleting exchanges and durable queues is modelled for sequential calls, because the code takes no lock across them.
- Timers and cancellation: a wait may end at any time; no liveness or timing is claimed, and `StreamFetch`, which only repeats that wait, is not modelled.
- Integer widths: attempts and limits are unbounded integers; the 32-bit database columns are not modelled.
- String encodings: the length of a routing key is counted in characters where the code counts bytes, which differs only for keys that are invalid anyway.
- The reason text of a dead letter: a constant in the code.
- UUID generation: freshness is assumed, not derived.
- ServiceObject.BrokerService.BlockingFetch: while it waits, other clients change its queue and the delivery rows, but leave other queues alone and create and delete no queues or exchanges.
- ServiceObject.BrokerService.Restore: from a memory that is not empty it only promises to keep memory and database valid.
