# Order system: a verified model of its concurrency protocols

The order system takes orders against a limited stock, delivers messages to workers and coordinates
processes over PostgreSQL and Redis. This project models the protocols that have to hold while many
callers run at once, and proves what they promise for every interleaving, every failure and every
input. `dafny verify dfyconfig.toml` checks the whole project.

Code between two awaits is one atomic step. Each protocol is a state with a step for every await;
whole runs are sequences of states or of events, and the results are about all of them. Where the
original updates objects in place, a class does the same and its methods are tied to those steps.

* **Orders and stock** (`OrderMachine`, `OrderInvariant`, `OrderSteps`, `OrderTheorems`,
  `OrderExits`, `OrderProgress`, `OrderAlone`, `OrderAnswers`, `OrderMeaning`, `OrderReasons`, `OrderServices`). Any number of clients of four kinds share the
  tables: the atomic order service, the order service without a transaction, the pessimistic and
  the optimistic reserver. Between any two awaits a statement may fail, its answer may be lost after
  it took effect, or other clients may run. PostgreSQL is taken at READ COMMITTED: a transaction's
  writes become visible when it commits, FOR UPDATE and UPDATE wait for the row's holder and read the
  row again, ON CONFLICT DO NOTHING waits for an in-flight insert of its key, and a foreign key check
  waits for the product row. `OrderServices` writes the four services as imperative code over a
  shared `Store`, every statement of which is one step of the machine, and ties an undisturbed call to
  its sequential meaning. `OrderAnswers` ties what a client is told to the commit log, and
  `OrderMeaning` and `OrderReasons` say what it means for the request and the rows, in letters and numbers alone.
* **Request identity** (`JsText`, `Fingerprint`). Strings are sequences of 16-bit code units. The
  canonical request text uses the JSON string escapes of section 7 of RFC 8259 and keeps lone
  surrogates escaped. The SHA-256 digest is represented by the text it is computed from.
* **Idempotent message processing** (`Deduplication`, `HandlerSafety`, `MessageProcessor`). `withTransaction` around a
  claim row and the handler's writes, with failures that are refused by the server, applied with
  their answer lost, or cut the connection.
* **Worker pool** (`WorkerPools`). A job carries what its handler does before its first await, which
  includes calling `submit` and `shutdown` again and throwing.
* **Queue, retries and dead letters** (`Queues`, `Retries`, `RetryingQueues`, `RetryingRuns`). Microtasks, timers,
  outcomes and calls are events in any order; delays are real numbers of milliseconds.
* **Leases and claims** (`Locks`, `RedisClients`, `ClaimKeys`). One Redis server with a clock; commands may be
  executed long after the client has given up on them, and replies may be lost. An entry set at time
  t for d milliseconds is there until t + d and gone from then on.
* **Replicated views** (`WriteLogs`, `ConsistencySimulations`, `ReplicationSimulations`). Source,
  read model and replicas are views of prefixes of one ghost log of writes.
* **Partition routing** (`Sharding`). The hash loop with JavaScript's signed 32-bit operators
  against arithmetic modulo 2^32.

Three promises turned out to hold only under a condition. Each is proved in the form "if and only
if", beside a concrete run in which it fails:

* A handler can rely on PROCESSED, in every run, exactly when it never returns, issues no statement,
  or does not go on after a failure of its last statement. Once a statement has been refused the
  server refuses all later ones, and PostgreSQL answers the COMMIT of an aborted transaction by
  rolling it back without an error (`HandlerSafety.ReliableIffSafe`,
  `HandlerSafety.UnsafeHandlerLosesEffect`).
* A connection goes back to the pool without an open transaction exactly when its BEGIN did not take
  effect and then fail with an error that is not recognised as a connection failure; no ROLLBACK is
  sent after a failed BEGIN (`Deduplication.PooledConnectionsClean`, `Deduplication.StrayBeginStaysOpen`).
* A dead letter holds the message as it was published exactly when, just before the event that began
  the last handler call for it, the message's object still had the content it was published with. The
  copy is taken once per handler call, and the operation is given the shared object
  (`RetryingRuns.LetterHoldsOriginalIff`, `RetryingQueues.LetterMayHoldChangedMessage`).

## Model

| member | source | states |
|---|---|---|
| `JsText.ValueOfDigits` | apps/api/src/order-idempotency.js:6-11 | printing a non-negative integer in decimal can be undone |
| `JsText.DecimalInjective` | apps/api/src/order-idempotency.js:6-11 | different integers have different decimal texts, signs included |
| `JsText.LowerTwice` | apps/api/src/order-idempotency.js:7-8 | lower-casing twice is lower-casing once |
| `JsText.LowerForgetsCase` | apps/api/src/order-idempotency.js:7-8 | two texts are equal in lower case if and only if they agree character by character up to the case of the letters A to Z |
| `Fingerprint.UnescapeEscape` | apps/api/src/order-idempotency.js:6-11 | a quoted JSON string at the head of any text parses back to the string and the rest |
| `Fingerprint.QuotedInjective` | apps/api/src/order-idempotency.js:6-11 | the quoted string and what follows it are determined by the text |
| `Fingerprint.CanonicalInjective` | apps/api/src/order-idempotency.js:6-11 | the canonical request text determines customer, product, quantity and amount |
| `Fingerprint.FingerprintsAgree` | apps/api/src/order-idempotency.js:5-14 | two requests have the same fingerprint if and only if their lower-cased ids, quantities and amounts are equal |
| `Fingerprint.FingerprintsForgetCase` | apps/api/src/order-idempotency.js:5-14 | the same without naming lower-casing: the identifiers agree up to the case of their letters, and quantities and amounts are equal |
| `Fingerprint.EscapeExamples` | apps/api/src/order-idempotency.js:6-11 | the escapes of JSON.stringify, short and hexadecimal, by example |
| `Fingerprint.FingerprintExample` | apps/api/src/order-idempotency.js:6-11 | the canonical text of one request, character by character |
| `Fingerprint.FingerprintSurvivesStorage` | packages/database/src/mappers.js:10-23 | the fingerprint rebuilt from a stored row is the one computed from the original request |
| `OrderMachine.FindByKey` | packages/database/src/order-repository.js:26-38 | answers a row exactly when the key is taken, and then the row stored under that key |
| `OrderMachine.Advance` | apps/api/src/create-atomic-order.js:21-86 | a statement touches only its own client's locals, never the past, and leaves the tables alone unless it commits |
| `OrderInvariant.MoveKeeps` | apps/api/src/create-atomic-order.js:35-75 | acquiring row locks and key slots keeps the whole invariant |
| `OrderInvariant.SettleKeeps` | packages/database/src/transaction.js:53-66 | committing or discarding a transaction's writes and releasing what it holds keeps the whole invariant |
| `OrderInvariant.SettleKeepsBalance` | packages/database/src/product-repository.js:48-55 | the stock and version of every product stay balanced by committed orders and standalone reservations |
| `OrderInvariant.SettleKeepsSerial` | packages/database/src/product-repository.js:48-77 | the committed reservations stay a history that replays to the committed products |
| `OrderSteps.AdvanceKeeps` | apps/api/src/create-atomic-order.js:21-86 | every answered statement of every kind of client keeps the invariant |
| `OrderSteps.AbortKeeps` | packages/database/src/transaction.js:57-66 | a failed statement at any control point keeps the invariant |
| `OrderSteps.LostReplyKeeps` | packages/database/src/transaction.js:53-66 | a statement that took effect and whose answer is lost, a COMMIT included, keeps the invariant |
| `OrderSteps.RunKeeps` | apps/api/src/create-atomic-order.js:19-88 | the invariant holds in every state of every run of any number of clients |
| `OrderTheorems.StockConserved` | packages/database/src/product-repository.js:40-81 | with all kinds of clients: initial stock = committed stock + quantities of orders with a processing record + standalone reservations, stock >= 0, and the version counts them |
| `OrderTheorems.ProcessingRecords` | packages/database/src/order-processing-repository.js:6-18 | an order committed in the run has a processing record if and only if an atomic call committed it |
| `OrderTheorems.AtomicOrdersConserve` | apps/api/src/create-atomic-order.js:31-78 | with atomic clients only: initial stock = committed stock + quantities of the orders committed in the run, the version counts them, and exactly these have processing records |
| `OrderTheorems.ReplayCounts` | packages/database/src/product-repository.js:66-77 | replaying a history raises a product's version by the number of reservations made on it |
| `OrderTheorems.ReservationsSerial` | packages/concurrency/src/index.js:66-125 | optimistic, locked and atomic reservations in commit order are a valid sequential history from the initial to the committed products; `OrderAnswers.ReservationsAnswered` ties each client's answer to its entry |
| `OrderAnswers.RunTold` | packages/concurrency/src/index.js:61-125 | in every state of every run, what a client has been told agrees with the reservations it owns in the commit log |
| `OrderAnswers.ReservationsAnswered` | packages/concurrency/src/index.js:61-125 | a reservation call, optimistic or locked, answers a row if and only if exactly one entry of the commit log is its own and the row is what that entry left when the log is made one after the other; only a database failure may hide one that took effect |
| `OrderAnswers.RefusedReservesNothing` | packages/concurrency/src/index.js:66-96 | a call refused for any reason but a database failure owns no reservation |
| `OrderAnswers.CommitsAnswered` | apps/api/src/create-atomic-order.js:31-78 | a statement that changes the tables commits all writes of its call at once, with its one entry in the log, and from then on the call answers the committed order or row, or a database failure |
| `OrderAnswers.RefusedChangesNothing` | apps/api/src/create-atomic-order.js:21-86 | no statement of a call that is refused for another reason than a database failure has changed the tables or the log |
| `OrderAnswers.OwnOrderReserved` | apps/api/src/create-atomic-order.js:59-77 | an atomic call that stored an order owns exactly one reservation from then on, for that order, product and quantity |
| `OrderAnswers.OrdersReserved` | apps/api/src/create-atomic-order.js:59-77 | an order committed in the run has exactly one reservation, of its product and quantity, if it has a processing record, and none otherwise |
| `OrderTheorems.OneOrderPerKey` | apps/api/src/order-idempotency.js:16-24 | all successful calls with one key, of either service, return the same committed order and have the same fingerprint |
| `OrderTheorems.OrdersPermanent` | packages/database/src/order-repository.js:69-110 | a committed order never changes or goes away, and no other order is ever committed under its key |
| `OrderTheorems.ReusedKeyRefused` | apps/api/src/order-idempotency.js:16-24 | a call whose key is committed with another fingerprint returns no order and takes no stock |
| `OrderTheorems.OneReservationPerKey` | apps/api/src/create-atomic-order.js:59-77 | no two committed reservations are for orders with the same key |
| `OrderExits.LockedStockSuffices` | apps/api/src/create-atomic-order.js:50-57 | under the row lock the stock that was checked is still there: the second insufficient-stock exit is unreachable |
| `OrderExits.ReadBackFinds` | packages/database/src/order-repository.js:105-109 | after a conflicting insert the winning row is always found |
| `OrderExits.ConstraintsHold` | packages/database/migrations/202609080002_create_order_processing.js:3-5 | the processing insert of a new order and the foreign key check of an order without a transaction cannot fail on a constraint |
| `OrderExits.ReplayExitUnreachable` | apps/api/src/create-atomic-order.js:71-81 | without unlocked writers a conflicting insert always ends with a reused key: equal fingerprints force the same product lock |
| `OrderExits.ExhaustionNeedsConflicts` | packages/concurrency/src/index.js:66-96 | an exhausted optimistic call has met at least maxRetries + 1 reservations of its product committed during the call, none its own |
| `OrderExits.EnoughRetriesNeverExhaust` | packages/concurrency/src/index.js:66-96 | a call with at least as many retries as there are rivals for its product never exhausts them |
| `OrderProgress.WaitsDescend` | apps/api/src/create-atomic-order.js:35-75 | whoever waits, waits for a client of smaller rank: a holder of a key slot never waits again |
| `OrderProgress.SomeoneCanStep` | apps/api/src/create-atomic-order.js:35-75 | the waits-for relation is acyclic with chains of at most two edges that end at a client that can step |
| `OrderProgress.RunsEnd` | apps/api/src/create-atomic-order.js:21-86 | no run, however scheduled, is longer than a bound computed from its first state |
| `OrderProgress.StuckRunsAreDone` | apps/api/src/create-atomic-order.js:21-86 | without unlocked writers and with distinct order ids a run cannot go on if and only if every call is finished |
| `OrderAlone.UndisturbedOrder` | apps/api/src/create-atomic-order.js:21-86 | an order call of either service that nobody disturbs answers the stored order, the refusal or the new order as the tables say, takes its quantity from the stock and stores order and processing record, or changes nothing |
| `OrderAlone.UndisturbedReservation` | packages/concurrency/src/index.js:61-125 | undisturbed, both reservers do the same: they take the quantity exactly when it is there |
| `OrderMeaning.ResolveMeans` | apps/api/src/order-idempotency.js:16-24 | an order found under the key is the answer if and only if it is for the same customer, product, quantity and amount, ids compared up to case; otherwise the key is refused |
| `OrderMeaning.StoredFingerprintDecides` | apps/api/src/order-idempotency.js:16-24 | a stored fingerprint decides alone, and a row without one is compared by its four fields |
| `OrderMeaning.SequentialMeans` | apps/api/src/create-atomic-order.js:21-86 | the whole meaning of an undisturbed order call in terms of request and rows: validation, repeated and reused keys, missing product, short stock, taken id, and the order, stock, version and processing record that a new order leaves |
| `OrderMeaning.SequentialReservationMeans` | packages/concurrency/src/index.js:61-125 | the same for a reservation |
| `OrderMeaning.RepeatAnswersTheOrder` | apps/api/src/create-atomic-order.js:24-28 | repeating the request of an order that was answered answers that order again and changes nothing |
| `OrderReasons.RunReasoned` | apps/api/src/create-atomic-order.js:21-86 | in every state of every run each refusal on its way to a client has its reason in the request and the tables, and new orders are proper |
| `OrderReasons.AnswersWarranted` | apps/api/src/create-atomic-order.js:21-86 | in every run an answered order is committed under the call's key for the same request; KEY_REUSED means a committed order under the key that differs in one of the four fields; validation, missing product and short stock are reported only when true; nothing else is refused but by a database failure or exhausted retries |
| `OrderReasons.UnacceptableRefused` | apps/api/src/create-order.js:7-24 | a request without a positive quantity, a positive amount and a key that is not all white space is refused in every run |
| `OrderReasons.OptimisticHitsIff` | packages/concurrency/src/index.js:82-92 | in every run the guarded update of an optimistic attempt takes the stock if and only if the row is still, stock and version, what that attempt has read; otherwise the next attempt reads again, or retries are over |
| `OrderReasons.OrdersProper` | apps/api/src/create-order.js:7-24 | no order with a quantity or amount that is not positive, or with a blank key, is committed in any run |
| `OrderServices.Store.constructor` | packages/database/migrations/202609080001_create_order_tables.js:3-26 | a store starts a run of the order machine with every client at its first statement |
| `OrderServices.Store.Interleave` | apps/api/src/create-atomic-order.js:24-75 | whatever other clients do between two awaits keeps the store in a run and this client where it was |
| `OrderServices.Store.Await` | apps/api/src/create-atomic-order.js:24-75 | after other clients have moved, the statement either can run or has failed and ended the call |
| `OrderServices.Store.LookupKey` | packages/database/src/order-repository.js:26-38 | answers the order committed under the key at that moment |
| `OrderServices.Store.FindByIdForUpdate` | packages/database/src/product-repository.js:30-38 | reads the committed row and takes its lock |
| `OrderServices.Store.ReserveLocked` | packages/database/src/product-repository.js:40-59 | updates the locked row exactly when its stock suffices |
| `OrderServices.Store.ReserveWithVersion` | packages/database/src/product-repository.js:61-81 | updates the row exactly when stock and version still match, else the attempt fails or retries are over |
| `OrderServices.Store.FindById` | packages/database/src/product-repository.js:20-28 | reads the committed row without a lock |
| `OrderServices.Store.InsertOrder` | packages/database/src/order-repository.js:69-110 | inserts, skips on a taken key, or fails on a taken id |
| `OrderServices.Store.ReadWinner` | packages/database/src/order-repository.js:109-110 | the row read back after a conflict exists and decides the answer |
| `OrderServices.Store.CreateProcessing` | packages/database/src/order-processing-repository.js:6-18 | the third write succeeds unless the statement itself fails |
| `OrderServices.Store.Finish` | packages/database/src/transaction.js:53-66 | COMMIT and ROLLBACK end the call with its result, or with a database failure |
| `OrderServices.Store.CheckForeignKey` | packages/database/migrations/202609080001_create_order_tables.js:12-14 | the reference check of an order without a transaction passes unless the statement itself fails |
| `OrderServices.PlaceOrder` | apps/api/src/create-atomic-order.js:31-78 | the operation inside the transaction leaves the client before the COMMIT of its result or the ROLLBACK of its error |
| `OrderServices.CreateAtomicOrder` | apps/api/src/create-atomic-order.js:21-86 | the imperative service is a path of the machine, whatever others do and whichever statement fails; its answer is warranted by request, tables and commit log, and an order it returns is committed and for the request; undisturbed, answer and tables are those of the sequential meaning, said in plain terms: a repeated request is answered with the stored order and changes nothing |
| `OrderServices.CreateOrder` | apps/api/src/create-order.js:7-74 | the same for the service without a transaction; undisturbed, it refuses for validation if and only if quantity or amount is not positive or the key is all white space |
| `OrderServices.EndTransaction` | packages/database/src/transaction.js:53-66 | the caller gets the operation's outcome; a database failure instead only if the outcome was about to be committed |
| `OrderServices.ReservePessimistically` | packages/concurrency/src/index.js:99-125 | the imperative reserver is a path of the machine; whatever others do, a row it answers is what its own reservation in the commit log left, and a refusal means it has none; undisturbed, it takes the quantity exactly when it is there |
| `OrderServices.TryReserve` | packages/concurrency/src/index.js:73-93 | one round ends the call, or leaves it at the next attempt exactly when there is one; a round that answers a row has a committed reservation that left it, and a refused one has none |
| `OrderServices.ReserveOptimistically` | packages/concurrency/src/index.js:61-96 | the retry loop is a path of the machine with at most maxRetries + 1 attempts; whatever others do, a row it answers is what its own reservation in the commit log left, and a refusal means it has none; undisturbed, it takes the quantity exactly when it is there |
| `Deduplication.RunKeeps` | packages/database/src/transaction.js:33-70 | the invariant holds over every run of any number of deliveries of any messages |
| `Deduplication.EffectsOncePerMessage` | apps/worker/src/idempotent-message-processor.js:5-16 | committed handler effects per message are 1 if its claim is committed and 0 otherwise |
| `Deduplication.DuplicateMeansCommitted` | apps/worker/src/idempotent-message-processor.js:10-12 | DUPLICATE is answered only once the message's effect is committed |
| `Deduplication.ProcessedMeansCommitted` | apps/worker/src/idempotent-message-processor.js:14-15 | in a given run, after PROCESSED this delivery's effect is committed if and only if it did not go on after a refused statement; which handlers can is `HandlerSafety.ReliableIffSafe` |
| `Deduplication.SwallowedFailureLosesEffect` | packages/database/src/transaction.js:54-56 | a run in which a delivery answers PROCESSED and nothing is committed |
| `Deduplication.LostCommitIsDuplicateLater` | apps/worker/src/idempotent-message-processor.js:5-17 | a run in which a delivery is rejected although its COMMIT took effect, and its redelivery is a DUPLICATE with one committed effect |
| `Deduplication.ReleasedExactlyOnce` | packages/database/src/transaction.js:35-69 | a connection is acquired at most once and released exactly once if acquired, when the call ends |
| `Deduplication.PooledConnectionsClean` | packages/database/src/transaction.js:43-69 | a connection returned for reuse has no open transaction if and only if no BEGIN of it took effect and failed unrecognised |
| `Deduplication.StrayBeginStaysOpen` | packages/database/src/transaction.js:46-51 | a run in which a connection is returned for reuse with an open transaction |
| `HandlerSafety.CommittedIsWhole` | packages/database/src/transaction.js:53-66 | all or nothing: in every run, even when the outcome of a COMMIT is never learned, whatever is committed for a delivery is its handler's writes, all of them and in order |
| `HandlerSafety.SafeHandlersCommit` | apps/worker/src/idempotent-message-processor.js:14-15 | a handler that does not go on after a failure of its last statement, or never returns, has its effect committed in every run that answers PROCESSED |
| `HandlerSafety.UnsafeHandlerLosesEffect` | packages/database/src/transaction.js:54-56 | for every other handler and every message there is a run that answers PROCESSED with nothing committed |
| `HandlerSafety.ReliableIffSafe` | apps/worker/src/idempotent-message-processor.js:5-16 | PROCESSED means committed in all runs of a handler if and only if the handler is one of the former |
| `MessageProcessor.Broker.TryCreate` | packages/database/src/processed-message-repository.js:6-19 | the claim is created, found taken by a committed claim, or fails |
| `MessageProcessor.Broker.Ask` | packages/database/src/transaction.js:37-69 | where connect, BEGIN, COMMIT and ROLLBACK lead for every reply, and when the connection is discarded |
| `MessageProcessor.RunHandler` | apps/worker/src/idempotent-message-processor.js:14-15 | the handler's statements run until one of its failures gets out; on a return an open session holds exactly its writes, and for a handler that does not go on after its last failure it is not aborted; undisturbed, all of them are pending in its transaction |
| `MessageProcessor.ClaimAndHandle` | apps/worker/src/idempotent-message-processor.js:6-16 | the operation ends before a COMMIT of its status or a ROLLBACK |
| `MessageProcessor.Transact` | packages/database/src/transaction.js:43-69 | on every path the connection is left to be released, discarded or not |
| `MessageProcessor.Process` | apps/worker/src/idempotent-message-processor.js:5-17 | the imperative processor is a path of the machine; whatever fails, its committed writes are all of its handler's or none, DUPLICATE means one committed effect, and PROCESSED a committed one if the handler does not go on after a failure of its last statement; undisturbed, it answers DUPLICATE exactly for a claimed message and otherwise commits the claim with the handler's writes, or nothing if the handler throws, and its connection is destroyed exactly if the handler throws an error taken for a connection failure |
| `WorkerPools.PendingWeightAppend` | apps/worker/src/worker-pool.js:106-108 | the measure of the drain: a submission adds the work that its job can cause |
| `WorkerPools.CountUpdate` | apps/worker/src/worker-pool.js:79-88 | when a started job changes its status, the numbers of running, successful and failed jobs change by exactly that job |
| `WorkerPools.ProgressOn` | apps/worker/src/worker-pool.js:63-98 | one more started job is left as its own handler has it, and the accepted jobs grow by what its handler submits, in call order, until a shutdown |
| `WorkerPools.WorkerPool.AcceptedAccounted` | apps/worker/src/worker-pool.js:38-47 | at every handler entry: accepted = pending + active + successful + failed, where each count is that of the jobs' own outcomes |
| `WorkerPools.WorkerPool.constructor` | apps/worker/src/worker-pool.js:32-47 | a new pool is idle and accepts jobs |
| `WorkerPools.WorkerPool.CompleteShutdownWhenIdle` | apps/worker/src/worker-pool.js:49-54 | shutdown resolves exactly when nothing is accepted, active or pending, and at most once |
| `WorkerPools.WorkerPool.Dispatch` | apps/worker/src/worker-pool.js:56-71 | re-entered calls return at once; otherwise afterwards no worker is free while jobs wait; every job it starts is rejected with its own error if its handler throws at once and else awaited, and all that the handlers submit is accepted in order up to a shutdown |
| `WorkerPools.WorkerPool.StartNext` | apps/worker/src/worker-pool.js:63-67 | the next accepted job starts with its own handler: its calls are made, its synchronous throw rejects it, and less work can still be caused |
| `WorkerPools.WorkerPool.ProcessJob` | apps/worker/src/worker-pool.js:73-98 | the handler's calls are all made; a synchronous throw is counted as a failure and rejects the job's own promise with its own error, through a nested dispatch |
| `WorkerPools.WorkerPool.RunCalls` | apps/worker/src/worker-pool.js:79-80 | a handler's submissions from inside dispatch are accepted in call order until one of its calls shuts the pool down; they start and resolve nothing |
| `WorkerPools.WorkerPool.Submit` | apps/worker/src/worker-pool.js:101-111 | a job is accepted exactly while the pool accepts, behind all earlier ones, and followed by what the jobs that now start submit; a refused one changes nothing; between calls every started job that throws at once is rejected with its own error |
| `WorkerPools.WorkerPool.Shutdown` | apps/worker/src/worker-pool.js:130-141 | nothing is accepted any more, and a pool that is idle resolves at once |
| `WorkerPools.WorkerPool.Resume` | apps/worker/src/worker-pool.js:79-97 | an awaited job settles with its own outcome, other settled jobs stay as they are, and its worker is given on to jobs that start with their own handlers |
| `WorkerPools.WorkerPool.FinishAll` | apps/worker/src/worker-pool.js:86-90 | after shutdown, finishing the awaited handlers in any order settles every accepted job and resolves the shutdown once |
| `WorkerPools.CreateWorkerPool` | apps/worker/src/worker-pool.js:21-37 | five workers when no concurrency is given, and no pool for a concurrency that is not positive |
| `Queues.PublishKeeps` | packages/queue/src/index.js:102-123 | a publish call in any state keeps the queue's invariant |
| `Queues.AdmitsOne` | packages/queue/src/index.js:68-75 | admitting fills the queue to capacity in the order of the waiting calls, and no publisher waits beside a free place |
| `Queues.HandlerDoneKeeps` | packages/queue/src/index.js:95-98 | acknowledging a message and admitting a publisher keeps the invariant, and so does a failure |
| `Queues.ShutdownKeeps` | packages/queue/src/index.js:151-162 | shutdown keeps the invariant |
| `Queues.ExecKeeps` | packages/queue/src/index.js:43-164 | the invariant holds after any sequence of calls, microtasks and handler outcomes |
| `Queues.PublishedAreAccepted` | packages/queue/src/index.js:102-123 | the history of accepted messages is exactly the admitted or waiting publish calls in call order |
| `Queues.FirstInFirstOut` | packages/queue/src/index.js:68-122 | acknowledged, queued, waiting and turned-away messages are, in this order, the accepted calls; handlers are called on that sequence in order, each position one or more times in a row and none skipped |
| `Queues.BoundedAndAwake` | packages/queue/src/index.js:61-98 | depth <= capacity, a waiting publisher means a full accepting queue, an unwoken suspended consumer means an empty accepting queue |
| `Queues.PublishAnswers` | packages/queue/src/index.js:102-123 | a publish call is refused only after shutdown, for an argument that is no object, or on a rejecting queue that is exactly full; it waits only on a full one |
| `Queues.ConsumeAnswers` | packages/queue/src/index.js:125-141 | a consumer is refused only after shutdown or beside another one; else it gets to the oldest message or waits for one |
| `Queues.ConsumerDelivers` | packages/queue/src/index.js:77-95 | with a message queued, a consumer that has not settled reaches its handler by its own microtasks |
| `Queues.FailedMessageIsRedelivered` | packages/queue/src/index.js:87-140 | a failed handler leaves its message at the head, and the next consumer is given it again |
| `Queues.ShutdownIsFinal` | packages/queue/src/index.js:151-162 | after shutdown no handler starts, nothing is accepted, and every waiting publisher has been turned away |
| `Queues.InMemoryQueue.constructor` | packages/queue/src/index.js:43-59 | a new queue is empty and accepting |
| `Queues.CreateInMemoryQueue` | packages/queue/src/index.js:43-54 | no queue for a capacity that is neither infinite nor a positive integer, nor for an unknown overflow strategy |
| `Queues.InMemoryQueue.DoWake` | packages/queue/src/index.js:61-66 | wakes the suspended consumer, once |
| `Queues.InMemoryQueue.AdmitWaitingPublishers` | packages/queue/src/index.js:68-75 | the loop admits exactly as many publishers as there is room for |
| `Queues.InMemoryQueue.PublishMessage` | packages/queue/src/index.js:102-123 | the result and the new state for every state and argument |
| `Queues.InMemoryQueue.FetchNext` | packages/queue/src/index.js:77-85 | suspends on an empty accepting queue, else answers the head or nothing |
| `Queues.InMemoryQueue.StartConsumer` | packages/queue/src/index.js:125-141 | refused after shutdown and beside another consumer, else the loop starts |
| `Queues.InMemoryQueue.ResumeConsumer` | packages/queue/src/index.js:78-84 | a woken consumer looks again |
| `Queues.InMemoryQueue.ContinueConsumer` | packages/queue/src/index.js:89-95 | the handler is called with the fetched head, unless shutdown has begun |
| `Queues.InMemoryQueue.SettleHandler` | packages/queue/src/index.js:95-98 | success acknowledges the head and admits publishers; failure leaves the loop and the message |
| `Queues.InMemoryQueue.FinishConsumer` | packages/queue/src/index.js:134-138 | a settled consumer makes place for another |
| `Queues.InMemoryQueue.RejectWaitingPublishers` | packages/queue/src/index.js:155-157 | the loop turns away every waiting publisher in order |
| `Queues.InMemoryQueue.BeginShutdown` | packages/queue/src/index.js:151-162 | the state after shutdown has begun, for every state before |
| `Retries.DoubledIsPower` | packages/retries/src/index.js:61 | the delay that doubles with every attempt is base * 2^(attempt - 1) |
| `Retries.Multiplier` | packages/retries/src/index.js:66 | the jitter multiplier lies between 1 - j and 1 + j, at 1 - j for the random value 0, 1 for one half and 1 + j for 1 |
| `Retries.Round` | packages/retries/src/index.js:67 | rounding moves a delay by at most one half |
| `Retries.DelayBounds` | packages/retries/src/index.js:60-68 | every accepted random value gives a delay between the rounded ends of the jitter interval |
| `Retries.DelayInterpolates` | packages/retries/src/index.js:60-68 | the delay is the rounded point that the random value picks, in proportion, between base * 2^(attempt - 1) * (1 - j) and base * 2^(attempt - 1) * (1 + j); a random value outside 0 to 1 is refused |
| `Retries.DelayEnds` | packages/retries/src/index.js:60-68 | random 0, one half and 1 give the rounded shortest delay, the delay without jitter and the longest |
| `Retries.DelayGrows` | packages/retries/src/index.js:60-68 | a larger random value never gives a shorter delay |
| `Retries.TotalBounds` | packages/retries/src/index.js:60-68 | n delays add up to base * (2^n - 1) scaled by 1 - j to 1 + j, give or take n / 2 |
| `Retries.ExactBackoff` | packages/retries/src/index.js:60-68 | without jitter and with a whole base they add up to exactly base * (2^n - 1) |
| `Retries.TotalWithinLimit` | packages/retries/src/index.js:139-158 | the total delay is at most (1 + j) * base * (2^(maxAttempts - 1) - 1) + (maxAttempts - 1) / 2 |
| `Retries.ExecuteWithRetry` | packages/retries/src/index.js:113-193 | the attempts are exactly 1 to k for the first k that is not retried, k <= maxAttempts; the result, the delays and the one letter that belong to k, that a failure is classified transient exactly if its last attempt failed transiently, and that the letter holds the message as it was before the first attempt |
| `RetryingQueues.LedgerWrites` | packages/retries/src/index.js:161-173 | writing a letter for the head keeps every letter accounted for |
| `RetryingQueues.LedgerSettles` | packages/retries/src/index.js:91-104 | acknowledging a message with the fate of its handler call keeps every letter accounted for |
| `RetryingQueues.AdvancesStep` | packages/queue/src/index.js:68-162 | the dead-letter queue takes in more and more of what was published, until it is shut down |
| `RetryingQueues.BeginKeeps` | packages/retries/src/index.js:124-137 | entering the handler keeps the invariant, whether or not the options are valid and the copy succeeds |
| `RetryingQueues.AfterOperationKeeps` | packages/retries/src/index.js:140-182 | an attempt's outcome keeps the invariant: success, another attempt, a letter, or an infrastructure failure |
| `RetryingQueues.AfterPublicationKeeps` | packages/retries/src/index.js:162-188 | the settled publication of a letter keeps the invariant, refused or taken in |
| `RetryingQueues.ExecKeeps` | packages/retries/src/index.js:85-111 | the invariant of both queues and the processor holds after any sequence of events |
| `RetryingRuns.EveryMessageOnce` | packages/retries/src/index.js:91-104 | over any interleaving and any number of consumer restarts every accepted message is still queued, or an attempt of its last handler call returned and it has no letter, or it has exactly one letter in the dead-letter queue; the head alone may have its letter before its acknowledgement |
| `RetryingRuns.SuccessComesFrom` | packages/retries/src/index.js:140-146 | the last handler call for a message that succeeded had an attempt whose operation returned |
| `RetryingQueues.LettersTellTheTruth` | packages/retries/src/index.js:162-173 | a letter holds the message as the last handler call for it found it, attempts <= maxAttempts, and a permanent error or the last attempt |
| `RetryingQueues.FailureLeavesTheMessage` | packages/retries/src/index.js:100-103 | an infrastructure failure leaves the message at the head, without a letter, and the next consumer gets it |
| `RetryingQueues.LetterIsAcknowledged` | packages/queue/src/index.js:95-97 | once its letter is taken in the message is acknowledged, even during shutdown |
| `RetryingRuns.LetterComesFrom` | packages/retries/src/index.js:136-164 | the publication of a dead-lettered message and the start of its last handler call are events of the run, in this order |
| `RetryingRuns.LetterHoldsOriginalIff` | packages/retries/src/index.js:136-164 | the letter holds the message as it was published if and only if the object's content just before the event that began the last handler call is its content at the publication |
| `RetryingRuns.LettersHoldOriginals` | packages/retries/src/index.js:136-164 | when nothing changes the object between its publication and the start of its last handler call, the letter holds it as it was published, whatever is done to it during that call |
| `RetryingRuns.LetterSaysWhy` | packages/retries/src/index.js:154-173 | the letter that an attempt writes is classified transient if and only if that attempt failed transiently, which was then the last one allowed |
| `RetryingQueues.LetterMayHoldChangedMessage` | packages/retries/src/index.js:136-164 | a run whose letter holds a message that the operation changed in an earlier handler call |
| `RetryingQueues.HandlerCallRetries` | packages/retries/src/index.js:91-104 | a handler call driven by its operation, delays and random source makes the attempts of executeWithRetry and goes on as its result says, with the very same letter |
| `ClaimKeys.Utf8RoundTrip` | apps/worker/src/redis-processed-message-store.js:1-3 | the UTF-8 octets of a text decode to the text |
| `ClaimKeys.EncodableIffWellFormed` | apps/worker/src/redis-processed-message-store.js:1-3 | exactly the texts without a lone surrogate can be encoded |
| `ClaimKeys.PercentRoundTrip` | apps/worker/src/redis-processed-message-store.js:1-3 | percent-encoding of octets can be undone |
| `ClaimKeys.KeyPartRoundTrip` | apps/worker/src/redis-processed-message-store.js:1-3 | a key part is produced exactly for well-formed texts, contains no colon, and decodes to its text |
| `ClaimKeys.AsciiHead` | apps/worker/src/redis-processed-message-store.js:1-3 | which ASCII characters stay, and that the others become a percent sign and two upper-case hexadecimal digits |
| `ClaimKeys.ClaimKeyExample` | apps/worker/src/redis-processed-message-store.js:11 | one key, character by character: consumer before message, a colon between them |
| `ClaimKeys.ClaimKeyInjective` | apps/worker/src/redis-processed-message-store.js:11 | different (consumer, messageId) pairs have different keys |
| `Locks.SetNxKeeps` | packages/locks/src/index.js:46-49 | a granted or refused SET NX keeps grants of one key disjoint in time |
| `Locks.CompareAndDeleteKeeps` | packages/locks/src/index.js:3-8 | so does the release script |
| `Locks.LiveIff` | packages/locks/src/index.js:46-54 | a key is taken exactly while one of its grants runs |
| `Locks.TokenIsOwn` | packages/locks/src/index.js:3-8 | the entry that holds a lease's token is the lease's own, and it does so exactly while the lease runs |
| `Locks.ExecKeeps` | packages/locks/src/index.js:36-71 | the invariant holds for any number of clients, delayed executions and lost replies |
| `Locks.LeasesExclude` | packages/locks/src/index.js:37-55 | two acquisitions of one resource never run at the same time |
| `Locks.AcquireAnswers` | packages/locks/src/index.js:37-55 | a lease is a grant to the caller's own token for the requested time; null means another grant of the resource ran |
| `Locks.ReleaseDeletesOwn` | packages/locks/src/index.js:3-8 | a release answers true exactly when its lease still runs, ends it, and leaves entries with other tokens alone, a replacement included |
| `Locks.ReleaseTrueOnce` | packages/locks/src/index.js:57-70 | at most one release of a lease ever answers true, and it deleted the lease's own grant |
| `Locks.ClaimsApart` | apps/worker/src/redis-processed-message-store.js:10-17 | two successful claims of one message are at least the first one's time to live apart |
| `Locks.ClaimRefusedForItself` | apps/worker/src/redis-processed-message-store.js:10-17 | a claim is refused only for an earlier claim of the very same consumer and message, strictly within its time to live |
| `RedisClients.RedisServer.SetIfAbsent` | packages/locks/src/index.js:46-49 | sets a free key and nothing else |
| `RedisClients.RedisServer.DeleteIfEqual` | packages/locks/src/index.js:3-8 | deletes a live key with the given value and nothing else |
| `RedisClients.RedisServer.Send` | packages/locks/src/index.js:37-49 | sending a command is one event of the protocol, refused ones included |
| `RedisClients.RedisServer.Serve` | packages/locks/src/index.js:46-66 | executing a command in place is one event of the protocol, at whatever time it arrives |
| `RedisClients.RedisServer.Travel` | packages/locks/src/index.js:45-52 | while others go on, the command is executed and answered, or unavailable exactly when the network loses it or its reply |
| `RedisClients.RedisLock.AcquireLease` | packages/locks/src/index.js:37-55 | one acquire call of a run of the protocol, whatever goes on around it, with its answer for every time to live and network failure; with nothing around it, the server state and that null means a taken resource |
| `RedisClients.RedisLock.ReleaseLease` | packages/locks/src/index.js:57-70 | one release of a lease in a run of the protocol; with nothing around it, the server state, and true exactly if the lease still held |
| `RedisClients.RedisProcessedMessageStore.TryClaim` | apps/worker/src/redis-processed-message-store.js:10-18 | one claim in a run of the protocol, with its answer, malformed ids being refused before anything is executed; with nothing around it, the server state and the answer |
| `RedisClients.LeasesOfOneRunApart` | packages/locks/src/index.js:36-71 | two leases of one resource that the lock has returned never run at the same time, each for the time it names |
| `WriteLogs.ViewCounts` | packages/concurrency/src/consistency-simulation.js:42-45 | an order is in the view of a log exactly when it was written, and its version counts its writes |
| `WriteLogs.ViewsAreOrdered` | packages/concurrency/src/consistency-simulation.js:76-84 | as more of the log is applied, no order disappears and no version goes back |
| `WriteLogs.VersionsUnique` | packages/concurrency/src/consistency-simulation.js:42-43 | a version names one write of its order |
| `WriteLogs.SourceWrites` | packages/concurrency/src/consistency-simulation.js:42-46 | a write takes the next version of its order, and the source stays the view of the whole log |
| `WriteLogs.FollowsApply` | packages/concurrency/src/consistency-simulation.js:76-84 | applying the oldest pending write keeps view and queue complementary; with nothing pending the view is the source |
| `WriteLogs.FollowsReads` | packages/concurrency/src/consistency-simulation.js:58-60 | what a view behind the source can answer, never ahead of it |
| `ConsistencySimulations.OrderConsistencySimulation.constructor` | packages/concurrency/src/consistency-simulation.js:33-36 | an empty source, read model and queue |
| `ConsistencySimulations.OrderConsistencySimulation.WriteOrder` | packages/concurrency/src/consistency-simulation.js:39-52 | the log grows by the order at its next version, the token names that version, and a refused order changes nothing |
| `ConsistencySimulations.OrderConsistencySimulation.ReadSource` | packages/concurrency/src/consistency-simulation.js:54-56 | the latest write of the order, null when there is none |
| `ConsistencySimulations.OrderConsistencySimulation.ReadModel` | packages/concurrency/src/consistency-simulation.js:58-60 | the latest applied write of the order |
| `ConsistencySimulations.OrderConsistencySimulation.ReadForSession` | packages/concurrency/src/consistency-simulation.js:62-74 | a write at least as new as the token asks for, null exactly when there is none; for a token issued at any earlier write, that write or a later one |
| `ConsistencySimulations.OrderConsistencySimulation.ApplyNextReadModelUpdate` | packages/concurrency/src/consistency-simulation.js:76-85 | the oldest pending write moves its order to its next version; once nothing is pending the read model is the source |
| `ConsistencySimulations.IssuedTokensAreHonoured` | packages/concurrency/src/consistency-simulation.js:62-74 | the version that is read for a token issued at a write is that version or a later one, however far behind the read model is |
| `ConsistencySimulations.SessionReadsMayGoBack` | packages/concurrency/src/consistency-simulation.js:68-73 | reads with one token need not be monotone: an example |
| `ReplicationSimulations.OrderReplicationSimulation.constructor` | packages/concurrency/src/replication-simulation.js:28-33 | an empty primary and two empty replicas |
| `ReplicationSimulations.CreateOrderReplication` | packages/concurrency/src/replication-simulation.js:5-14 | exactly two distinct non-empty ids are accepted |
| `ReplicationSimulations.OrderReplicationSimulation.WritePrimary` | packages/concurrency/src/replication-simulation.js:46-58 | the log grows by the order at its next version, and every replica keeps its state and has the write as its newest pending one |
| `ReplicationSimulations.OrderReplicationSimulation.ReadPrimary` | packages/concurrency/src/replication-simulation.js:60-62 | the latest write of the order, null when there is none |
| `ReplicationSimulations.OrderReplicationSimulation.ReadReplica` | packages/concurrency/src/replication-simulation.js:64-66 | the latest write that the replica has applied, never ahead of the primary; unknown ids are refused |
| `ReplicationSimulations.OrderReplicationSimulation.ReplicateNext` | packages/concurrency/src/replication-simulation.js:68-78 | one replica applies its oldest pending write, the other is untouched, and a replica with nothing pending equals the primary |
| `ReplicationSimulations.ReplicasConverge` | packages/concurrency/src/replication-simulation.js:68-78 | replicas lacking equally many writes are equal, and of two replicas the one behind is behind on every order |
| `Sharding.LoopBodyRefines` | packages/concurrency/src/sharding-simulation.js:21 | signed xor, Math.imul and >>> 0 together compute one step modulo 2^32 |
| `Sharding.MixIsBijective` | packages/concurrency/src/sharding-simulation.js:17-24 | the step is a bijection of the running state, with its inverse |
| `Sharding.MixSeparates` | packages/concurrency/src/sharding-simulation.js:21 | different code units take one state to different states |
| `Sharding.StatesStayApart` | packages/concurrency/src/sharding-simulation.js:17-24 | different states stay different whatever text follows |
| `Sharding.OneUnitNeverCollides` | packages/concurrency/src/sharding-simulation.js:17-24 | texts that differ in exactly one code unit have different hashes |
| `Sharding.HashOfRounds` | packages/concurrency/src/sharding-simulation.js:17-24 | a hash computed step by step in numbers, from 2166136261 with the factor 16777619, is the hash of the text |
| `Sharding.Hash` | packages/concurrency/src/sharding-simulation.js:17-24 | the JavaScript loop computes the hash modulo 2^32; the empty text, one letter and the customers of the repository's tests have the values 2166136261, 3826002220, 3796854407, 3813632026 and 3830409645 |
| `Sharding.SizeShowsRepetition` | packages/concurrency/src/sharding-simulation.js:11 | comparing the size of the set of ids with their number finds every repetition and nothing else |
| `Sharding.CreateRouter` | packages/concurrency/src/sharding-simulation.js:4-30 | a router exists exactly for at least two pairwise distinct non-empty ids |
| `Sharding.Route` | packages/concurrency/src/sharding-simulation.js:33-45 | a customer is always routed to the same configured partition, with three partitions customer-a, customer-b and customer-c to the third, second and first; malformed ids are refused |

## Left out

- Fastify routes, schemas, hooks, server startup, the command line, Docker, Caddy and running migrations: input and output; the migrations are used as the source of table constraints.
- SHA-256: the canonical text stands for its digest, so a collision of digests is not represented.
- UUID input: ids are taken in the text form of `format: uuid`, lower-cased by PostgreSQL; the `urn:uuid:` prefix and other spellings that a uuid column accepts are not represented.
- Order fields that no decision depends on (status, timestamps, the version column of orders, product names), and orders and products being inserted, changed or deleted by anything but the four modelled services.
- Deadlocks between unlocked order calls and atomic ones: the foreign key check interacts with the product lock, so progress is proved without unlocked calls; safety covers the mix.
- The metric that createOrder increments and the content of the events it publishes; a failing publisher is covered.
- Isolation levels other than READ COMMITTED: no caller in the modelled code passes one.
- OrderServices.ReserveOptimistically: `maxRetries` is a natural number and quantities are integers; the checks that refuse anything else are not represented.
- OrderServices.CreateAtomicOrder: the order id is a parameter, as the id generator may answer anything.
- OrderMachine: clients have no connect or BEGIN step and always run on clean connections. A pooled connection can carry an open transaction (`Deduplication.StrayBeginStaysOpen`); on such a connection an insert without a transaction would be answered before it is committed.
- OrderMachine: keys are arbitrary sequences of code units; on the wire the UTF-8 encoding maps every lone surrogate to the same character, so two keys that differ only there would be one.
- Deduplication: the handler's statements are abstract writes; rows that its statements conflict on with other transactions, and handlers that use SAVEPOINT, are not represented. Message ids that differ only in lone surrogates would share one claim on the wire, and have two here.
- Worker pool timings, throughput and average metrics, and a numeric string as concurrency.
- WorkerPools.CreateWorkerPool: the default concurrency is `process.env.WORKER_CONCURRENCY`, and five only when that is unset; the environment is not part of this model, so None stands for an unset variable.
- WorkerPools.WorkerPool.Resume: what a handler calls after its first await is represented by further calls from outside, not by the job.
- A handler that awaits `shutdown` of its own queue: consumer and shutdown then wait for each other; nothing is claimed about that run ending.
- Retries.ExecuteWithRetry: delays are exact real numbers; rounding of floating-point products and overflow of the power are not represented.
- Retries.ExecuteWithRetry: the default options (5 attempts, 1000 ms, jitter 0.2) are not represented; the options are parameters.
- RetryingQueues: the source queue has no consumer but this processor; other publishers to the dead-letter queue and its own consumers are included. The time stamps and the serialized error in a letter are not.
- RedisClients: all locks of one server use one key prefix, and all claim stores one.
- Locks: clock drift between client and server, replication and failover of Redis, deletes by administrators, and leases that were not returned by acquire; tokens of different acquisitions are taken to differ, as random UUIDs do.
- ClaimKeys: consumer and message ids are strings; JavaScript's conversion of other values is not represented.
- ReplicationSimulations: the array of replica ids is taken to stay as it was passed, though the original keeps the caller's array; a replica's map and queue are one entry of one map here.
- Copies handed out by `structuredClone`: records are values here, so that a caller cannot change stored ones holds by construction.
- Leader election, the two-replica partition simulation, the unsafe reservation, the analytics consumer, access control, observability and the messaging-semantics scenarios: short or scripted code beside the protocols above.
