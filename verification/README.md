# Verification of the job, outbox, broker and worker protocol

The system takes jobs over HTTP, stores each with an outbox row in one PostgreSQL transaction, and moves it through
RabbitMQ: dispatchers claim outbox rows and publish them to the main queue, workers claim jobs with a conditional
`UPDATE`, process them, and complete, retry or dead-letter them. A dead-lettered job can be replayed. There are no
locks across steps: safety comes from row-level conditional updates, from the order write, publish, acknowledge, and
from two staleness thresholds (60 s for a PROCESSING job, 30 s for a claimed outbox row).

This project models that protocol, the admission control in front of it, the migration runner and the connection
cache, and proves what they keep over every run.

## How the model is built

- `Rows` has the two tables' rows and the effect of every conditional update on one row; `Protocol` has the whole
  system as one machine. Each SQL statement, publish, acknowledgement and requeue is one atomic step on a shared clock.
  Any number of workers and dispatchers interleave freely. Next to each row stands a log that no step reads; the logs
  let properties speak about the past (stale reclaims, spent attempts, abandoned claims, copies put into the queue).
- `Statements` says, in columns and literal thresholds, what each SQL statement, publish and crash does, apart from the
  functions that the machine is built from, and proves that the machine does just that.
- Faults are steps: a statement throws before it commits, or commits and its answer is lost; a publish throws with
  or without the message buffered; a worker or dispatcher stops at any point, its memory gone and its message back in
  the main queue; messages appear out of nowhere, in any number and order.
- `Worlds`, `Consumers`, `Dispatching` and `Routes` hold the code that the processes run, as methods on objects that
  change state in place. Between any two steps of such a method arbitrary steps of others may happen. Each method is
  proved to take only steps of the protocol, so whatever is proved about all runs holds for it.
- `Accounting`, `Delivery`, `Stranding`, `Leases`, `Ages`, `OutboxSafety`, `Quiescence` and `Backpressure` are the theorems
  about all runs. `RateLimiting`, `Migrations`, `Connections` and `Backoff` stand alone.

`dafny verify dfyconfig.toml` checks everything.

## Main results

1. A job's lifetime claims never exceed `max_attempts * (replay_count + 1)` plus its stale reclaims, zombies and
   duplicates included; the excess is known exactly (`Accounting.LifetimeAttemptBound`). It rests on every claim
   having its own (cycle, attempt) pair that is spent on at most one retry mark.
2. No QUEUED or RETRYING job is ever without a way to its next delivery (`Delivery.NoWaitingJobIsLost`).
3. A PROCESSING job loses its last support by exactly one kind of step, and regains it by exactly four
   (`Stranding.StrandedExactlyByRefusal`, `Stranding.StrandedUntilRevived`).
4. From every reachable state, whatever zombies and crashes left behind, every schedule without faults in which nobody
   is over a lease is finite. It ends with nothing pending, every job COMPLETED, DEAD_LETTERED or stranded, and every
   live one COMPLETED or DEAD_LETTERED (`Quiescence.SystemSettles`, `Quiescence.RestIsReachable`).
5. Exclusive leases job by job and row by row, replay and outbox conservation, the publish bound, the token bucket's window bound and its
   refinement of an eager bucket, the backpressure bound with a matching lower bound, composing migration runs, and a
   connection cache that never mixes attempts.

## Where the code does not do what its documentation says

- `docs/architecture.md:124-131` says the stale reclaim keeps a crash between claim and terminal write from
  orphaning the job. A redelivery inside the 60 s window is refused and acknowledged (consumer.ts:138-152), and then
  nothing is left that could reclaim the job. `Stranding.StrandingIsReachable` is such a run from the empty system;
  `StrandedExactlyByRefusal` is the exact condition, for all states, under which a step strands a job.
- `apps/worker/src/queue/connection.ts:29-34` means an intentional close to suppress its own events only. The flag is
  cleared by nothing but the start of a new attempt, so a cached attempt's events are ignored if and only if some
  `closeConnection` call began after the last attempt began (`Connections.DeafExactlyAfterClose`). A call that throws
  leaves the cache so (`Connections.DeafIsReachable`), and so does one that completes while an attempt connects
  (`Connections.DeafAfterCompletedClose`). From then on no loss is reported, until a later `closeConnection` completes
  (`Connections.DeafUntilClosed`). Every caller gets the same channel meanwhile, unless an attempt that was already under
  way is stored in its place, equally unwatched (`Connections.SameChannelUntilClosed`).
- `docs/failure-handling.md:55` lists jobs already COMPLETED, FAILED or DEAD_LETTERED as skipped and acknowledged; the
  code also acknowledges a job that is PROCESSING and not stale.

## Assumptions

- A publish that returns normally has put a durable message into its queue (the code uses no publisher confirms), and
  the broker loses no message it has.
- The database clock never goes backwards; `max_attempts >= 1` (the column defaults to 5); job and outbox rows are
  never deleted.
- A channel that is lost while a handler runs counts as a crash of that handler.
- A retry message may return to the main queue at any time after it was published.
- Migration files do not change between runs, and their names are compared character by character.
- Limiter arithmetic is exact: a token is counted as `windowMs` integer units, so one millisecond refills `capacity`.

## Model

| member | source | states |
|---|---|---|
| Protocol.StepWellFormed | infra/migrations/003_phase10_outbox_table.sql:7-15 | no step, fault or not, leaves an outbox row, worker or dispatcher referring to a job or row that does not exist |
| Protocol.WorkerStep | apps/worker/src/consumer.ts:95-257 | a handler's step changes its own phase, at most job cells and the queues; never the outbox, another worker or the clock |
| Protocol.DispatcherStep | apps/api/src/outbox/dispatcher.ts:26-58 | a dispatcher's step changes its own batch, outbox rows and the main queue; never a job, a worker or the retry and dead-letter queues |
| Protocol.TicketOrigin | apps/worker/src/consumer.ts:131-182 | a worker acts on a claim snapshot only if its own claim returned it, and drops it when it records |
| Accounting.StepInv | apps/worker/src/services/jobService.ts:30-118 | every step keeps: each held claim is live, unspent and unlike every other one, and each job's counters are explained by its log |
| Accounting.FreshTicket | apps/worker/src/services/jobService.ts:30-46 | a claim that wins is an attempt of its cycle that nobody holds and that no retry mark was spent on |
| Accounting.TicketKept | apps/worker/src/services/jobService.ts:30-118 | no step but its own holder's spends or invalidates a held claim: other workers, dispatchers, creations, replays and faults included |
| Accounting.RecordCellOk | apps/worker/src/services/jobService.ts:48-118 | recording an outcome adds one to completions, retry marks or dead-letter marks, as the mark says, if the row was PROCESSING and the statement committed, and to abandoned claims otherwise; the other counts stay |
| Accounting.SpentWithinBudget | apps/worker/src/consumer.ts:218-244 | at most `max_attempts - 1` retry marks in every replay cycle, and that many times the number of cycles in all |
| Accounting.LifetimeAttemptBound | apps/worker/src/services/jobService.ts:30-46 | in every reachable state total_attempt_count is at most max_attempts * (replay_count + 1) + stale reclaims, and equals replays + 1 + retry marks + stale reclaims less a claim still to come |
| Accounting.EveryClaimAccountedFor | apps/worker/src/consumer.ts:131-253 | total_attempt_count = completions + retry marks + dead-letter marks + held claims + abandoned claims; processJob never runs more often, however many duplicates arrive |
| Accounting.ReplayConservation | apps/api/src/services/jobService.ts:108-132 | dead-letterings = replays + (1 if DEAD_LETTERED now), outbox rows = replays + 1, dead-letterings = DLQ messages + those about to be published + those lost with a reply, a crash or a publish, and a dead-lettering stays on record |
| Accounting.CompletedIsFinal | apps/worker/src/services/jobService.ts:30-62 | a COMPLETED row never changes again, over any run |
| Statements.CrashedHolderIsReclaimed | apps/worker/src/services/jobService.ts:37-41 | a holder crashes, on any attempt, and its message is delivered again: the claim is won as the next attempt if the row is more than 60 s old, and else refused, acknowledged and the row left alone |
| Statements.ClaimStatement | apps/worker/src/services/jobService.ts:30-46 | a claim changes exactly the columns of a matching row and returns its new values as the snapshot |
| Statements.MarkStatement | apps/worker/src/services/jobService.ts:48-118 | a mark changes exactly the columns that its outcome calls for, of a PROCESSING row only |
| Statements.CreateStatement | apps/api/src/services/jobService.ts:30-48 | a creation appends one job row and one outbox row with the column defaults |
| Statements.ReplayStatement | apps/api/src/services/jobService.ts:108-132 | a replay changes exactly five columns of a DEAD_LETTERED row, keeps its dead-letter history, and appends one outbox row |
| Statements.LeaseStatement | apps/api/src/outbox/outboxService.ts:34-50 | a batch is at most ten unpublished rows that are free or claimed more than 30 s ago, and only their claimed_at changes |
| Statements.ConfirmStatement | apps/api/src/outbox/outboxService.ts:52-54 | marking published sets published_at of one row |
| Statements.FailStatement | apps/api/src/outbox/outboxService.ts:60-67 | marking failed frees one row, counts an attempt and keeps the error |
| Statements.DispatchStatement | apps/api/src/queue/publisher.ts:3-16 | a publish enqueues exactly one message for the row's job, unless it throws with nothing buffered |
| Statements.PublishStatement | apps/worker/src/queue/retryPublisher.ts:3-32 | a worker's publish goes to the retry queue or to the dead-letter queue, once, unless it throws with nothing buffered |
| Statements.AnyWorkerAnyOutcome | apps/worker/src/consumer.ts:97-254 | no fault of a worker is ruled out: it can crash wherever it is, and each of its calls can end in every way |
| Statements.AnyDispatcherAnyReply | apps/api/src/outbox/dispatcher.ts:26-58 | nor of a dispatcher, which can claim any batch that the statement could select |
| Delivery.WorkerRow | apps/worker/src/services/jobService.ts:30-118 | a job row changes under a worker only through that worker's claim of a claimable row or its mark of a PROCESSING row |
| Delivery.NothingLostStep | apps/worker/src/consumer.ts:131-253 | every step keeps a carrier for every QUEUED or RETRYING job |
| Delivery.NoWaitingJobIsLost | apps/worker/src/consumer.ts:131-253 | a QUEUED or RETRYING job always has a never-sent unpublished outbox row, a message in main or retry, or a worker that will claim with, requeue or republish its message |
| Delivery.MessagesConserved | apps/worker/src/consumer.ts:97-254 | a message in the main queue or with a worker goes for good only by an acknowledgement; deliveries, requeues and crashes keep every copy |
| Stranding.StrandedExactlyByRefusal | apps/worker/src/consumer.ts:138-152 | a step leaves a PROCESSING job without holder and message if and only if it is the refused claim, inside the 60 s window, of the job's last message |
| Stranding.StrandedUntilRevived | apps/worker/src/services/jobService.ts:37-41 | a stranded job keeps its row and stays stranded exactly until an outbox publish, a returned message, a failed DLQ publish's requeue or an injected message names it |
| Stranding.StrandedRun | apps/worker/src/consumer.ts:138-152 | a run that ends with a job stranded contains the refused claim of its last message |
| Stranding.HealthyRunsHold | apps/worker/src/consumer.ts:131-253 | while no holder crashes and no statement of a worker fails, every PROCESSING job has a live holder |
| Stranding.CrashAndRefuse | apps/worker/src/consumer.ts:138-152 | whenever a holder is all its job has, its crash and a redelivery inside the window strand the job |
| Stranding.StrandingIsReachable | apps/worker/src/consumer.ts:138-152 | for every max_attempts a run from the empty system leads to a stranded job, so PROCESSING is not always recovered |
| Leases.HeldNotClaimable | apps/worker/src/retry/claimPolicy.ts:1-9 | a job whose holders are within 60 s of their claims cannot be claimed |
| Leases.JobLeaseStep | apps/worker/src/services/jobService.ts:30-95 | while the holders of one job are timely every step, by anyone, keeps it at one holder, its snapshot current, and its attempts within budget |
| Leases.RowLeaseStep | apps/api/src/outbox/outboxService.ts:34-67 | while the dispatchers that have one row are timely every step, by anyone, keeps it in one batch, once, and leased |
| Leases.HoldersAreExclusive | apps/worker/src/services/jobService.ts:30-95 | if the holders of a job record within 60 s, whatever other jobs' holders and the dispatchers do, at most one worker holds it, the snapshot is the row's attempt, RETRYING implies attempts left, and attempts exceed the limit by stale reclaims of the cycle only |
| Leases.BatchesAreDisjoint | apps/api/src/outbox/outboxService.ts:34-50 | if the dispatchers that have an outbox row finish within 30 s, whatever others do, it is in at most one batch, and there once |
| Leases.SnapshotDecidesForRow | apps/worker/src/consumer.ts:218-244 | if the holders of a job record within 60 s, a worker's choice from its snapshot is the right one for the row: COMPLETED on success, RETRYING if retryable with attempts left, DEAD_LETTERED otherwise |
| Ages.AgedStep | apps/worker/src/services/jobService.ts:30-46 | every step, inside the leases or not, keeps a PROCESSING row updated no earlier than any claim of it still held, and a batched row free or claimed no earlier than its batch |
| Ages.StaleNotHeld | apps/worker/src/retry/claimPolicy.ts:1-9 | so a row that is stale enough to be reclaimed has no timely holder |
| OutboxSafety.OutboxStep | apps/api/src/outbox/outboxService.ts:34-67 | every step of any number of dispatchers keeps each row's enqueues within its claims, and sends before it marks |
| OutboxSafety.PublishBound | apps/api/src/outbox/dispatcher.ts:26-58 | a published row was enqueued, and a row is enqueued at most 1 + recorded failures + stale reclaims times |
| OutboxSafety.PublishedIsFinal | apps/api/src/outbox/outboxService.ts:52-67 | a row never disappears, changes its job or loses published_at |
| Quiescence.CalmStepDecreases | apps/worker/src/consumer.ts:95-257 | in every state with the invariants of reachable states in which nobody is over a lease, every fault-free step but the passing of time lowers an explicit measure |
| Quiescence.CalmRunsAreFinite | apps/worker/src/consumer.ts:95-257 | such a run does at most as many steps as the measure of its first state, whatever the backlog, duplicates and past zombies |
| Quiescence.ReachableSound | apps/worker/src/consumer.ts:95-257 | every reachable state has those invariants |
| Quiescence.PendingWorkProceeds | apps/api/src/outbox/outboxService.ts:34-50 | while anything is pending some step is possible, at worst after a claim goes stale |
| Quiescence.RestIsReachable | apps/api/src/outbox/dispatcher.ts:26-58 | from every reachable state in which nobody is over a lease a fault-free run ends with nothing pending |
| Quiescence.SystemSettles | apps/worker/src/services/jobService.ts:30-118 | from every reachable state every fault-free schedule inside the leases is bounded, and where it cannot go on the queues are empty, all rows published, every job is COMPLETED, DEAD_LETTERED or stranded, and none is stranded that was waiting or held at the start |
| Worlds.World.Await | apps/worker/src/consumer.ts:95-257 | what others do while a process waits is a run of the protocol that leaves the process's own memory alone and adds no step of its own |
| Worlds.World.CreateJob | apps/api/src/services/jobService.ts:30-48 | a QUEUED row with all counters 0 and a free, unpublished outbox row for it, both of this moment, appear together or not at all, and nothing else changes, wherever the transaction fails; a lost commit answer throws with both written |
| Worlds.World.ClaimReplay | apps/api/src/services/jobService.ts:108-132 | answers the requeued row exactly if the job was DEAD_LETTERED: attempts 0, one more replay, no error, and a new outbox row; throws exactly if a statement that is reached or the commit fails, and before the commit changes nothing |
| Worlds.World.ClaimJob | apps/worker/src/services/jobService.ts:30-46 | claims exactly a row that is QUEUED, RETRYING or PROCESSING and not updated for more than 60 s, with one more attempt in both counters, and answers it as claimed; none if there is no such row; an error that is a syntax error exactly for a malformed id |
| Worlds.World.MarkJob | apps/worker/src/services/jobService.ts:48-118 | writes what the outcome calls for, column by column, exactly if the row is PROCESSING: COMPLETED clears the error, RETRYING sets it, DEAD_LETTERED sets error, reason and time; answers exactly if the row matched and the answer arrived |
| Worlds.World.PublishFailure | apps/worker/src/queue/retryPublisher.ts:3-32 | puts the job into the retry or the dead-letter queue unless the publish throws with nothing buffered; throws exactly if the publish does, and then leaves the worker to requeue |
| Consumers.Consumer.BackoffBeforeRequeue | apps/worker/src/consumer.ts:61-69 | counts one more consecutive error and sleeps the delay for that count |
| Consumers.Consumer.RecordOutcome | apps/worker/src/consumer.ts:202-252 | a success is marked and publishes nothing; a failure is marked before anything is published, and goes to the dead-letter queue exactly if it is not retryable or the claimed row's attempts are used up; throws exactly if the mark or the publish does |
| Consumers.Consumer.ProcessAndRecord | apps/worker/src/consumer.ts:174-253 | from a won claim on, the handler's own steps are process, mark, publish if called for, and one settlement: the acknowledgement exactly if all went through, else one base delay and the requeue |
| Consumers.Consumer.HandleDelivery | apps/worker/src/consumer.ts:97-254 | whatever happens at each await the handler is a run of the protocol whose own steps are listed exactly: claim, work if the claim was won, and one ack or requeue at the end; requeue if the claim throws or the outcome is not recorded and published, ack otherwise; the error count resets with each claim that does not throw |
| Consumers.Consumer.SufferOutage | apps/worker/src/consumer.ts:61-69 | k deliveries in a row whose claims throw, for any messages, lost answers and interference, sleep the next k delays: 31000 + 30000 * (k - 5) ms from a count of zero if k >= 5; undisturbed, they change no shared state |
| Consumers.Consumer.ResubscribeWithBackoff | apps/worker/src/consumer.ts:277-297 | the doubling and clamping loop sleeps exactly computeDbErrorBackoffMs(1), (2), ... until subscribing succeeds, and does nothing if a loop is already running |
| Backoff.OutageThrottle | apps/worker/src/consumer.ts:45-47 | k >= 5 consecutive delays add up to 31000 + 30000 * (k - 5) ms |
| Backoff.DoubleAndClamp | apps/worker/src/consumer.ts:289-291 | doubling a clamped delay and clamping again equals clamping the doubled delay |
| Backoff.ErrorSchedule | apps/worker/src/consumer.ts:33-47 | 1, 2, 4, 8 and 16 s, and 30 s from the sixth consecutive error on |
| Backoff.RetrySchedule | apps/worker/src/retry/retryPolicy.ts:1-10 | retry delays are 2, 4, 8, 16 s for attempts 1 to 4 and 20 s from then on |
| Dispatching.SelectOldest | apps/api/src/outbox/outboxService.ts:36-46 | the selected rows are eligible and distinct, at most n, none left out is older, and fewer than n only if no other is eligible |
| Dispatching.ClaimPendingOutboxEvents | apps/api/src/outbox/outboxService.ts:34-50 | claims exactly such a selection as a whole in one step, or nothing if the statement throws before it commits; a lost answer leaves the rows claimed with no dispatcher |
| Dispatching.HandleRow | apps/api/src/outbox/dispatcher.ts:31-55 | the dispatcher's own steps for a row are publish, mark published, and on any error mark failed; it throws exactly if that last mark does; with nobody acting meanwhile exactly this row changes, to published or to free with one more attempt |
| Dispatching.DispatchOutboxBatch | apps/api/src/outbox/dispatcher.ts:26-58 | for any interleaving: own steps are the claim and then publish, mark published or mark failed row by row; every row counted as published is, and the tally is exact; it throws exactly if the claim or a failure record does; with working statements and nobody acting meanwhile the sent rows are published, the failed ones free, and no other row changed |
| Dispatching.BatchDrains | apps/api/src/outbox/dispatcher.ts:26-58 | the pending rows drop by exactly the published ones, publish failures or not |
| Dispatching.FullBatch | apps/api/src/outbox/outboxService.ts:34-50 | a failure-free batch handles ten rows, or all that are left |
| Dispatching.DrainOutbox | apps/api/src/outbox/dispatcher.ts:60-63 | k ticks over N eligible rows leave max(0, N - 10k) pending, and no remaining row is older than a published one |
| Backpressure.BackpressureBound | apps/api/src/middleware/backpressure.ts:42-60 | with at most C requests between check and commit, unpublished rows of POST /api/jobs never exceed threshold + C, for every interleaving with dispatches and replays |
| Backpressure.BackpressureBoundIsTight | apps/api/src/middleware/backpressure.ts:42-60 | for every threshold and C some run reaches threshold + C |
| Routes.PostJob | apps/api/src/routes/jobs.ts:34-46 | limiter with its Retry-After, then fresh pending count, then handler, with any other requests checking, committing and giving up in between: 503 exactly above the threshold, 400 exactly for an invalid body, 201 exactly if the transaction commits and answers, with the two new rows, 500 otherwise; 429 and 503 write nothing, the token is spent either way, and the whole interleaving is a run of the gate, so its bound holds afterwards |
| Routes.CreateHandler | apps/api/src/routes/jobs.ts:34-46 | 400 exactly for an invalid body, with nothing written; 201 exactly if the transaction commits and answers |
| Routes.PostReplay | apps/api/src/routes/jobs.ts:82-134 | 200 exactly for a well-formed id of a DEAD_LETTERED job without a fault, whatever the backlog; 400 exactly for a malformed id; 404 or 409 exactly for any other job when nothing that is reached fails, told apart by a later read, with the status it finds |
| RateLimiting.CreateRateLimiter | apps/api/src/middleware/rateLimiter.ts:96-107 | throws unless capacity and window are positive |
| RateLimiting.RateLimiter.GetOrRefillBucket | apps/api/src/middleware/rateLimiter.ts:109-124 | a new client gets a full bucket, a known one its refill since last time, capped; when the clock stands still or has gone back the bucket is left alone |
| RateLimiting.RateLimiter.Handle | apps/api/src/middleware/rateLimiter.ts:126-149 | admits and charges one token exactly if a whole one is there, else answers the derived Retry-After and charges nothing |
| RateLimiting.RateLimiter.HandleAll | apps/api/src/middleware/rateLimiter.ts:126-149 | the middleware object's answers to any sequence of requests are those of the functional limiter that the bounds speak about |
| RateLimiting.WindowBound | apps/api/src/middleware/rateLimiter.ts:106-149 | with a monotone clock, in every interval [s,t] of every run a client gets at most capacity + floor((t-s) * capacity / windowMs) requests |
| RateLimiting.NewClientBurst | apps/api/src/middleware/rateLimiter.ts:109-135 | a new client gets exactly its capacity of requests at one moment, so the bound on bursts is attained |
| RateLimiting.BackwardClockBound | apps/api/src/middleware/rateLimiter.ts:118-122 | however the clock jumps, the bound holds from the bucket's creation to the highest clock value seen |
| RateLimiting.ClientsAreIsolated | apps/api/src/middleware/rateLimiter.ts:107-124 | a client's decisions depend on its own requests alone |
| RateLimiting.LimiterRefinesEagerBuckets | apps/api/src/middleware/rateLimiter.ts:109-135 | refill on request decides exactly as a bucket per client, full from the start and topped up every millisecond |
| RateLimiting.RetryAfterIsExact | apps/api/src/middleware/rateLimiter.ts:137-144 | a rejected client silent for Retry-After seconds is admitted, and one that is a second early is rejected, whatever others do |
| RateLimiting.RetryAfterInEveryRun | apps/api/src/middleware/rateLimiter.ts:137-144 | the same for every rejected request of every run with a monotone clock from an empty limiter |
| Migrations.ListingGrows | apps/api/src/scripts/migrate.ts:88-90 | if new files sort last, the old sorted listing is a prefix of the new one |
| Migrations.BeforeIsSmaller | apps/api/src/scripts/migrate.ts:88-90 | the listing order is lexicographic: a proper prefix first, else by the first differing character |
| Migrations.Database.FindPending | apps/api/src/scripts/migrate.ts:119-122 | the pending files are the listed ones without a ledger row, in order |
| Migrations.Database.ApplyFile | apps/api/src/scripts/migrate.ts:134-147 | a file's statements and its ledger row commit together or not at all |
| Migrations.Database.Migrate | apps/api/src/scripts/migrate.ts:119-150 | one run, stopped anywhere, applies a first part of the pending files; it reports success exactly if no pending file fails on what the ones before it make and it is not stopped at one, and then every listed file is in the ledger |
| Migrations.FinishesExactly | apps/api/src/scripts/migrate.ts:131-150 | a run gets through exactly if no pending file fails on the schema that the files before it make, and it is not stopped at one |
| Migrations.AppliedAtMostOnce | apps/api/src/scripts/migrate.ts:119-148 | over any sequence of runs and listings no file is applied twice, and ledger and schema are those of the applications made |
| Migrations.LedgerIsPrefix | apps/api/src/scripts/migrate.ts:119-148 | when each listing extends the one before, the ledger is always a prefix of the latest listing and the schema the fold of exactly that prefix |
| Migrations.InterruptedRunsCompose | apps/api/src/scripts/migrate.ts:119-148 | once every file is applied, any sequence of interrupted runs has the result of one clean run |
| Migrations.DeploymentsCompose | apps/api/src/scripts/migrate.ts:88-148 | for any sequence of directories whose new files sort last, the same from directories to database: a prefix of the present sorted listing is applied, and once all of it is, the result is that of one clean run |
| Migrations.OrderKeptExactlyWhenLast | apps/api/src/scripts/migrate.ts:88-90 | two complete runs keep the order of one clean run if and only if the second listing extends the first |
| Connections.CacheSafety | apps/worker/src/queue/connection.ts:36-102 | over all interleavings connection and channel are of one attempt or both null, an attempt is reported lost at most once, never after an intentional close found it, and never handed out afterwards |
| Connections.WhoChangesWhat | apps/worker/src/queue/connection.ts:36-102 | only a stored attempt fills the cache, only a heard failure or a completed close empties it, only the start of a close or of an attempt moves the flag, and only a heard failure is reported |
| Connections.EventsActOnTheirOwnAttempt | apps/worker/src/queue/connection.ts:50-57 | an event acts if and only if the cache holds its own attempt and no close is intended, and then empties the cache; otherwise nothing changes |
| Connections.DeafExactlyAfterClose | apps/worker/src/queue/connection.ts:36-57 | over all interleavings a cached attempt's events are ignored if and only if a closeConnection call began and no attempt has begun since |
| Connections.DeafUntilClosed | apps/worker/src/queue/connection.ts:96-102 | a cached channel with the closing flag set: no loss is reported, and callers get it or an attempt stored since, exactly until a closeConnection call completes |
| Connections.SameChannelUntilClosed | apps/worker/src/queue/connection.ts:36-39 | unless an attempt is stored or a close completes, every caller gets the very same channel |
| Connections.NothingToStore | apps/worker/src/queue/connection.ts:36-39 | with no attempt under way none can be stored, so the channel stays the same until a close completes |
| Connections.DeafIsReachable | apps/worker/src/queue/connection.ts:96-102 | a closeConnection call that throws leads there, with no close pending and none completed |
| Connections.DeafAfterCompletedClose | apps/worker/src/queue/connection.ts:36-102 | so does a close that begins and completes while an attempt connects, with nothing throwing |
| Connections.ConnectionCache.GetChannel | apps/api/src/queue/connection.ts:30-70 | whatever happens while it connects, a channel that is returned is the cached one, with its own connection, and was never reported lost; undisturbed, a failed attempt leaves the cache empty, and either way the closing flag is clear |
| Connections.ConnectionCache.CloseConnection | apps/api/src/queue/connection.ts:80-86 | a close that completes empties the cache; the attempt it found is never reported lost, and unless another close completes meanwhile nothing is; one that throws then leaves a channel cached and unwatched, the same one if none was stored |

## Left out

- PostgreSQL, RabbitMQ and the network themselves: SQL parsing, pools and lock queues are replaced by atomic steps; SKIP LOCKED by the choice of any eligible rows in the machine.
- Publisher confirms, loss of messages inside the broker, and a handler that outlives its channel: the code does not defend against these, and `Delivery.NoWaitingJobIsLost` is false with them.
- Quiescence.SystemSettles: assumes that holders record within 60 s and dispatchers finish a batch within 30 s, because the code gives no bound otherwise, but only during the run in question; a job that is PROCESSING without a holder at the start may end stranded.
- Retry TTLs in the machine: a retry message may return at any time, because RabbitMQ expires messages only at the head of a queue; the delays themselves are in `Backoff`.
- A JSON `null` message: destructuring it throws outside every try block and the message stays unacknowledged; in the model this is the crash step.
- `markFailed` and the FAILED status: nothing calls it.
- `updated_at` clock resolution, UUIDs and text encodings: times are whole milliseconds and ids are indices.
- Job payloads and `processJob`: its result is nondeterministic (success, retryable or non-retryable failure).
- The dashboard, the WebSocket broadcaster, the change poller, the read-only routes and the other fields of the statistics: they change nothing.
- Authentication, CORS, trust proxy, environment parsing, schemas, logging and the health checks.
- Test-only hooks (`CLAIM_TEST_SYNC_EPOCH_MS`, `REPLAY_TEST_DELAY_MS`, `X-Test-Client-Id`), load tests, verify scripts and Docker files.
- Floating-point rounding in the limiter: tokens are exact scaled integers, so an admission that hangs on the last bit may differ.
- Consumers.Consumer.SufferOutage: the lower bound is on the time slept before requeues; time spent elsewhere comes on top.
- Consumers.Consumer.ResubscribeWithBackoff: ends after a given number of failures, because the source's loop ends only when subscribing succeeds.
- Migrations.Database.Migrate: the advisory lock is not modelled, runs are one after the other, which is what the lock enforces.
