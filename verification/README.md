# Webhook delivery engine: a verified model

A Dafny model of the at-least-once webhook delivery protocol: one delivery row written by any number
of workers, a reconciler, a DLQ handler and an API, which coordinate only through short SQL
transactions, a Redis lease with expiry and a job queue that dedupes by id. The audit invariants I1 to
I5 (`scripts/invariants.sql`) are stated over every interleaving. Where a promise does not hold by
itself, the condition under which it does is stated: an if-and-only-if for delivery at most once, for a
settled DELIVERING row, for being stranded, for a connected log, for a conserving bucket, for a lossless
walk and for a shared cache key. The disciplines that imply these conditions (`Once.Leased`,
`Recovery.Recoverable`, `Timed.Punctual`) are sufficient, and for each rule of the first two there is a
run that keeps all its other rules and breaks the promise (`Counterexamples.dfy`); in these runs the API
enqueues the delivery once.

`dafny verify dfyconfig.toml` checks everything.

## How it is organised

- `Rows.dfy`: one row of `deliveries` with its attempt and transition logs. Each transaction is a
  function on values and a method of `DeliveryStore` that performs its statements in order.
- `Protocol.dfy`: the step system. One step is one `await` of `processDelivery`, of the queue's reaction
  or of the DLQ handler, or an environment step: time, lease expiry, Redis wipe, stall, crash,
  infrastructure error, lost or late add. A run is any sequence of steps; a step that is not enabled
  changes nothing, so a lemma about all runs is about all interleavings. `Steps.dfy`: what single
  steps do, for putting runs together.
- `Fencing.dfy`, `Once.dfy`, `AuditPath.dfy`, `Recovery.dfy`, `Budget.dfy`, `Timed.dfy`, `History.dfy`: the
  theorems about runs; the last says what each column tells about the run behind it. `Counterexamples.dfy`: runs that keep every rule but one and break a promise.
- `Lease.dfy`, `Bucket.dfy`, `Breaker.dfy`: the Redis objects, each as a machine with one Redis command
  per step and as a class.
- `Processor.dfy`: `processDelivery` and `handleFailed` as code over those classes, the proof that a
  worker left alone in the step system does what that code does to the row and to its job, and a job's
  budget.
- `Ingest.dfy`, `Paging.dfy`, `Reconciler.dfy`, `Memo.dfy`, `Backoff.dfy`: the remaining components.
  `Arith.dfy`: three facts about products and quotients.

Assumptions about what is not modelled: a transaction is one atomic step, stamped with that step's time,
and a unique violation aborts all of it; `queue.add` with an id still present is a no-op; a Delayed throw consumes no attempt and any
other throw consumes one; only a job handed to a worker can stall, it is put back `maxStalledCount` times
(`src/worker/index.ts:23`) and then fails with its attempts unspent; failed jobs keep their id
(`src/queue/queues.ts:23`); only the worker a job was last handed to can finish it, and finishing a job
that a wipe removed has no effect. An operation that throws has had no effect. The HTTP result, random tokens, jitter draws and the clock are
parameters.

## Where the code and its documentation differ

The model follows the code.

- A failed lock acquisition defers the job; ARCHITECTURE.md says it returns.
- Ingest does a GET and a SET after commit; ARCHITECTURE.md says SETNX.
- The breaker-open path writes PENDING, FAILED or DELIVERING to FAILED directly, and a worker that
  finds DELIVERING after a crash writes DELIVERING again; SCHEMA.md section 1.6 lists none of these.
- A probe that ends in LOCK_LOST re-opens the breaker, although the comment above that code says
  LOCK_LOST never touches it (`Processor.LostLockReopensProbeOnly`).
- The token bucket does not correct itself after an early expiry: HINCRBY starts a missing key at
  zero, so one release leaves a bucket of one (`Bucket.ReleaseAfterExpiryShrinks`).
- The cursor keeps milliseconds of a microsecond timestamp, and a walk can lose a row
  (`Paging.MicrosecondWalkLosesRow`). `updated_at` is the start of the writing transaction, so it can fall,
  and then a walk can repeat a row (`Paging.FallenStampRepeats`).
- A client id containing ':' can read another client's cached event (`Ingest.ClashLeaks`).
- `transition()` guards neither status nor lease. A lost lease can therefore deliver twice
  (`Counterexamples.DeliversTwiceWithoutLease`), the DLQ handler can bury a delivered row
  (`Counterexamples.HandlerBuriesDelivered`), and holding the lease at every DELIVERING write does not
  keep a delivery from being stuck in DELIVERING (`Counterexamples.LeasedWriteStrands`).
- A job that stalls too often, a DLQ write that fails, or a manual retry whose add is lost leaves a
  delivery no sweep can recover, because the failed job keeps its id (`Counterexamples.StallStrands`,
  `Counterexamples.FailedBurialStrands`, `Counterexamples.LostRetryStrands`).
- `finally` gives the bucket token back before it releases the lock, so an error there leaves the lock
  to its TTL (`Processor.ProcessDelivery`).
- A call that dies between COMMIT and its answer leaves an event no call is told is_new for
  (`Ingest.ExactlyOneIsNew`).

## Model

| member | source | states |
|---|---|---|
| Rows.OpKeepsRow | src/db/attempts.repo.ts:27-59 | any transaction whose number is at most attempt_count + 1 keeps the numbers 1..attempt_count in order, the transition log's reports equal to the image of the attempt log, the last transition equal to the status, and each manual retry right behind a row into DLQ |
| Rows.FreeIsNext | migrations/20260615000000_initial-schema.ts:73 | with consecutive numbers the unique constraint admits exactly attempt_count + 1 |
| Rows.RecordStores | src/worker/processor.ts:211-230 | recording the next number stores the outcome, DELIVERED and no retry time for a SUCCESS, FAILED and the caller's retry time for anything else, all stamped with the time of the write |
| Rows.DeliveryStore.constructor | src/db/ingest.ts:77-91 | the inserted row is PENDING with the log NULL to PENDING and satisfies the row invariant |
| Rows.DeliveryStore.WriteTransition | src/db/deliveries.repo.ts:243-261 | status and stamp change to the given ones and one log row is appended, whatever the current status was; every other column stays |
| Rows.DeliveryStore.RecordAttempt | src/db/attempts.repo.ts:27-59 | commits exactly when the number is free, then stores attempt, count, status, the given retry time, stamp and log row together; otherwise changes nothing |
| Rows.DeliveryStore.RetryFromDlq | src/db/deliveries.repo.ts:367-391 | succeeds exactly in DLQ, and otherwise changes nothing |
| Rows.DeliveryStore.MarkEnqueued | src/queue/enqueue.ts:6-9 | only the flag and the stamp change |
| Fencing.Reachable | src/worker/processor.ts:62-69 | on every run, with any crash, wipe or lease loss, the row invariant holds, every in-flight number lies in 1..attempt_count + 1, and every in-flight worker has its attempt_n row in the log |
| Fencing.AttemptsExtend | src/db/attempts.repo.ts:29-51 | continuing a run only appends to both logs, and the numbers stay 1..attempt_count across manual retries |
| Fencing.AuditQueriesEmpty | scripts/invariants.sql:16-40 | audit queries I2, I3 and I5 are empty in every reachable state |
| Fencing.RetryAtMostOncePerEntry | src/db/deliveries.repo.ts:367-391 | manual retries never outnumber entries into DLQ, so concurrent retries succeed at most once per entry |
| History.RetryTimeIsLast | src/db/attempts.repo.ts:44-51 | on every run next_attempt_at is the retry time passed to the last committed record, or none if that was a SUCCESS or there was no record |
| History.StampIsLastWrite | src/db/deliveries.repo.ts:250-254 | on every run updated_at is the time of the last step that logged a transition or set the flag |
| History.EnqueuedIffFlagged | src/queue/enqueue.ts:4-10 | on every run enqueued is true if and only if some enqueue or claiming sweep got as far as its update |
| History.SweepWaits | src/db/deliveries.repo.ts:285-299 | on every run a sweep claims a delivery only in PENDING or FAILED, a grace period after its last write, and in FAILED after the retry time of its last record |
| History.SweepClaimsDue | src/db/deliveries.repo.ts:285-307 | and a sweep at such a moment does flag it and leaves a job under its id |
| History.SuccessWasAnswered | src/worker/processor.ts:173-182 | on every run a SUCCESS attempt or a DELIVERED row means that some call was answered with a status from 200 to 299 |
| History.FailedJobStays | src/queue/queues.ts:23 | a failed job keeps its id on every continuation without a Redis wipe |
| History.RetryOnlyFromDlq | src/api/routes/dlq.ts:36-47 | a manual retry outside DLQ changes nothing; in DLQ it makes the row PENDING, keeps its attempts and adds a job under a new kind of id |
| History.ThrowConsumesAttempt | src/worker/processor.ts:235-247 | an infrastructure error under the lock records no attempt, gives the lock back and consumes one attempt of the job, the last one moving the delivery to DLQ |
| History.HandlerBuriesOnce | src/worker/dlqHandler.ts:35-41 | a handler alone moves the delivery to DLQ from the status it read, and writes nothing if it is there already |
| Once.OnceIffNeverOverwritten | src/db/deliveries.repo.ts:250-254 | a run has throughout at most one SUCCESS, at most one row into DELIVERED (audit query I1) and DELIVERED never overwritten, if and only if no DELIVERING or DLQ write is issued after a SUCCESS |
| Once.LeasedRunsDeliverOnce | src/worker/processor.ts:56-230 | if the token is in the lock at each DELIVERING write and each SUCCESS record, and the handler writes only after a recorded failure, every run delivers once, stale LOCK_LOST and CIRCUIT_OPEN records included |
| Once.TokensReachable | src/redis/lock.ts:22-26 | on every run the lock and the workers behind it hold distinct tokens that were drawn |
| Timed.PunctualRunsHold | src/worker/heartbeat.ts:22-35 | on every run in which the key expires only after its TTL, Redis is not wiped while the lock is held and no worker lets more time pass than its phase allows, every worker between acquire and record has its token in the lock, if pre-call time, post-call time, interval and tick delay together are below the TTL |
| Timed.PunctualRunsDeliverOnce | src/worker/processor.ts:40-230 | such a run, with the DLQ handler writing only after a recorded failure, delivers at most once: any number of workers, calls of any length, crashes and re-added jobs included |
| Timed.PunctualRunsAreCurrent | src/worker/processor.ts:69-128 | on such a run every worker in its section carries the next number, so no DELIVERING write is stale |
| Timed.PunctualRunsSettle | scripts/invariants.sql:29-32 | if also no worker dies between its DELIVERING write and its record, every DELIVERING row has a worker bound to settle it |
| Budget.AttemptsWithinBudget | src/queue/queues.ts:16-18 | on every run, faults included, attempt_count is at most BACKOFF_BASE_MS.length (or one, if that is zero) per added job plus one per recovered stall, and recovered stalls are at most maxStalledCount per added job |
| Budget.UsedUpMeansIdle | src/worker/index.ts:18-30 | once attempt_count reaches that bound no worker can record any more and no job waits to be picked up |
| AuditPath.ConnectedIffCurrent | src/db/deliveries.repo.ts:251-259 | the transition log is connected if and only if every writer passed the status its update replaced |
| AuditPath.ViewsReachable | src/worker/processor.ts:77-128 | on every run a worker's from_status is what the log said when it last read or wrote it |
| AuditPath.ExclusiveRunsArePaths | src/worker/processor.ts:77-230 | if nobody writes between a worker's read and its writes and the handler follows its recorded failure in one piece, the log is a path from NULL to PENDING along the code's edges and DELIVERED has no outgoing edge |
| Recovery.SettlerIffAnnounced | scripts/invariants.sql:29-32 | when no worker dies between its DELIVERING write and its record, a worker whose record cannot abort is in flight if and only if the log has the attempt row numbered attempt_count + 1 |
| Recovery.SettledIffNumbersCurrent | src/worker/processor.ts:69-128 | when no worker dies there, every DELIVERING row of the run has a worker bound to settle it if and only if every DELIVERING write carried the next number or found that number announced already |
| Recovery.SettlerSettles | src/worker/processor.ts:164-230 | whatever its call returns, such a worker's record takes the row to DELIVERED or FAILED |
| Recovery.NoDeliveryStranded | src/db/deliveries.repo.ts:263-311 | under the rules of Recoverable (the handler completes, a manual retry adds a new id, no job fails by stalling, no worker dies mid-call, DELIVERING writes are current, no worker writes over a terminal status) every non-terminal delivery has a live job nobody is about to complete, a DLQ handler about to bury it, a worker bound to settle it, or a free job id and a live job from the first sweep after grace and retry time |
| Recovery.StrandedIff | src/db/deliveries.repo.ts:285-299 | a non-terminal delivery nobody works on stays without a live job after any later sweep if and only if no job is live and it is DELIVERING or its own job id is still taken |
| Recovery.StrandedStays | src/db/deliveries.repo.ts:283-302 | no continuation made of time, expiries, sweeps, stalls and polling workers gets a stranded delivery a job again |
| Recovery.RecoverableNeverStranded | src/db/deliveries.repo.ts:263-311 | under the rules of Recoverable no reachable state is stranded |
| Recovery.OverMeansTerminal | src/worker/dlqHandler.ts:26-41 | under the rules of Recoverable a delivery whose jobs are over and that nobody works on is DELIVERED or in DLQ |
| Counterexamples.DeliversTwiceWithoutLease | src/worker/processor.ts:128 | any three workers have a run with two SUCCESS attempts that keeps the other lease rules; after Redis wipes the job comes from sweeps and from the API's one add, which is late |
| Counterexamples.OverwritesWithoutRecordLease | src/worker/processor.ts:216-230 | any two workers have a run that breaks only the lease at the SUCCESS record and overwrites DELIVERED with DELIVERING; the API adds once, late |
| Counterexamples.HandlerBuriesDelivered | src/worker/dlqHandler.ts:29-41 | for every configuration a job runs out of attempts, its handler reads FAILED, a sweep re-adds the job after a wipe, it is delivered under the lease, and the handler overwrites DELIVERED; the run keeps every lease rule but the handler's and the API adds once |
| Counterexamples.LeasedWriteStrands | src/worker/processor.ts:69-128 | a run that keeps every lease rule and every rule of Recoverable but the number of its one DELIVERING write, the API adding once, ends in DELIVERING with no worker and no job, and no sweep helps |
| Counterexamples.OverTerminalStrands | src/db/deliveries.repo.ts:243-261 | a run that keeps every rule of Recoverable but one, a current DELIVERING write over DLQ, the API adding once, leaves a FAILED delivery that no sweep can re-add while the completed job keeps its id |
| Counterexamples.LostCallStrands | src/worker/processor.ts:128-216 | a worker that dies between its DELIVERING write and its record, its job being wiped and every other rule kept, leaves a DELIVERING row no sweep looks at |
| Counterexamples.StallStrands | src/worker/index.ts:18-30 | a job handed out maxStalledCount + 1 times to workers that died, every other rule kept, leaves a PENDING delivery that no sweep can re-add |
| Counterexamples.LostRetryStrands | src/api/routes/dlq.ts:36-47 | for every configuration, an API crash between the retry transaction and its add, every other rule kept, leaves a PENDING delivery that no sweep can re-add |
| Counterexamples.FailedBurialStrands | src/worker/dlqHandler.ts:34-56 | for every configuration, a database error in the handler of an exhausted job, every other rule kept, leaves a FAILED delivery that no sweep can re-add |
| Lease.StrangersChangeNothing | src/redis/scripts/extend_lock.lua:2-5 | extend and release by a non-holder leave the lock as it was |
| Lease.LostForever | src/redis/lock.ts:22-38 | with distinct tokens, a token acquired and no longer held is never held again |
| Lease.HoldsAreDisjointIntervals | src/redis/lock.ts:22-38 | a token holds the lock for one interval, and no other token holds inside it |
| Lease.KeptWhileRefreshed | src/redis/scripts/extend_lock.lua:2-5 | a token never released and never a full TTL without a refresh stays stored, with an expiry covering every refresh |
| Lease.NeverAFullTtl | src/worker/heartbeat.ts:22-35 | by induction over the ticks, every moment up to the record is within a TTL of the acquire or of an earlier tick |
| Lease.LeaseKept | src/worker/heartbeat.ts:14-36 | if pre-call time, post-call time, interval and tick delay together are below the TTL, the token is in the lock continuously from acquire to record, for a call of any length and whatever other workers try |
| Lease.HeldOnlyForTtl | src/redis/lock.ts:22-26 | a token neither acquired nor extended within the last TTL is not held, so a dead holder blocks nobody for longer |
| Lease.RedisLock.Acquire | src/redis/lock.ts:22-26 | succeeds exactly when the key is free or expired, and then stores the token for one TTL |
| Lease.RedisLock.Extend | src/redis/scripts/extend_lock.lua:1-5 | renews the expiry to one TTL from now exactly for the holder |
| Lease.RedisLock.Release | src/redis/scripts/release_lock.lua:1-5 | frees the lock exactly for the holder |
| Lease.RedisLock.Heartbeat | src/worker/heartbeat.ts:14-36 | with any commands of others between the ticks, the lost flag flips exactly when some tick finds the token missing, at the first such tick, and the lock is as those commands and ticks leave it |
| Lease.AloneLostIff | src/worker/heartbeat.ts:22-35 | alone on the lock, some tick finds the token missing if and only if the first one does or a gap between ticks reaches the TTL |
| Bucket.TokensConserved | src/redis/scripts/token_bucket.lua:2-6 | effective tokens, holders and leaked tokens add up to the cap in every interleaving in which the key never expires while a token is held, so holders never exceed the cap |
| Bucket.CapBranchDead | src/redis/tokenBucket.ts:33-36 | under the same hypothesis the over-cap branch never fires |
| Bucket.ExpiryConservesIff | src/redis/tokenBucket.ts:25-30 | an expiry conserves tokens if and only if none is held |
| Bucket.ConservedIffNeverExpiresHeld | src/redis/tokenBucket.ts:25-38 | a run conserves tokens throughout if and only if the key never expires while one is held |
| Bucket.OverCapIsTransient | src/redis/tokenBucket.ts:31-38 | whatever expired when, more tokens than the cap are there only while a releaser is about to reset them, to the cap exactly |
| Bucket.ReleaseAfterExpiryShrinks | src/redis/tokenBucket.ts:25-38 | after an expiry with one token held the release leaves a single token in an idle bucket, whatever the cap |
| Bucket.TokenBucket.TryAcquire | src/redis/scripts/token_bucket.lua:2-6 | takes one token exactly when one is left, a missing key counting as full |
| Bucket.TokenBucket.Release | src/redis/tokenBucket.ts:31-38 | gives one token back up to the cap; a missing key becomes one |
| Breaker.BreakerStaysTripped | src/redis/circuitBreaker.ts:35-58 | once the count reaches the threshold, no checkState of any worker returns closed until a probe succeeds or a window passes with no counted failure, in every interleaving of the single Redis commands |
| Breaker.WindowReachable | src/redis/circuitBreaker.ts:36-37 | on every run from empty keys the counter expires one window after the last counted failure or not at all |
| Breaker.VerdictAfterFailures | src/redis/circuitBreaker.ts:35-58 | after failures from empty keys, each within a window of the last, checkState returns open exactly from the threshold-th failure until CB_OPEN_SECONDS after the last, probe from then until a window after the last, and closed otherwise |
| Breaker.OpenForOpenSeconds | src/redis/circuitBreaker.ts:39-46 | in any interleaving, after a failure that reaches the threshold or a failed probe at time t every checkState begun before t + CB_OPEN_SECONDS returns open, and unless the key is set again none begun later is stopped by it |
| Breaker.CounterCounts | src/redis/circuitBreaker.ts:36-37 | in any interleaving without a successful probe or an expiry the counter is the number of recorded failures |
| Breaker.OpensAtThreshold | src/redis/circuitBreaker.ts:39-41 | on every run without a failed probe the open key is not set before the threshold-th failure |
| Breaker.ThresholdFailureOpens | src/redis/circuitBreaker.ts:39-41 | and on an unbroken run the failure that reaches the threshold sets it |
| Breaker.ProbeForProbeSeconds | src/redis/circuitBreaker.ts:53-54 | a probe won at time t keeps others from probing until t + CB_PROBE_SECONDS unless its result comes in, and no longer |
| Breaker.ResultFreesProbe | src/redis/circuitBreaker.ts:61-68 | a probe's result frees the slot at once |
| Breaker.SuccessfulProbeCloses | src/redis/circuitBreaker.ts:62-63 | in any interleaving after a successful probe every checkState that gets past the open key returns closed until the threshold is reached anew |
| Breaker.OneProbePerLifetime | src/redis/circuitBreaker.ts:49-54 | the number of probe results equals the number of lifetimes of the probe key |
| Breaker.CircuitBreaker.RecordFailure | src/redis/circuitBreaker.ts:35-42 | the live count goes up by one or starts at one, its window is renewed, and from the threshold on the breaker is open for CB_OPEN_SECONDS from now |
| Breaker.CircuitBreaker.CheckState | src/redis/circuitBreaker.ts:44-58 | closed exactly when neither open nor tripped, probe exactly for the one who creates the probe key, which then lives CB_PROBE_SECONDS |
| Breaker.CircuitBreaker.OnProbeResult | src/redis/circuitBreaker.ts:61-68 | success clears counter and probe, failure opens for CB_OPEN_SECONDS from now and frees the probe slot |
| Processor.SoloIsPickup | src/worker/processor.ts:40-248 | on every path, LOCK_LOST included, a worker left alone in the step system from its start to its report changes the row and its job exactly as the by-cases account says, and leaves neither itself nor its token behind |
| Processor.DeliveredIffAccepted | src/worker/processor.ts:164-199 | an admitted pickup leaves DELIVERED if and only if the lock was kept and the status was 200 to 299, else FAILED with the computed retry time; its attempt says LOCK_LOST, TIMEOUT, CONN_ERROR or HTTP_ERROR accordingly, and an open breaker CIRCUIT_OPEN |
| Processor.SoloDeliversIff | src/worker/processor.ts:164-230 | on a run of the step system a lone worker leaves the row DELIVERED if and only if it was before, or it got the lock on a row not in DLQ, was admitted and its call was accepted |
| Processor.PickupKeepsRow | src/worker/processor.ts:87-230 | a pickup neither deferred nor terminal appends exactly one attempt with the next number and its status, any other changes nothing |
| Processor.DeferredChangesNothing | src/worker/processor.ts:42-46 | lock contention, inactive endpoint and rate limit write nothing and consume no attempt |
| Processor.JobEndsWithinBudget | src/queue/queues.ts:16-18 | in the by-cases account, after at most BACKOFF_BASE_MS.length counted pickups, with any number of deferred ones between, the delivery is DELIVERED or DLQ, and the job raised attempt_count by at most that length |
| Processor.RunEndsWithinBudget | src/queue/queues.ts:16-18 | on runs of the step system, a job picked up any number of times, with other steps between the pickups that leave row and job alone, makes at most BACKOFF_BASE_MS.length counted pickups and adds at most one attempt for each; a finished job means DELIVERED or DLQ, and the last counted pickup finishes it |
| Processor.LostLockReopensProbeOnly | src/worker/processor.ts:201-209 | LOCK_LOST re-opens the breaker when it ends a probe and leaves it untouched otherwise |
| Processor.FailuresAreCounted | src/worker/processor.ts:201-209 | on a closed breaker a timeout, a connection error and every status outside 200 to 299 raise the count by one; an accepted call and a lost lock leave the keys alone |
| Processor.ProbeDecides | src/worker/processor.ts:205-206 | an accepted probe clears the count, any other opens the breaker for CB_OPEN_SECONDS, and either frees the probe slot |
| Processor.CallAndRecord | src/worker/processor.ts:128-234 | the admitted part writes DELIVERING, then the outcome with its number and exit, and feeds the breaker by outcome; an error at one of its awaits leaves the row in DELIVERING or untouched |
| Processor.FeedBreaker | src/worker/processor.ts:201-209 | a probe reports its result either way, any other call only a real failure |
| Processor.RecordOutcome | src/worker/processor.ts:211-234 | the record transaction with the status of the outcome, and the exit that follows it |
| Processor.AfterCheck | src/worker/processor.ts:87-234 | from the verdict on: CIRCUIT_OPEN is recorded, a full bucket defers, otherwise the call is made, an error at any await included |
| Processor.TryDelivery | src/worker/processor.ts:53-234 | row, exit and breaker of the try block are as the by-cases account says, an error at any await included, and a token is taken exactly when the delivery was admitted |
| Processor.ProcessDelivery | src/worker/processor.ts:25-248 | on every exit, with an error at any one await, the row is as the by-cases account says, DELIVERED after an admitted pickup exactly on a 2xx answer under a kept lock; a taken bucket token is back and the lock is not ours any more unless giving one back is what failed; nothing changed if the lock was taken |
| Processor.HandleFailed | src/worker/dlqHandler.ts:26-41 | one DLQ transition from the current status exactly when the budget is exhausted and the row is not in DLQ yet |
| Ingest.SharedKeyIffClash | src/db/ingest.ts:26 | two clients can share a cache key, with idempotency keys the API accepts, if and only if one id followed by ':' is a prefix of the other and the rest fits into a key |
| Ingest.ColonFreeIsClashFree | src/db/ingest.ts:26 | ids without ':' never clash |
| Ingest.OneEventOneDelivery | src/db/ingest.ts:50-99 | in any interleaving with any cache losses and any client ids there is one event per client and key and one delivery per event, and the non-null assertions never fail |
| Ingest.SameAnswer | src/db/ingest.ts:26-106 | all answered calls for a client and key return the same ids, from the cache or from the database, and they are the database's |
| Ingest.ExactlyOneIsNew | src/db/ingest.ts:59-72 | among the answered calls for a client and key only the creator of the event is told is_new, and it is among the calls unless it died between COMMIT and its answer |
| Ingest.ClashLeaks | src/db/ingest.ts:28-45 | for any two clashing clients there are keys the API accepts and a run that answers the second client's key with the first one's event |
| Ingest.IngestStore.IngestEvent | src/db/ingest.ts:20-113 | with or without a cache hit, tables and answer are those of the transaction, and the cache stays sound |
| Ingest.FindEvent | src/db/ingest.ts:66-69 | returns a row with that client and key, or there is none |
| Ingest.FindDelivery | src/db/ingest.ts:93-96 | returns a delivery of that event, or there is none |
| Paging.SliceIsPage | src/db/deliveries.repo.ts:66-81 | limit + 1 rows and the slice give the first limit rows in order, and hasMore says whether any are left |
| Paging.WalkDescends | src/api/routes/deliveries.ts:59-68 | following next_cursor lists rows by falling stamp and, within a stamp, falling id, whatever is written meanwhile and however fine the timestamps, so a delivery returned twice carries an older stamp the second time |
| Paging.WalkNeverRepeats | src/api/routes/deliveries.ts:59-68 | a delivery whose own stamp does not fall during the walk is returned at most once, whatever is written to other rows |
| Paging.FallenStampRepeats | src/db/deliveries.repo.ts:250-254 | any fall of a stamp below the cursor's millisecond gives a walk, one row per page, that returns the delivery twice while every other row stays as it was |
| Paging.ReturnedFromIff | src/api/routes/deliveries.ts:61-68 | a row written before a page of a complete walk and left alone since is returned from that page on if and only if it is still ahead of the cursor and no page boundary passes over it |
| Paging.ReturnedIffNotSkipped | src/api/routes/deliveries.ts:61-68 | a row left alone during a complete walk is returned if and only if no page boundary's truncated cursor passes over it, whatever is written to other rows |
| Paging.PageRespectsFilter | src/db/deliveries.repo.ts:36-54 | every row of a page has one of the statuses asked for, the endpoint asked for, and was created neither before from nor after to |
| Paging.FilteredIsReturned | src/db/deliveries.repo.ts:36-81 | a row with these properties, left alone during a complete walk and skipped by no boundary, is returned |
| Paging.WalkLosesRow | src/api/routes/deliveries.ts:61-68 | any two rows of which one is not below the other's truncated cursor give a complete walk, one row per page, that never returns it |
| Paging.MicrosecondWalkLosesRow | src/api/routes/deliveries.ts:65 | rows stamped 1500 and 1200 microseconds give such a walk |
| Paging.SkippedSharesMillisecond | src/api/routes/deliveries.ts:65 | a skipped row shares the millisecond of a page boundary |
| Paging.MillisecondWalkComplete | src/db/deliveries.repo.ts:56-63 | with millisecond timestamps every matching row left alone is returned, whatever is written to other rows |
| Paging.WalkTerminates | src/api/routes/deliveries.ts:59-68 | all pages but the last are full of different rows, so a walk has at most N / limit + 1 pages, N the rows the tables held at any time during it |
| Paging.WalkEndsInFirstTable | src/api/routes/deliveries.ts:59-68 | if what is written meanwhile is listed before the first page's end, N is the size of the first table |
| Paging.DlqListingLosesNothing | src/db/deliveries.repo.ts:335-360 | in every reachable database, each delivery with its own creation time and run, listDlq selects exactly what list selects for status DLQ, with each delivery's own columns, and dlq_entered_at is the time of the last transition |
| Reconciler.SweepsClaimEachOnce | src/db/deliveries.repo.ts:285-309 | k sweeps inside one grace period, nobody else writing and the N eligible rows staying the eligible ones, claim min(N, k * batch) of them |
| Reconciler.SweepsAreDisjoint | src/db/deliveries.repo.ts:285-307 | no two sweeps inside one grace period claim the same delivery, whichever rows become eligible and whatever others write with stamps inside the period |
| Reconciler.ClaimedOncePerGrace | src/db/deliveries.repo.ts:295-306 | on every run of the step system a claimed delivery is not eligible again for a grace period, whatever workers, the API, the handler and Redis do meanwhile |
| Reconciler.ClaimsAreSpaced | src/db/deliveries.repo.ts:295-306 | on every run the claims of a delivery number at most its age divided by one more than the grace period |
| Reconciler.SweepsKeepRows | src/db/deliveries.repo.ts:301-307 | sweeps alone change only flag and stamp, and only of what they claimed |
| Reconciler.Store.Pick | src/db/deliveries.repo.ts:285-299 | selects distinct rows, as many as there are up to the limit, each PENDING or FAILED past its retry time and past the grace period |
| Reconciler.Store.AddPicked | src/db/deliveries.repo.ts:301-307 | every picked id is queued and flagged, or the flags roll back and the adds made so far stay |
| Reconciler.Store.ClaimUnenqueued | src/db/deliveries.repo.ts:263-311 | a sweep claims only rows that are PENDING, or FAILED past their retry time, and past the grace period, all of them if they are fewer than the limit, and leaves a job under each id; one that throws part way changes no row and keeps its adds; no id is queued twice |
| Reconciler.Store.EnqueueDelivery | src/queue/enqueue.ts:4-10 | add before flag: a failed add changes nothing, and no id is queued twice |
| Reconciler.Store.Add | src/queue/enqueue.ts:5 | an id already present is not queued again |
| Memo.AtMostOneCall | src/shared/memo.ts:17-37 | over any schedule of calls, resolutions and rejections at most one underlying call is running |
| Memo.ServedIsFresh | src/shared/memo.ts:18-21 | a served value is the latest result and less than the TTL old |
| Memo.WindowBound | src/shared/memo.ts:26-31 | successful calls start at least a TTL apart, so at most W / ttl + 1 start in a window of length W |
| Memo.SucceededStarted | src/shared/memo.ts:26-31 | the starts that bound counts are times at which a call started the underlying function |
| Memo.MemoTtl.Call | src/shared/memo.ts:17-37 | serves an unexpired value; otherwise shares the pending call or starts one |
| Memo.MemoTtl.Resolved | src/shared/memo.ts:27-31 | caches the value for one TTL from its resolution |
| Memo.MemoTtl.Rejected | src/shared/memo.ts:32-35 | a failure clears the pending call and caches nothing |
| Backoff.DelayBounds | src/queue/backoff.ts:3-8 | for every draw attempt n of the table waits between half the n-th entry and the entry less one, and any other attempt between half the last entry and that entry less one |
| Backoff.BoundsAreReached | src/queue/backoff.ts:7 | both bounds are reached |
| Backoff.DelaysIncreaseIffDoubling | src/queue/backoff.ts:3-8 | delays strictly increase from one attempt to the next for all draws if and only if the base at least doubles |
| Backoff.TableIncreasesIff | src/queue/backoff.ts:3-8 | from attempt n to the next delays increase for all draws if and only if both are in the table and the entry at least doubles |
| Backoff.DefaultTableIncreases | src/shared/config.ts:24-27 | with the default table delays strictly increase from attempt to attempt, and every attempt after the fifth waits from 30 to 60 minutes |

## Left out

- Recovery.NoDeliveryStranded: its rules are sufficient, not necessary: one of them may be broken without harm (a lost retry add followed by a late one, say), while Recovery.StrandedIff and Recovery.SettledIffNumbersCurrent are exact.
- Timed.PunctualRunsDeliverOnce: a Redis wipe while the lock is held is excluded; without that the lease can be lost at any time, and Once.OnceIffNeverOverwritten says what is then needed.
- Stamps older than their commit: the step system stamps a transaction when it commits, Postgres when it starts; the paging theorems do not rely on either, and Reconciler.SweepsAreDisjoint asks for stamps inside the period.
- An operation that took effect although its caller saw an error: modelled for the bucket's leaked tokens and the ingest commit only.
- Liveness under fair scheduling: only safety and what the next sweep or record does are stated.
- Several deliveries in one step system: rows, locks and job ids are per delivery, so the protocol is modelled for one; breaker and bucket appear there as arbitrary verdicts.
- The response's delivery_status, the attempt row's HTTP status, body, latency and times, and the transition's actor column, which its reason determines.
- Comparing ids as text in `list` and as uuid in `listDlq`: both are taken as one order on ids.
- The cursor's base64url and JSON text: taken as a bijection.
- HTTP client, signatures, request validation, error envelopes, logging, alerts: I/O around the modelled logic.
- Endpoint routes, statistics, delivery detail: single reads or single statements.
- Backpressure limit: one comparison on the memoized counts.
- BullMQ, ioredis and Postgres internals: only the assumptions listed above.
- Dashboard, load tests, test receiver, shell scripts, containers: user interface and operations.
