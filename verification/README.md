# A verified model of the log-ingestion queue

The system accepts log events over HTTP, writes each as a job into one of several Redis streams, and has workers
take the jobs through a consumer group, process them, retry failures, and move exhausted jobs to a dead letter
stream. This project models that machinery in Dafny and proves what it keeps, over every run with failing commands, lost
replies, crashes between any two commands, trimming and concurrent clients.

`dafny verify dfyconfig.toml` checks the whole project.

## How the model is built

**The delivery protocol** (`Queue`, `Delivery`). Every Redis command is one atomic step on streams, pending lists,
deduplication keys and the dead letter stream. A command may be applied, applied with the reply lost, or not applied;
a job goroutine may die between any two of its commands. A step's label carries everything the code does not decide
(failures, clock, trimming, which worker), so a run is a sequence of labels and `Exec` gives the state it ends in.
An entry's id is its position in a log that never shrinks; trimming only advances a base. A history that no step
reads records acceptances, downstream calls, successes, failures, copies, dead letters and drops. `Invariant` holds
the inductive invariant of all runs; `Fate`, `Dedup`, `Twice`, `Spacing`, `DeadLetters`, `Targets`, `Affinity`,
`Acks`, `Redelivery`, `FaultFree`, `Outcomes`, `Termination`, `Depth` and `Latch` hold the theorems, and `Burial` a run,
for every configuration, that the counterexamples start from. `Chronicle`, `Ledger`, `Goroutines` and `Annals` say,
for every moment of every run (`Timeline`), which of its steps put each key, entry, pending record, acknowledgement, dead
letter, goroutine and fact of the history there. What a theorem assumes about the environment is an `Assume` value: `Anything`,
`KeysLive` (no check finds its key expired), `Checked` (no check errs), `KeysLiveAndChecked`, `FaultFree`.

**The code that drives it** (`Cluster`, `Workers`, `Producers`, `Gate`). `Retry`, `Ack`, `Process`, `processMessage`,
`Enqueue`, `EnqueueBatch`, `StreamLength`, `IngestLog`, `updateMetrics` and `Requeue` are methods over a shared server object whose
`Valid()` says that its state is reached by a run of the protocol. Between any two commands they call `Interfere`,
which executes any number of enabled commands of everybody else. So each method is proved under every interleaving, the
commands it issues are pinned down by its trace, the point at which it dies is an input, and every theorem about runs applies to what it does.

**The other parts.** `Reclaim` is the paged XAUTOCLAIM loop. `Throttler`, `Metrics` and `Updater` are the decision
arithmetic, the publication of the four atomics, and the code that stores and loads them; `Gate` puts streams, metrics
and admission together.
`ControlPlane` and `Leader` are the timed lock and the code of `Start` and `waitForLock`, and `Lease` says who holds the
key and until when. `Registry` is the heartbeat registry and its non-atomic listing, `Pool` the semaphore and the drain,
`Handover` what becomes of each message a worker takes, `Backoff` the poll loop's delay, `Partition`
the FNV-1a routing and the stream names.

The validator's conjuncts are preconditions (`Config.Valid`), and with them one that the validator does not check: the
dead letter stream is not the stream of a partition. Every theorem about the delivery protocol and the depth of its
streams assumes it. On a collision a dead letter is appended to a partition's stream and trims it to DLQMaxLen, which
breaks `Depth.WorkerKeepsDepth` and `Depth.DepthFloor` (`Depth.CollisionShortens`); `Partition.ApartIff` says exactly which names collide. Clocks,
job ids, server replies, trimming and the downstream result are inputs.

## What the proofs found

- Some run loses an accepted job exactly when the deduplicating processor is configured (`Fate.LossIffDedup`): it
  claims its key before the downstream call, so a reclaimed duplicate is acknowledged while the claimant dies.
  README.md:168 of the repository says a worker crash before the acknowledgement loses nothing.
- Behind the deduplication layer one job can succeed twice exactly when a key may expire, or a check may err and the job
  has a second attempt (`Twice.TwiceIff`); with live keys and checks that answer it cannot.
- A dead-lettered job that is requeued while its keys live is never handed to downstream again
  (`Dedup.RequeueNeverRuns`): its entry is delivered and skipped (`Twice.SkippedRequeueRun`).
- A requeued job can be handed to a worker exactly when the target names a partition's stream
  (`Targets.DeliveredIffPartition`). The base name, which tests/integration/dlq_test.go:115 passes, never does: the job
  leaves the dead letters for a stream nobody reads (`Targets.StrandingRun`).
- A standby control plane that took the lock in `waitForLock` re-enters `Start`, whose SETNX meets the instance's own key.
  It gets into the loop exactly when that key has run out its LockTTL or was deleted in between, and nobody holds the lock
  now (`ControlPlane.StandbyEntersIff`). So it never does while holders renew in time and re-entry takes less than
  LockTTL (`ControlPlane.StandbyNeverReconciles`); without either, some run lets it in
  (`ControlPlane.DelayedStandbyEnters`, `ControlPlane.DeletedKeyLetsIn`).
- The retry delay's nanosecond product can overflow and shorten the delay (`Throttler.OverflowShortensDelay`);
  `Throttler.OverflowFreeIff` says for which configurations it cannot.
- An open circuit can close again: some run brings an observed depth beyond the threshold back to it exactly when the
  producers' MaxLen does not exceed the threshold, which the validator does not compare, or there is a dead letter queue,
  whose requeues bring a MAXLEN of their own, and the threshold is at least 1 (`Latch.BreaksIff`).
- The validator accepts every dead letter stream name that collides with a partition's stream (`Partition.ApartIff`).
- After any run every entry lies in its service's partition exactly when every applied requeue went there
  (`Affinity.PartitionAffinity`); some run breaks this exactly when there are two partitions and a dead letter queue
  (`Affinity.AstrayIff`).

Where code and documentation differ the model follows the code: the retry limit is tested with `>=`
(docs/ctx.md:221 has `>`), the dead letter stream is trimmed (README.md:285 says it is not), and the throttler reads
neither the hard depth limit nor the critical message age (README.md:178-182).

## Model

| member | source | states |
|---|---|---|
| `Invariant.RunKeeps` | internal/queue/consumer.go:36-152 | the protocol invariant holds after every run: stream, pending list and acknowledgement bookkeeping agree, every entry and goroutine carries the accepted data with a count below the limit, every acknowledged entry was settled or claimed, every claim has an outcome, a goroutine working on it or a recorded abandonment, every dead letter is exhausted, and a deleted one was requeued or deleted by an operator |
| `Invariant.StepGrows` | internal/queue/consumer.go:82-152 | no step forgets: logs, dead letters and the whole history only grow |
| `Annals.HistoryExact` | internal/worker/worker.go:293-337 | the history these theorems read has a fact, an acceptance, claim, success, failure, copy, dead letter, drop, abandonment, requeue or deletion, exactly if some step of the run was that event |
| `Annals.CallsExact` | internal/worker/dedup_processor.go:36-53 | the calls and successes on record are the downstream calls entered and the successful returns of the run, in order |
| `Fate.JobFate` | internal/worker/worker.go:293-337 | in every run with any faults each accepted job waits undelivered or pending, was trimmed, succeeded, was dead-lettered or dropped, is in a claimant's hand, or had its claim abandoned; nothing else |
| `Fate.PlainNeverLoses` | internal/worker/worker.go:305-331 | at least once: without deduplication the last two cases vanish, whatever fails or crashes |
| `Fate.LosingRun` | internal/worker/dedup_processor.go:36-53 | for every valid configuration with deduplication, a run after which an accepted job is in none of the accounted places and nobody works on it |
| `Fate.LossIffDedup` | internal/worker/dedup_processor.go:36-53 | some run loses a job if and only if deduplication is configured |
| `Dedup.BoundedWork` | internal/worker/dedup_processor.go:38-52 | while keys live, no attempt is called twice and a job is called at most MaxRetries times, over lost acks, reclaims, ambiguous appends and requeues |
| `Dedup.AtMostOneSuccess` | internal/worker/dedup_processor.go:38-52 | while keys live and checks do not err, two successes of any run belong to different jobs |
| `Dedup.RunFailsOnce` | internal/queue/consumer.go:97-143 | the invariant behind it: a failed attempt is one whose sole call failed, so an entry with a higher count exists only after that |
| `Dedup.RequeueNeverRuns` | internal/queue/dlq.go:160-199 | while keys live and checks do not err, no goroutine for a dead-lettered job can ever call downstream |
| `Chronicle.KeyExact` | internal/worker/dedup_processor.go:38-44 | at every moment of every run an attempt has a key exactly if some check that reached the server found none or an expired one, and the key expires DedupTTL after the latest such check, however many duplicates were turned away since |
| `Chronicle.DuplicateWindow` | internal/worker/dedup_processor.go:38-52 | an answered check lets its goroutine call downstream exactly if no earlier check claimed the same attempt within the last DedupTTL; otherwise the entry is acknowledged unprocessed |
| `Twice.ErringCheckRun` | internal/worker/dedup_processor.go:41-44 | with live keys, an erring check and at least two attempts, a run in which one job succeeds twice |
| `Twice.ExpiredKeyRun` | internal/worker/dedup_processor.go:38-52 | for every configuration, MaxRetries = 1 included, a run without an erring check in which the key expires, the acknowledgement is lost and the job succeeds twice |
| `Twice.TwiceIff` | internal/worker/dedup_processor.go:38-52 | under each assumption about keys and checks: some run succeeds twice for a job if and only if a key may expire, or a check may err and MaxRetries is at least 2 |
| `Twice.SkippedRequeueRun` | internal/queue/dlq.go:160-199 | with live keys and checks that answer, a run in which a dead letter is requeued, deleted, delivered and skipped as a duplicate |
| `Burial.BuriedRun` | internal/queue/consumer.go:97-126 | under every assumption, fault-free included, a run that takes a job through MaxRetries failed attempts into the dead letter stream |
| `Spacing.ReclaimsSpaced` | internal/worker/worker.go:216-267 | an entry handed out twice was handed out the second time by a reclaim, at least ReclaimIdleTime after the first, whichever workers scan |
| `Ledger.PendingExact` | internal/queue/consumer.go:36-94 | at every moment of every run an entry is pending exactly if a read or a reclaim handed it out and no XACK or purge took it off since, and its record names the worker it was last handed to and when |
| `Ledger.TakenIff` | internal/queue/consumer.go:36-60 | exactly when a read, a reclaim and a purge are possible: an entry past the cursor is stored; the entry is stored and was handed out, not released, at least ReclaimIdleTime ago; it was trimmed while pending |
| `Ledger.EntryExact` | internal/queue/consumer.go:127-152 | in every run each stream is, in order, what its steps appended: new jobs at their service's partition with count 0 and the time of the call, failed jobs with the next count and the error, requeued dead letters; an entry is acknowledged exactly if an XACK reached the server while it was pending |
| `Ledger.TrimExact` | internal/queue/message.go:27-44 | a partition's stream is trimmed to where its last trimming left it, and only an enqueue or a requeue trims it |
| `DeadLetters.EntryCounts` | internal/queue/consumer.go:97-103 | every stream entry of every run has 0 <= RetryCount < MaxRetries, the accepted data, and for a positive count the error with which the previous attempt failed |
| `DeadLetters.DeadLetterCounts` | internal/queue/consumer.go:102-120 | every dead letter has RetryCount = MaxRetries, the accepted data, and the last attempt's error as reason |
| `DeadLetters.DeadLetterOrigin` | internal/queue/consumer.go:109-117 | in every run each dead letter's original id is that of a stream entry for the last attempt of the same job, and its time is not in the future |
| `Ledger.LetterExact` | internal/queue/dlq.go:32-75 | in every run each dead letter is what one send wrote that reached the server, with the entry's id, the incremented envelope, the error and the time, and each such send wrote one; it is deleted exactly if a delete of it, or the one ending a requeue of it, reached the server |
| `Ledger.DlqFloor` | internal/queue/dlq.go:44-54 | a send never trims the dead letter stream below DLQMaxLen entries, counting what requeues put there |
| `Ledger.EnvironmentIff` | internal/queue/dlq.go:145-157 | an operator can delete exactly the stored dead letters, a producer can append any new job with any trimming that leaves MaxLen entries, and malformed entries can appear anywhere |
| `DeadLetters.RequeueConserves` | internal/queue/dlq.go:145-199 | in every run, whatever stream name a requeue is given and wherever it fails, a dead letter is held, was trimmed, was deleted by an operator, or some step is the applied XADD of a requeue of this very dead letter, and the entry that step appended, with the same id and data, count 0 and no error, is in its place |
| `Acks.EntryFate` | internal/worker/worker.go:305-331 | in every run each job entry waits, was trimmed before its acknowledgement, or was acknowledged and some step settled it in a goroutine that held this very entry: a success, a confirmed copy, a dead letter or a drop, or, only with deduplication, a claimed attempt |
| `Acks.SecondLife` | internal/queue/dlq.go:177-181 | the same for the entry a requeue appended to a partition: what settled it came after the requeue |
| `Redelivery.RequeuedDelivery` | internal/queue/dlq.go:167-178 | for every run, every requeue to a partition in it and every goroutine that takes the entry it appended: after its answered check, its next step, unless it dies, is the downstream call exactly if the key of attempt 0 was absent or expired at the check, and the acknowledgement otherwise |
| `Redelivery.RequeuedCall` | internal/worker/dedup_processor.go:38-52 | no downstream call for such an entry without a check of its goroutine, after the requeue, that found that key free |
| `Affinity.PartitionAffinity` | internal/queue/producer.go:112-122 | after any run every entry lies in the stream of its service's hash if and only if every applied requeue of the run was aimed at its job's own partition |
| `Affinity.AstrayRun` | internal/queue/dlq.go:171-181 | for every configuration with two partitions and a dead letter queue, a run that puts a job into a foreign partition |
| `Affinity.AstrayIff` | internal/queue/dlq.go:160-199 | some run breaks affinity if and only if there are at least two partitions and a dead letter queue |
| `FaultFree.RunOrderly` | internal/queue/consumer.go:97-152 | invariant of fault-free runs: no attempt has two entries and no entry two goroutines, a job's calls are numbered in order, and an undelivered entry or a goroutine before its call carries the number of calls so far |
| `Outcomes.AttemptsInOrder` | internal/queue/consumer.go:97-151 | in fault-free runs downstream sees a job with counts 0, 1, 2, ... in order, each but the last failed, never more than MaxRetries, and nothing is skipped as a duplicate |
| `Outcomes.DrainedOutcome` | internal/queue/consumer.go:97-151 | when a fault-free run is drained every accepted job succeeded on its last attempt and was not dead-lettered, or was tried exactly MaxRetries times without success and has exactly one dead letter (or was dropped where there is no dead letter queue) |
| `Termination.StepShare` | internal/queue/consumer.go:97-151 | a weight over unacknowledged entries falls with every consumer or worker step and rises only with an accepted job |
| `Termination.Terminates` | internal/queue/consumer.go:97-151 | a fault-free run that accepted E jobs has at most 6 * MaxRetries * E consumer and worker steps |
| `Termination.Progress` | internal/worker/worker.go:136-185 | until it is drained a fault-free run can always take a worker step |
| `Depth.DepthCoversBacklog` | internal/queue/producer.go:30-45 | the sum StreamLength returns, each partition asked at its own moment of a run, is at least the sum of their unacknowledged entries at those moments |
| `Depth.WorkerKeepsDepth` | internal/queue/consumer.go:82-152 | consuming, acknowledging, retrying, reclaiming and dead-lettering never shorten a stream |
| `Depth.DepthFloor` | internal/queue/message.go:27-44 | over any stretch of any run a stream that had length L keeps at least the smaller of L and the smallest MAXLEN in use, requeues with their own MAXLEN included |
| `Latch.ProducersBreak` | internal/queue/producer.go:47-50 | whenever MaxLen does not exceed the threshold, a run of producers alone in which StreamLength exceeds it and later does not |
| `Latch.RequeueBreaks` | internal/queue/dlq.go:160-178 | with a dead letter queue and a threshold of at least 1, such a run by a requeue with MAXLEN 1 |
| `Latch.BreaksIff` | internal/queue/producer.go:30-50 | some run brings an observed depth beyond the threshold back to it if and only if MaxLen does not exceed the threshold, or there is a dead letter queue and the threshold is at least 1 |
| `Depth.DepthLatch` | internal/queue/producer.go:30-45 | once an observed depth exceeds a threshold below every MAXLEN in use, every later observation does |
| `Cluster.Ack` | internal/queue/consumer.go:82-94 | one XACK, which ends the goroutine; without an error the entry is no longer pending |
| `Cluster.Retry` | internal/queue/consumer.go:97-152 | the envelope is changed in place to the next count and the error; the commands are exactly the confirmed copy, dead letter or drop followed by XACK, or a failed copy and no XACK, or a death at the given point; an acknowledged entry's copy is in the same stream or its attempt is buried or dropped |
| `Workers.CheckFirst` | internal/worker/dedup_processor.go:38-49 | one SETNX; an error is returned as such, a taken key skips the job and is the only thing that counts a duplicate, a fresh key lets it through, and a check that was applied leaves the attempt's key set and live even when its reply was lost; a check that reached the server sets a missing or expired key anew for DedupTTL and leaves a live one as it is, one that did not changes no key |
| `Workers.Process` | internal/worker/dedup_processor.go:36-53 | a duplicate is skipped only if the attempt was claimed, a failed check is an error without a downstream call, downstream is called once and only after a claiming check, and the result is downstream's; the goroutine dies exactly at the given point, before the check or later |
| `Workers.ProcessMessage` | internal/worker/worker.go:293-337 | the commands are those of Process followed by those of Retry after an error and by one XACK otherwise, with a death at any given point, also between a success and its XACK; the goroutine always ends; an acknowledged entry's attempt succeeded, was copied, buried or dropped, or (only with deduplication) was claimed |
| `Goroutines.GoroutineExact` | internal/worker/worker.go:293-337 | at every moment of every run a goroutine exists exactly if a read or a reclaim started it and no acknowledgement, erring copy or death ended it since; it holds the worker, stream, id and envelope it was started with, and stands where its last step took it: a check that found a live key leads to the acknowledgement, any other answered check to downstream, an error to Retry |
| `Producers.StreamLength` | internal/queue/producer.go:30-45 | it fails exactly if one of its queries errs; otherwise the sum of the partitions' lengths, each as it stood at some moment during the call, in spite of other clients, and at least their backlog |
| `Producers.Enqueue` | internal/queue/producer.go:47-68 | without an error the returned id is the new last entry of the service's stream, a fresh envelope with count 0, and every other stream is unchanged; one XADD in all cases |
| `Producers.EnqueueBatch` | internal/queue/producer.go:71-108 | one XADD per event in order; it fails exactly when one of them errs; otherwise every event lies at its returned id in its service's stream as Enqueue leaves it, and events of a partition keep the batch order |
| `Producers.Requeue` | internal/queue/dlq.go:160-199 | for any target name: the commands are the read, one XADD to that stream, and the delete only after its confirmation, with a death at any given point; it succeeds exactly if the dead letter was held, its own XADD was confirmed and it lived to the delete, and then the appended entry is in its place; at the end, under any interference and failure, the dead letter is held, trimmed, deleted by an operator or requeued |
| `Targets.DeliveredIffPartition` | internal/queue/dlq.go:171-181 | in every state of every run, the entry a requeue appends can be handed to a worker by some continuation if and only if the target is the stream of a partition |
| `Targets.StrandingRun` | internal/queue/dlq.go:177-190 | for every configuration with a dead letter queue, a run that requeues to the base name: the dead letter is gone and the job lies in a stream nobody reads and nowhere else |
| `Targets.StrandsIffDlq` | internal/queue/dlq.go:160-199 | some run strands a job if and only if there is a dead letter queue |
| `Reclaim.Group.XAutoClaim` | internal/queue/consumer.go:163-184 | a page lists in id order exactly the stale stored entries between its cursor and the next; in that range it makes them the worker's and drops what was trimmed, and touches nothing else; a failed page is applied or not; the page goes on the group's record with the state before and after it |
| `Reclaim.PageStops` | internal/queue/consumer.go:163-170 | one command looks at no more than ten times the batch and claims or purges no more than the batch, and hands back a cursor only when it reached one of these limits |
| `Reclaim.Decode` | internal/queue/consumer.go:186-197 | exactly the parseable messages of a page, ids and envelopes aligned and in order |
| `Reclaim.DecodedExact` | internal/queue/consumer.go:186-197 | what a page decodes to is exactly what was stale, stored and parseable between its cursor and the next |
| `Reclaim.PageAdded` | internal/queue/consumer.go:186-202 | under interference: one more page keeps, for every earlier page, that the ids in its range are returned exactly if they were eligible at that page |
| `Reclaim.EveryIdCovered` | internal/queue/consumer.go:199-202 | the pages of a complete scan leave no id out, and those so far none below the next cursor |
| `Reclaim.PageExact` | internal/queue/consumer.go:163-209 | pages without interference add up to the one-shot reclaim below the cursor |
| `Reclaim.ReclaimStale` | internal/queue/consumer.go:156-219 | for every batch size the loop ends, at the last page, an error, or the given cancellation; its pages are exactly those asked of the group, on the record of its states; under interference, for every page and every id in its range, the id is returned exactly if it was eligible when that page was asked, and was this worker's own right after; ids ascend without repeats, aligned with envelopes; no page, failed or not, takes a stored entry off the pending list; alone, a complete scan is the one-shot reclaim |
| `Throttler.Thresholds` | internal/ingestion/adpative_throttler.go:161-205 | the decision, both ways: Allow on metrics older than twice the update interval, and on others CircuitOpen and not Allow exactly when depth or age exceeds the score times its limit |
| `Throttler.SeverityMonotone` | internal/ingestion/adpative_throttler.go:177-205 | more depth or age never lowers the severity: an open circuit stays open, and a limited request is not allowed |
| `Throttler.DelayExact` | internal/ingestion/adpative_throttler.go:209-239 | for every load and age: with q the solution of q * drain rate = depth + pending, times age / MaxMessageAge past that age, the delay is the whole seconds of q as int64 nanoseconds, kept within MinRetryAfter and MaxRetryAfter; no wrap below 9223372037 seconds |
| `Throttler.DelayMonotone` | internal/ingestion/adpative_throttler.go:209-239 | the delay grows with depth, pending count and age across the age branch and stays within the configured bounds |
| `Throttler.OverflowFreeIff` | internal/ingestion/adpative_throttler.go:209-239 | with at most P pending, no rate-limited product overflows if and only if the estimate at the largest depth and whole-second age of the closed circuit, with P pending, fits or that corner is not rate limited |
| `Throttler.RateLimitExact` | internal/ingestion/adpative_throttler.go:193-239 | when CircuitOpenScore * (CircuitOpenScore * SoftDepthLimit + pending) / drain rate is below 2^63 nanoseconds, every rate-limited delay is the whole seconds of that q within the bounds, MinRetryAfter below and MaxRetryAfter above them: nothing overflows |
| `Throttler.OverflowShortensDelay` | internal/ingestion/adpative_throttler.go:228-236 | a valid configuration under which a deeper queue is told to come back sooner |
| `Metrics.NoOlderThanStamp` | internal/ingestion/adpative_throttler.go:128-175 | in every interleaving a decider that read the timestamp of update k reads depth, age and pending count of update k or later |
| `Metrics.FreshnessOfDecision` | internal/ingestion/adpative_throttler.go:161-172 | a throttling decision rests on an update stamped within 2 * MetricsUpdateInterval, and an update stamped a second more recently is never stale, although timestamps are whole seconds |
| `Updater.UpdateMetrics` | internal/ingestion/adpative_throttler.go:108-139 | a failed depth query changes nothing, a failed pending query publishes zeros, otherwise all four atomics end up from this one update, under any interleaving |
| `Updater.Decision` | internal/ingestion/adpative_throttler.go:156-206 | the answer is Decide of exactly the values loaded, which are from the timestamp's update or later; a throttling answer rests on an update stamped within 2 * MetricsUpdateInterval |
| `Gate.UpdateMetrics` | internal/ingestion/adpative_throttler.go:108-139 | with its queries: exactly unless one of them errs, one more sample is published, with the depth just read; what is published was sampled from the streams, each partition asked after all that earlier updates had seen, whatever the other clients and deciders do |
| `Gate.CircuitLatch` | internal/ingestion/adpative_throttler.go:156-191 | over every delivery run and every interleaving of updater and deciders: once an update has sampled a depth beyond CircuitOpenScore * SoftDepthLimit, with every MAXLEN in use above it, every decider that read its timestamp or a later one and is not stale opens the circuit |
| `Gate.IngestLog` | internal/ingestion/service.go:46-84 | the answer follows the decision made on the values loaded; when that is Allow, it is Invalid exactly if there is no event or its level or message is empty; a refused or invalid request issues no command, any other one XADD; an accepted event has both fields and lies at the returned id; once the circuit is latched the request is refused |
| `ControlPlane.MutualExclusion` | internal/registry/control_plane.go:44-83 | when no holder lets LockTTL pass between its renewals, at most one instance is in the reconcile loop and it owns the live key, in every interleaving of the separate Get, Expire and Del |
| `ControlPlane.PauseBreaksExclusion` | internal/registry/control_plane.go:129-141 | without that, for every LockTTL a run with two instances in the loop |
| `ControlPlane.ExclusionIff` | internal/registry/control_plane.go:117-150 | under each timing assumption, two instances can be in the loop if and only if a holder may let LockTTL pass |
| `ControlPlane.OrderlySuccession` | internal/registry/control_plane.go:44-83 | under every timing assumption a run in which the lock is held, renewed a nanosecond before its expiry, given back and taken over by another instance, which enters the loop |
| `Lease.KeyExact` | internal/registry/control_plane.go:117-150 | at every moment of every run there is a key exactly if a SETNX set one that no Del removed since; it names the instance of that SETNX and expires LockTTL after it was set or last extended, by whomever; a crash leaves it |
| `ControlPlane.StandbyNeverReconciles` | internal/registry/control_plane.go:152-172 | an instance whose first attempt failed never enters the loop, if no holder lets LockTTL pass between its renewals and re-entry takes less than LockTTL |
| `ControlPlane.ReenteringKey` | internal/registry/control_plane.go:160-169 | in every run without timing assumptions: an instance about to re-enter Start has been so since it took the key in waitForLock, and that key has run out its LockTTL, or a Del was applied since, or it is still its own and live |
| `ControlPlane.StandbyEntersIff` | internal/registry/control_plane.go:47-54 | in every run an instance that stood by enters the loop exactly at the SETNX of a re-entered Start when the key of the take this re-entry follows has run out or was deleted in between and nobody holds the lock now |
| `ControlPlane.DeletedKeyLetsIn` | internal/registry/control_plane.go:143-150 | with prompt re-entry, a run in which a holder that paused in releaseLock deletes the key the standby took, which lets the standby in |
| `ControlPlane.DelayedStandbyEnters` | internal/registry/control_plane.go:160-169 | a run in which a re-entry delayed by LockTTL does get in |
| `Leader.AcquireLock` | internal/registry/control_plane.go:117-127 | one SETNX; it takes a missing or expired key for LockTTL whenever it reached the server, even if the instance sees an error, and leaves a live one as it is |
| `Leader.RenewLock` | internal/registry/control_plane.go:129-141 | the Get, and the Expire exactly after a Get that found the instance's own id; no error only after both; an error ends the instance; an Expire that reached the server restarts the TTL of a live key and keeps its owner, whoever that is, and changes nothing without one |
| `Leader.ReleaseLock` | internal/registry/control_plane.go:143-150 | the Get, and the Del exactly after a Get that found the instance's own id; otherwise the key is left alone; an applied Del leaves no key, and under the timing assumption the key before it was still the instance's own |
| `Leader.ReconcileLoop` | internal/registry/control_plane.go:58-82 | it reconciles at once and at every reconcile tick it takes, each on the server's record, begins one renewal at every renew tick it takes, and takes ticks until the cancellation or a failed renewal |
| `Leader.Start` | internal/registry/control_plane.go:44-83 | it ends with an erring SETNX, waiting, cancelled, or through the loop with exactly its reconciles and one renewal per renew tick; under the timing assumption every reconcile on record was made alone and with the key; re-entered from standby, under both, there is none |
| `Leader.WaitForLock` | internal/registry/control_plane.go:152-172 | at least one SETNX and at most two per tick, the second by the Start that an acquisition re-enters, until the cancellation; under both timing assumptions waiting leads to no reconcile at all |
| `Registry.ParsesIffRegistered` | internal/registry/registry.go:126-146 | a hash parses exactly while its worker is registered under a non-empty id, to that id, the second of the last beat and the second of the registration |
| `Registry.HashExact` | internal/registry/registry.go:46-80 | after any run a worker's hash is what the commands alone say: a registration writes id and both times, a heartbeat only the last-seen second, a deregistration removes it all |
| `Registry.NotResurrected` | internal/registry/registry.go:63-80 | no heartbeat after a deregistration brings the worker back |
| `Registry.Store.ListWorkers` | internal/registry/registry.go:96-120 | it fails exactly if KEYS errs; under any interleaving each listed worker was registered with that hash when it was read, each once; each worker registered throughout is listed, exactly unless its HGETALL errs |
| `Registry.ListedAlive` | internal/registry/types.go:15-17 | for the infos a listing returned and a clock read at any time after: alive means the last heartbeat is under the threshold old, and a heartbeat a second younger than that when its hash was read means alive |
| `Registry.Reconcile` | internal/registry/control_plane.go:94-114 | alive and dead add up to the listed workers, and the dead are exactly those not heard of for the threshold, in the order listed |
| `Pool.PermitsConserved` | internal/worker/worker.go:136-185 | free and held permits add up to Concurrency and activeJobs does not exceed the held ones, in every interleaving of both loops and all jobs |
| `Pool.DrainedOnReturn` | internal/worker/worker.go:100-133 | when Wait returns no job is active, all permits are free, and every message polled or reclaimed from any consumer, given up or run without an acknowledgement, is still pending unless a job that ran it acknowledged it or another consumer settled it |
| `Handover.NothingLost` | internal/worker/worker.go:136-265 | in every interleaving, counted per message: each time it was polled or occurred in a reclaimed batch, a job for it was started, a loop gave it up, or a loop or an unstarted job holds it |
| `Handover.NothingGivenUp` | internal/worker/worker.go:136-185 | before cancellation no loop gives anything up or returns |
| `Handover.AllStarted` | internal/worker/worker.go:100-133 | when Wait returns every message was started as often as it was taken, but for what was given up |
| `Handover.PollExitFinal` | internal/worker/worker.go:143-172 | a poll loop that gave up or found the context cancelled does nothing more |
| `Handover.RecordsExact` | internal/worker/worker.go:136-185 | the pending list is what was handed out and neither acknowledged nor settled by others, and the records of what the worker took and ran are what it took and started |
| `Pool.GivenUpRun` | internal/worker/worker.go:250-253 | a run of a worker that polled nothing, takes over another consumer's message and gives it up: never run, still pending |
| `Pool.ShutdownProgress` | internal/worker/worker.go:169-182 | after cancellation there is always a step left until Wait returns |
| `Pool.DrainEnds` | internal/worker/worker.go:136-185 | from cancellation on, the worker's own steps and the work still in hand do not exceed the work in hand at cancellation and what a reclaim under way returns: the drain ends |
| `Pool.OnlyInFlight` | internal/worker/worker.go:143-150 | after cancellation nothing is consumed or reclaimed but the replies of the calls under way |
| `Backoff.ExponentialBackoff.constructor` | internal/worker/worker.go:47-53 | the backoff starts at the minimum |
| `Backoff.ExponentialBackoff.Next` | internal/worker/worker.go:339-348 | after k failures in a row the delay is min(max, minimum * 2^k) times 0.75 + r / 2 for the random r, in whole nanoseconds toward the middle, so within 25% of it, and the stored value stays within the bounds |
| `Backoff.ExponentialBackoff.Reset` | internal/worker/worker.go:350-352 | a success brings the stored value back to the minimum |
| `Partition.FnvVectors` | internal/queue/producer.go:112-116 | the hash, and the partitions it gives, agree with published FNV-1a values |
| `Partition.PartitionIsResidue` | internal/queue/producer.go:112-116 | for every key the partition is the residue of its FNV-1a hash by the partition count |
| `Partition.NamesDistinct` | internal/bootstrap/partitions.go:42-49 | distinct partitions have distinct streams and groups |
| `Partition.NamesExact` | internal/bootstrap/partitions.go:42-49 | the names of a partition's stream and group are the base, the separator and the number in canonical decimal |
| `Partition.ApartIff` | internal/config/validator.go:134-136 | a name differs from the streams of all partitions if and only if it is not the base name, `:partition:` and a canonical decimal below the count; every colliding name passes the validator |
| `Partition.Groups.SetupPartitions` | internal/bootstrap/partitions.go:16-39 | it succeeds exactly when no creation failed, and then every stream and group that routing can ask for exists, and nothing else was created; otherwise exactly the groups before the first failed one were |

## Left out

- The Redis client and server beyond the commands' effects: networking, automatic retries, persistence, failover.
- JSON and UUID encoding: envelopes are values, job ids are fresh, a payload that does not decode is a constructor.
- The HTTP layer, configuration loading, health checks, logging, process wiring, and the placeholder processor.
- Storage and aggregation: the repository has no code for them.
- `GetPendingInfo`, and `List` and `Count` of the dead letter stream, which only read.
- The reclaim lock of `tryReclaim`: the spacing of reclaims is proved without it, for any number of scanning workers.
- The poll and reclaim loops of the worker are a state machine (`Pool`) and not methods, since their select statements only choose among its steps.
- Floating point: ratios, scores and jitter are exact reals, and the conversion of an estimate beyond the int64 range is not modelled apart from the wrap-around of the product.
- Delivery.Config.Valid: assumes that the dead letter stream is not a partition's stream, which the validator does not check; a stream shared by both is not modelled. Partition.ApartIff is the exact condition on the name.
- Reclaim.ReclaimStale: works on one group's pending list and stored entries and not on the `Cluster` server; a bound on the ids that exist during the scan stands for the termination of a scan under interference.
- Gate.CircuitLatch: assumes every MAXLEN in use, the one a requeue passes included, above the threshold; Latch.BreaksIff says for which configurations some run ends the latch otherwise.
- Depth.WorkerKeepsDepth: assumes, as all of the delivery model does, a dead letter stream of its own; Depth.CollisionShortens shows what a shared one would do.
- Metrics.FreshnessOfDecision: counts from the timestamp; how long the queries before it took is not bounded, since the stores after them are not.
- Pool.DrainEnds: a tick of the reclaim loop after cancellation, whose command a cancelled context stops before the server, is no step of the model.
- Throttler.RateLimitExact: assumes CircuitOpenScore of at least 1 and an age whose nanosecond product fits; the drain-rate fallback of computeRetryAfter is unreachable under the validator.
