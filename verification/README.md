# Calligraphy: a verification model

Calligraphy is a job platform: an API accepts jobs into Postgres and hands them to workers
through Redis streams; workers claim a job, run it under a lease, record the outcome and ack
the stream entry; a leader promotes due retries, reaps the deliveries of dead workers and
sweeps up what fell between the two stores. Nothing is atomic across Postgres and Redis, and
every process may die between any two steps. This project models that protocol, the write
batcher, the worker pool, the backoff policy and the TextRank handler, and proves what they
promise.

## How it is organised

- `job.dfy`, `outcomes.dfy`: statuses and their legal edges, admission, the error taxonomy and
  how a finished attempt is routed to an outcome write.
- `rows.dfy`: the jobs table. Every write of the store is one conditional UPDATE, so a
  statement is a value and `Exec` is its effect. All other modules share this definition.
- `fencing.dfy`: theorems about every history of statements whatever. They assume nothing
  about who sends a statement, when, or how often, so duplicate deliveries, zombie workers,
  overlapping leaders and crashes are all covered.
- `protocol.dfy`: the global state (table, streams, pending list, delayed set, runners,
  recorders, leader tasks, outstanding enqueues, receipts and flips, one clock) and its 28
  atomic steps. A run is any sequence of steps. A crash is a participant whose remaining steps
  never come, so every crash point and every interleaving is a run.
- `budget.dfy`: attempt budget, durable before ack, the ownership ledger of a run and the
  termination measure, over all runs and without timing assumptions.
- `delivery.dfy`, `stranding.dfy`, `recoverability.dfy`: no job is stranded in a timely run,
  exactly which steps of any run strand one, three concrete runs in which they do, and recovery
  from every state a timely run reaches.
- `schedule.dfy`, `envelopes.dfy`: an enqueue somebody comes to owe is on time, until when, and
  a run in which one is early after that; and every envelope anywhere describes its job.
- `tables.dfy`, `batch.dfy`, `ownership.dfy`, `stale.dfy`: the simple recorder and the batched
  flush, the refinement between them, replay after an ambiguous commit, why the operations of
  any run meet the refinement's conditions, and a run after which the reported flags differ.
- `batchlog.dfy`, `batchloop.dfy`: what a batcher does to the tables over time, as a log of
  arrivals, other processes' writes and flushes, with theorems about every log; and the channel
  loop that writes such a log, as a machine.
- `store.dfy`, `batcher.dfy`, `queue.dfy`, `runner.dfy`, `recovery.dfy`, `server.dfy`,
  `pool.dfy`: the stateful classes, method by method, with the failures each call can meet as
  parameters: lost, landed, or landed with the answer lost.
- `wire.dfy`, `refinement.dfy`, `moves.dfy`: the classes against the protocol. The queue
  carries the protocol's Redis state, and the calls of a runner, of the leader's duties and of
  the API are, one after the other, runs of the protocol; so what holds of its runs holds of
  the store and the queue.
- `backoff.dfy`, `textrank.dfy`, `graphs.dfy`, `summary.dfy`, `sentences.dfy`: the loops and
  scanners, proved against closed forms and reference definitions.

## Assumptions

- One database clock and one Redis clock that agree and never run backwards.
- The fencing, budget, ledger, batching and durable-before-ack results need nothing else.
- The no-strand and recoverability results are about timely runs: a promotion flip does not
  land on a RETRYING row after the entry it followed has been decided, and a receipt does not
  land after a dead-letter requeue of its job. The code sends both writes unfenced. What
  happens in runs that are not timely is given exactly: `Delivery.StrandedExactly` shows that
  over any run a job is ever stranded if and only if, with nothing of the job on its way, a
  receipt lands on a PENDING row without a marker or a promotion flip lands on a RETRYING row
  with one. `Stranding.LateReceiptStrands`, `Stranding.LateFlipStrands` and
  `Stranding.OrdinaryReceiptStrands` are runs in which that happens. The package comment of
  internal/recovery claims that overlapping leaders cost only duplicated effort; a flip delayed
  across a change of leader is the exception.
- An entry is spent once its holder has decided it: a claim won or lost, a reap that matched,
  a row read as not PENDING, or a fresh copy put on the wire in its place. Nobody's code reads
  this bookkeeping.
- Attempt-row and event inserts that are best effort in the code may be lost where a fault
  parameter says so, and otherwise succeed.
- Real numbers stand for floats. Character classes, lower-casing, logarithms, the words of a
  sentence, random draws, clocks and handler results are parameters.

## Where the code and its comments differ

- The batch update reports a completion by job id alone, so a stale completion batched with a
  live one of the same job is reported as applied. `Batch.FlagsAgreeExactly` gives the exact
  condition, and `StaleCompletion.StaleIsCredited` a run that reaches it.
- A multi-row UPDATE leaves it to Postgres which of several matching completions of one claim
  it takes. The model lets it take any, and `Batch.FlushJobsRefinesExactly` says exactly when
  that choice, or the reordering of kinds, shows. In runs of the protocol a claim has one write.
- `summaryTextRank` slices out of range for a requested length above 600 on a text with more
  sentences than that. No job meets it: the handler clamps the request to 1..10 first
  (`Summary.ClampedNeverSlicesOut`).
- The backoff comment promises a ceiling without overflow. For a policy as given to `New` that
  holds for all attempts exactly if the base is not negative and no doubling below the cap
  leaves 64 bits (`Backoff.ClosedFormExactly`); in terms of the cap alone, if everything below
  it can be doubled (`Backoff.SafeCaps`).
- The cancel flag raised after a cancelled row is best effort: its error is dropped.
- Nothing about a claim asks for the time: a copy of a delivery skips the backoff. A repair
  sweep lists a job only once it is due (`Schedule.OwedOnTime`), but the enqueue it then owes
  knows nothing of a claim that comes first: until the job's next epoch it is on time
  (`Schedule.OnTimeUntilClaimed`), and `Schedule.OvertakenIsEarly` is a run in which, after a
  claim and a failure, it starts the retry early.
- Reaping draws the backoff twice, so the parked score and the row's schedule differ there. In
  the runner they are equal, and `Runners.Runner.Finish` says so.

## Model

| member | source | states |
|---|---|---|
| Job.AdmitAttempts | internal/job/job.go:207-213 | a budget is admitted exactly if the request lies in 0..25: a request in 1..25 is the budget, and zero asks for 5 |
| Outcomes.WrappingKeepsOutcome | internal/job/errors.go:95-112 | context wrapped around or inside an error chain never changes where a finished attempt is routed |
| Outcomes.MarksDecide | internal/worker/runner.go:208-287 | for every error and cause, exactly when the write is the completion, the failure, the cancellation, the retry, the dead letter or none, told by the marks alone: a lost lease outranks a cancellation, that an interruption, that a permanent failure; anything else is another attempt unless it was the last one |
| Outcomes.MarksName | internal/worker/runner.go:208-225 | what the attempt row calls the attempt, told by the same marks: all seven names, each exactly |
| Fencing.EpochMonotone | internal/store/store.go:154-176 | over any history a job's epoch never falls and its row never vanishes |
| Fencing.ReleasedForever | internal/store/store.go:154-273 | a claim once released or superseded stays released whatever statements follow |
| Fencing.StaleWritesBounce | internal/store/store.go:180-273 | no outcome write or lease renewal carrying a released epoch is applied at any later point |
| Fencing.OwnershipChangeReleases | internal/store/store.go:154-454 | an applied claim, outcome, reap, cancel or requeue releases every epoch handed out before it |
| Fencing.ClaimEpochsIncrease | internal/store/store.go:154-176 | each epoch of a job is handed out by at most one claim |
| Fencing.OwnershipLedger | internal/store/store.go:154-454 | in every history epoch = claims + reaps + pre-run cancels + requeues, and claims = outcomes + reaps + 1 if running |
| Fencing.CompletedOnce | internal/store/store.go:196-210 | at most one Complete is ever applied per job, exactly when it is COMPLETED, and only a COMPLETED job has a result |
| Fencing.FinishedIsFrozen | internal/store/store.go:196-256 | a COMPLETED, FAILED or CANCELLED row never changes again, its result and epoch included |
| Fencing.RunningHoldsLatestClaim | internal/store/store.go:154-176 | a RUNNING row carries the epoch of the job's latest applied claim |
| Fencing.ExactlyOnceResult | internal/store/store.go:196-210 | the applied Complete was written by the holder of the latest claim, is the only one, and its result is what every later state holds |
| Fencing.NoClaimAfterFinish | internal/store/store.go:154-210 | a finished job is never claimed again |
| Fencing.EveryChangeIsLegal | internal/job/statemachine.go:27-51 | every status change any statement makes is an edge of the transition table |
| Fencing.EdgesExactly | internal/job/statemachine.go:27-51 | a status change is in the transition table if and only if some statement makes it |
| Fencing.TerminalExactly | internal/job/job.go:65-74 | the terminal statuses are exactly those nothing leaves but a requeue of a dead letter |
| Fencing.ColumnsAlwaysAgree | internal/store/store.go:154-589 | in every history a row is leased exactly while RUNNING, stamped completed exactly when terminal, started exactly once claimed, has a result exactly when COMPLETED, an error when failed, dead or waiting to be retried, and a worker when RUNNING but none when RETRYING |
| Fencing.SubmissionIsFixed | internal/store/store.go:89-589 | what a submission fixed, the description, the budget and the time of creation, never changes |
| Fencing.ReapedExactlyWhenSilent | internal/store/store.go:420-449 | in every history a RUNNING job can be reaped if and only if the latest applied claim or renewal, its clock plus its ttl, lies more than the grace in the past |
| Fencing.LeaseProtects | internal/store/store.go:154-192 | from a claim or renewal applied at t with a ttl on, while the claim is open and no renewal promises less, no reap whatever applies to its job until t + ttl |
| Fencing.FirstReceiptStays | internal/store/store.go:123-134 | a receipt once written stays until an operator requeues the job, however many others arrive |
| Fencing.IdempotencyKeysUnique | internal/store/migrations/0001_init.sql:51-54 | in every history at most one job holds a (type, key) pair |
| Protocol.RunIsHistory | internal/store/store.go:154-589 | the jobs table of any protocol run is the table of the statements it sent, so the history theorems hold of every run |
| Budget.InvStep | internal/worker/runner.go:199-310 | every step keeps the invariant relating rows, grants, submitted writes and runners |
| Budget.GrantsAdded | internal/store/store.go:154-176 | only a winning claim adds a grant, under an epoch nobody holds |
| Budget.LandReleases | internal/worker/runner.go:232-287 | a write that has run leaves its claim released, applied or not |
| Budget.InvAt | internal/worker/runner.go:199-310 | that invariant holds in every state of every run |
| Budget.AttemptBudget | internal/worker/runner.go:253-286 | attempt_count never exceeds max_attempts, PENDING and RETRYING rows are strictly below it, and a RUNNING row is in 1..max with a lease, although the claim checks nothing |
| Budget.ReleasedForever | internal/store/store.go:154-273 | fencing holds along every run |
| Budget.DurableBeforeAck | internal/worker/runner.go:289-306 | whenever a runner acks a claim it won, a write of that claim has run, the row is not RUNNING at its epoch and never is again |
| Budget.RunLedger | internal/store/store.go:154-454 | the ownership ledger and exactly-once completion hold in every state of every run |
| Budget.MeasureDrops | internal/job/statemachine.go:27-51 | every non-requeue update leaves status and measure alone or follows a legal edge and lowers the measure |
| Budget.MeasureSpent | internal/job/statemachine.go:27-51 | between requeues status changes plus the remaining measure never exceed the starting measure |
| Budget.BoundedStatusChanges | internal/job/statemachine.go:27-51 | between requeues a job changes status fewer than 3 * max_attempts times |
| Delivery.LiveKept | internal/recovery/recovery.go:321-344 | a live delivery of a job that ends a step PENDING survives the step or is replaced |
| Delivery.DecidedAway | internal/recovery/recovery.go:330-342 | an entry is only decided away from a PENDING row by putting a fresh copy on the wire |
| Delivery.WasLive | internal/recovery/recovery.go:129-147 | a timely step leaves a handed row PENDING only if the job was live |
| Delivery.InvStep | internal/recovery/recovery.go:129-344 | every timely step keeps the delivery invariant |
| Delivery.InvAt | internal/recovery/recovery.go:129-344 | the delivery invariant holds in every state of every timely run |
| Delivery.NoJobStranded | internal/recovery/recovery.go:129-344 | in every state of every timely run a PENDING row handed to Redis has a live delivery and every other PENDING row has the NULL marker the orphan sweep looks for |
| Delivery.StrandingSteps | internal/recovery/recovery.go:129-147 | in any state of any run, a step strands a job that was not stranded if and only if nothing of the job is on its way and a receipt lands on its PENDING row without a marker or a flip on its RETRYING row with one |
| Delivery.StrandedExactly | internal/recovery/recovery.go:129-147 | over any run, a job is ever stranded if and only if one of those two writes landed so at some step |
| Delivery.BaseAt | internal/recovery/recovery.go:129-344 | what holders know of their entries and who is past a decision holds in every state of every run, timely or not |
| Delivery.OnlyDecidedEntriesAreAcked | internal/queue/queue.go:284-292 | an entry leaves a stream only by the ack of whoever decided it |
| Schedule.OwedOnTime | internal/recovery/recovery.go:258-299 | whoever comes to owe an enqueue owes the next delivery of a PENDING job (a RETRYING one before a flip), parked until the time its row says or due by then |
| Schedule.OnTimeUntilClaimed | internal/recovery/recovery.go:258-299 | over any run such an enqueue stays the next attempt and on time until a claim, a cancellation or a requeue starts the job's next epoch |
| Schedule.OvertakenIsEarly | internal/store/store.go:154-176 | a concrete run in which an enqueue overtaken by a claim starts the retry before its time |
| Schedule.ParkedUntilDue | internal/queue/queue.go:383-390 | whatever a step takes out of the delayed set was due, and is on the stream then |
| Schedule.LeaderWaits | internal/queue/queue.go:424-434 | over any run, whoever held or renewed an entry at some moment, no leader takes it before the minimum idle time has passed since |
| Envelopes.AlwaysSelfContained | internal/job/job.go:238-275 | in every state of every run each envelope in a stream, in the delayed set, in a worker's or leader's hands or about to be sent describes its job exactly as submitted |
| Stranding.LateReceiptStrands | internal/api/server.go:272-277 | a concrete run, timely but for its last step, in which a late receipt strands a requeued job |
| Stranding.LateFlipStrands | internal/worker/runner.go:278-284 | a concrete run, timely but for its last step, in which a late promotion flip strands a re-parked job whose ZADD was lost |
| Stranding.OrdinaryReceiptStrands | internal/recovery/recovery.go:142 | a concrete run in which a late flip does no harm but the ordinary receipt after it strands the job |
| Recoverability.DutySpares | internal/recovery/recovery.go:152-299 | a duty about one job undoes no other job's recovery |
| Recoverability.RecoverJob | internal/recovery/recovery.go:152-299 | five leader duties suffice for any one job |
| Recoverability.EveryJobRecovers | internal/recovery/recovery.go:152-299 | from every state of every timely run a finite run of leader duties leaves every job terminal or claimable with a ready entry |
| Batch.FlushRow | internal/store/batch.go:280-367 | whatever the join, the flush decides each row by a matching completion if there is one, else by the first other matching operation |
| Batch.FlushJobsRefinesExactly | internal/store/batch.go:280-367 | for every batch, every join leaves the simple recorder's table if and only if no completion overtakes another kind on the same open claim and no two different completions carry the same open claim |
| Batch.FlushRefinesSync | internal/store/batch.go:280-429 | with distinct (id, epoch), whatever the join, the flush leaves the same jobs, attempt rows and events as one-at-a-time recording |
| Batch.FlushIgnoresOrder | internal/store/batch.go:280-367 | the jobs table is the same for every permutation of the batch |
| Batch.FlagsAgreeExactly | internal/store/batch.go:316-331 | the reported flags agree with the simple recorder exactly unless two completions share an id of which one is live |
| Batch.CompletionFlag | internal/store/batch.go:316-331 | a completion is reported as applied exactly if some completion of its job was open |
| StaleCompletion.BothSubmitted | internal/worker/runner.go:232-237 | a run (claim, silence, reap, claim again, both complete) in which a stale and a live completion of one job are both submitted |
| StaleCompletion.StaleIsCredited | internal/store/batch.go:316-331 | batched together, the stale completion of that run is reported as applied, recorded alone as fenced |
| Batch.FlushReleases | internal/store/batch.go:280-367 | after a flush every operation's claim is released |
| Batch.SettledReplay | internal/store/batch.go:256-278 | flushing operations whose claims are released and attempts present changes nothing and applies nothing |
| Batch.ReplayIsHarmless | internal/store/batch.go:256-278 | a second flush after an unseen commit, with any statements in between, changes no row, adds no event and reports every operation as not applied |
| Ownership.OwnersAt | internal/worker/runner.go:199-310 | in every run a claim belongs to one runner and is written once |
| Ownership.BatchesAreDistinct | internal/store/batch.go:280-429 | every batch of writes a run can submit meets the refinement's and the replay's conditions |
| BatchLog.FlushedAtMostOnce | internal/store/batch.go:256-278 | a batch of handed-out claims reaches the tables at most once, whatever the two transactions' fates and whatever others write in between |
| BatchLog.ReportsAreDurable | internal/store/batch.go:28-32 | nobody is told recorded unless every claim of the batch is released and every attempt row present |
| BatchLog.UnseenReportsFenced | internal/store/batch.go:256-264 | after an unseen commit nobody is told applied, though the writes are there |
| BatchLog.LogIsHonest | internal/store/batch.go:28-32 | at every point of every log in which claims were handed out before their operations were sent, whoever was told recorded has the claim released on disk, whatever others wrote |
| BatchLog.FirstWriterWins | internal/store/store.go:289-299 | over every log an attempt row once written never changes |
| Recorders.SyncRecord | internal/store/batch.go:46-100 | a simple recorder call runs its UPDATE, then its attempt row, and an error never means anything but unconfirmed |
| Recorders.RecordCompletions | internal/store/batch.go:281-331 | the completions as one update, each flag set from the ids that came back |
| Recorders.RecordRest | internal/store/batch.go:332-368 | the other kinds one by one, each flag from its own rows affected |
| Recorders.FlushOnce | internal/store/batch.go:280-429 | a committed transaction leaves exactly the flushed tables and flags, a rolled-back one nothing |
| Recorders.FlushBatch | internal/store/batch.go:265-278 | with its one retry and whatever others write before it, the tables and every operation's one result are exactly those of the two transactions' fates |
| Recorders.Batcher.Wakeup | internal/store/batch.go:185-194 | one wake-up is one step of the machine: an input only arrives, the ticker flushes whatever is pending, a receive flushes once the batch is full; nothing else happens to the tables |
| Recorders.Batcher.Drain | internal/store/batch.go:195-205 | the stop drain polls until a poll finds the channel empty, takes exactly what was sent before that, in order, and flushes nothing by itself |
| Recorders.Batcher.FlushPending | internal/store/batch.go:178-184 | the pending operations are flushed into the tables as one batch and resolved with that flush's results, in order |
| Recorders.Batcher.Loop | internal/store/batch.go:172-210 | from start to Stop the log is exactly that of the machine on the same script and the tables are what that log makes of them; every operation got the result of its flush; and if every claim had been handed out when its operation was sent, whoever got a report has its claim released on disk |
| BatchLoop.PendingBounded | internal/store/batch.go:172-194 | at every wake-up before the stop fewer than max(1, maxSize) operations are held, and no flush before it is larger than that or empty |
| BatchLoop.FlushesWhenDue | internal/store/batch.go:185-194 | a wake-up flushes if and only if it is a tick with something held or a receive that fills the batch, and then it flushes everything held |
| BatchLoop.NothingLost | internal/store/batch.go:172-194 | at every wake-up what was sent is what was flushed, then what is held, then what waits in the channel, in order |
| Stores.FlipIsHistory | internal/store/store.go:528-541 | the multi-row promotion flip equals single flips in any order |
| Stores.Store.CreateJob | internal/store/store.go:89-121 | inserts exactly the fresh row, PENDING and unmarked with this budget and schedule, and one event, or returns the job holding the key and changes nothing |
| Stores.Store.SetEnqueued | internal/store/store.go:123-134 | the row is marked afterwards, a marker it had is kept, and nothing else of it or of any other row changes |
| Stores.Store.ClaimJob | internal/store/store.go:154-176 | a grant exactly for a PENDING or RETRYING row, under the next epoch and attempt; the row is then RUNNING under this worker with a lease of now + ttl, its first start kept; nothing else changes, and nothing at all without a grant |
| Stores.Store.ExtendLease | internal/store/store.go:180-192 | renews to now + ttl exactly while the row is RUNNING under this epoch, and changes nothing else |
| Stores.Store.RecordOutcome | internal/store/store.go:196-273 | exactly on the row RUNNING under this epoch each of the five writes leaves the columns and the event it should, and otherwise nothing changes |
| Stores.Store.RecordAttempt | internal/store/store.go:289-299 | the coordinates are taken afterwards by whoever wrote them first, and no other row of the history changes |
| Stores.Store.CancelJob | internal/store/store.go:384-397 | exactly a PENDING or RETRYING row is cancelled, stamped and fenced, with its event |
| Stores.Store.ReapJob | internal/store/store.go:420-449 | exactly a RUNNING row whose lease ran out more than the grace ago goes to the dead letters if its budget is spent and otherwise to RETRYING after the delay, without worker and lease, under a new epoch, reporting its former worker |
| Stores.Store.MarkPromoted | internal/store/store.go:528-541 | exactly the listed RETRYING rows become PENDING, and the count says how many |
| Stores.Store.RequeueDeadLetter | internal/store/store.go:566-589 | exactly a DEAD_LETTER row restarts: PENDING and due now under a new epoch, with no attempts, marker, error, result or stamps |
| Stores.Store.ListExpiredRunning | internal/store/store.go:456-467 | different rows, only RUNNING ones whose lease ran out more than the grace ago, exactly min(limit, how many there are) of them, all of them below the limit |
| Stores.Store.ListUnenqueued | internal/store/store.go:499-513 | different rows, only PENDING ones without marker that are due and older than the age, exactly min(limit, how many there are) of them, all of them below the limit |
| Stores.Store.ListStuckRetrying | internal/store/store.go:515-526 | different rows, only RETRYING ones overdue by more than the age, exactly min(limit, how many there are) of them, all of them below the limit |
| Queues.DeliveredMoves | internal/queue/queue.go:208-213 | a group read moves exactly the oldest undelivered entries into the pending list |
| Queues.AckSafe | internal/queue/queue.go:284-292 | acking an entry once read removes it and keeps every undelivered entry, and a second ack changes nothing |
| Queues.AckUnread | internal/queue/queue.go:284-292 | acking an entry nobody has read deletes it from what waits and nothing else |
| Queues.HeartbeatProtects | internal/queue/queue.go:298-310 | after a heartbeat no auto-claim takes the entry until the minimum idle time has passed again |
| Queues.ReadyIsLengthMinusPending | internal/queue/queue.go:488-515 | stream length minus pending count is the true number of ready entries |
| Queues.FetchIsStrictPriority | internal/queue/queue.go:201-222 | without poison the non-blocking pass returns the first max of high, default, low, in FIFO order |
| Queues.FullFetchStops | internal/queue/queue.go:205-207 | once a fetch is full, lower priorities are asked for nothing |
| Queues.AbandonedSound | internal/queue/queue.go:424-434 | an auto-claim takes only held entries idle long enough, oldest first, at most a batch |
| Queues.AbandonedComplete | internal/queue/queue.go:424-434 | an auto-claim takes every such entry unless the batch is full, and then it is full of older ones |
| Queues.DecodedAsTheyStand | internal/queue/queue.go:260-281 | exactly the entries that decode are delivered, as they stand |
| Queues.PoisonExactly | internal/queue/queue.go:260-281 | exactly the others are acked away, and no entry is both |
| Queues.Queue.Enqueue | internal/queue/queue.go:153-176 | a future job parks in its delayed set, any other goes to the back of its stream, and the reference says which |
| Queues.Queue.Fetch | internal/queue/queue.go:201-222 | each stream gives up exactly its share of oldest entries, high first, then what the sound deliveries so far leave free of default, then of low, and the result is what the shares decode to, each held by this consumer from now on |
| Queues.Queue.Decode | internal/queue/queue.go:260-281 | an entry that was read stays pending exactly if it decodes, and is then returned, in order; poison is acked away |
| Queues.Queue.Ack | internal/queue/queue.go:284-292 | exactly this entry leaves the stream and the pending list, whether held, acked before or never read; what waits loses it only in the last case |
| Queues.Queue.Heartbeat | internal/queue/queue.go:298-310 | an entry still held gets a new clock under this consumer, an acked one stays gone, and no entry arrives, moves, leaves or changes hands otherwise |
| Queues.Queue.ScheduleRetry | internal/queue/queue.go:316-329 | the envelope is parked once under this score, whatever score it had, and nothing else parked changes |
| Queues.Queue.PromoteStream | internal/queue/queue.go:383-390 | due members move to the back of the stream, earliest first, none lost, none early, none due left below the batch size |
| Queues.Queue.PromoteDue | internal/queue/queue.go:395-416 | the same for every priority reached before an error, and nothing changes for the others |
| Queues.Queue.ReapStream | internal/queue/queue.go:424-444 | the abandoned deliveries of a priority change hands; only poison leaves the pending list |
| Queues.Queue.ReapAbandoned | internal/queue/queue.go:424-446 | every delivery returned is still held and carries its entry's envelope; only poison leaves a pending list |
| Queues.Queue.Depth | internal/queue/queue.go:491-520 | the clamped difference is the true ready count |
| Runners.WroteReleases | internal/worker/runner.go:289-306 | an outcome write once attempted leaves its claim released, applied or not |
| Runners.FlushOfOne | internal/store/batch.go:280-429 | a batch of one is the simple recorder |
| Runners.CallRecorder | internal/worker/runner.go:232-287 | either recorder, any fault: a report comes back exactly if the record was confirmed, and means the claim is released; an applied report means this write decided the row |
| Runners.NextAttempt | internal/worker/runner.go:266-272 | an interrupted attempt retries at once, any other after the drawn backoff |
| Runners.Runner.Beat | internal/worker/runner.go:162-177 | one tick renews both halves of the lease and then polls the flag; what it reports is decided by the table it meets and the flag alone, and the pending entry gets exactly the new clock |
| Runners.Runner.Heartbeat | internal/worker/runner.go:151-179 | how many ticks run and what stops them is exactly the first tick to find the claim gone or the flag raised; the table is everybody else's statements and our renewals up to there, and no entry moves |
| Runners.CausesAreReal | internal/worker/runner.go:151-179 | a cause is neither invented nor missed: a lost lease is one released for good, found by a renewal; a cancellation is a flag seen with the claim open or the store out of reach; and no earlier tick saw either |
| Runners.Runner.Finish | internal/worker/runner.go:199-310 | under an open claim the row ends COMPLETED with the result, CANCELLED, FAILED, RETRYING, DEAD_LETTER or untouched exactly as the marks of error and cause say, with error, schedule and stamps, and no other row changes; a retry is due at once after an interruption and otherwise after the draw's share of the window rounded down; an unconfirmed record leaves Redis alone, a confirmed one means the claim is released and the entry acked; exactly an applied retry is parked, due when its row is |
| Runners.Runner.RecordAndAck | internal/worker/runner.go:232-306 | record, then hand-off, then ack: the result is unconfirmed exactly under a fault that hides the commit, and then nothing in Redis changes; otherwise the claim is released, the entry acked, and an applied retry parked unless its ZADD is lost |
| Runners.Runner.Execute | internal/worker/runner.go:112-144 | the same under the heartbeats' true cause, a job without a handler failing for good; it is reported exactly if there was a write and it was confirmed; only this entry can leave, only once the claim is released, never on an unconfirmed record, and without faults it does leave unless the lease was really lost |
| Runners.Runner.Run | internal/worker/runner.go:74-144 | a whole delivery: a won claim is executed with the same exact row, cause, ticks, schedule and result; the entry leaves only after a lost arbitration or a released claim, and nothing parks but a recorded retry |
| Recovery.SweptComposes | internal/store/store.go:420-449 | a row is reaped at most once in a pass, and never into PENDING |
| Recovery.PassStep | internal/recovery/recovery.go:152-216 | handling one more delivery keeps everything a pass promises |
| Recovery.PromotionIsFresh | internal/recovery/recovery.go:129-147 | every envelope that left the delayed set was due and is ready on a stream |
| Recovery.Leader.Put | internal/recovery/recovery.go:334-339 | a reference comes back only for an entry that is on the stream |
| Recovery.MovedDrains | internal/queue/queue.go:383-390 | a promotion that moved fewer than a batch left nothing due behind |
| Recovery.Leader.Recopy | internal/recovery/recovery.go:330-341 | exactly the next attempt of a PENDING row goes on the wire, once |
| Recovery.Leader.AckUnreaped | internal/recovery/recovery.go:321-344 | the entry of an unreaped job stays exactly if its row cannot be read, is not there, or is PENDING and the fresh copy is not confirmed, or if the ack is lost; a copy is sent exactly for a PENDING row |
| Recovery.Leader.Settle | internal/recovery/recovery.go:189-213 | after a reap the next attempt is parked for a RETRYING row and the entry is acked |
| Recovery.Leader.ReapOne | internal/recovery/recovery.go:163-216 | one abandoned delivery: at most its own row is reaped, and only if expired; its entry goes only if the row is no longer expired and the job does not depend on it; a reap leaves its attempt row, under the former worker's name |
| Recovery.Leader.ReapAbandoned | internal/recovery/recovery.go:152-161 | every entry that leaves a pending list in a pass was poison or its job is not PENDING or has a fresh copy; without faults every delivery is settled and its row no longer expired |
| Recovery.Leader.Promote | internal/recovery/recovery.go:129-147 | a row becomes PENDING only with its envelope ready; every envelope that left the delayed set was due and is ready; below the batch size nothing due stays; exactly the promoted jobs' RETRYING rows flip, and an error or a lost flip leaves every row alone |
| Recovery.Leader.SweepRow | internal/recovery/recovery.go:229-250 | one stale row is reaped from the table, only it and only if expired, and its next attempt parked; exactly what was lost on the way is missing |
| Recovery.Leader.SendBack | internal/recovery/recovery.go:236-249 | after a stale row's reap its attempt row is taken and a RETRYING row's next attempt is parked under the drawn delay |
| Recovery.Leader.SweepStaleRunning | internal/recovery/recovery.go:223-251 | min(limit, stale rows) are found, and without faults exactly that many rows change, each stale before and none after, every one sent back with its next attempt parked; so below the limit no lease is left that ran out more than the grace ago |
| Recovery.Leader.RepairRow | internal/recovery/recovery.go:264-276 | an orphan is enqueued before its receipt is written |
| Recovery.Leader.RepairUnenqueued | internal/recovery/recovery.go:258-277 | min(limit, orphans) are found, and without faults exactly that many rows get their receipt, each backed by an entry; a row changes, and a delivery goes on the wire, only for a PENDING row without marker that is due and old enough, and the delivery is that row's next; below the limit none is left |
| Recovery.Leader.UnstickRow | internal/recovery/recovery.go:288-298 | a stuck retry is enqueued before its row flips |
| Recovery.Leader.RepairStuckRetrying | internal/recovery/recovery.go:282-299 | min(limit, overdue rows) are found, and without faults exactly that many RETRYING rows flip; a row flips, and a delivery goes on the wire, only for a RETRYING row overdue by more than the age, the delivery being that row's next; below the limit none is left; and no row ever flips without a copy |
| Wire.AddCarries | internal/queue/queue.go:153-176 | an XADD keeps the three streams and delayed sets the protocol's one Redis state |
| Wire.ParkCarries | internal/queue/queue.go:316-329 | so does a ZADD |
| Wire.AckCarries | internal/queue/queue.go:284-292 | so does an XACK with its XDEL, once or twice |
| Wire.RenewCarries | internal/queue/queue.go:298-310 | so does a heartbeat's XCLAIM |
| Wire.ReadCarries | internal/queue/queue.go:208-213 | so does a read of the next entry |
| Wire.TakeCarries | internal/queue/queue.go:424-434 | so does an auto-claim of an entry |
| Wire.MoveCarries | internal/queue/queue.go:383-390 | so does a promotion's ZREM and XADD in one script |
| Refinement.ClaimRefines | internal/worker/runner.go:74-103 | a claim on the table is the protocol's claim step: won exactly with the grant the runner then works under, lost exactly with an ack to come |
| Refinement.BeatRefines | internal/worker/runner.go:162-177 | one tick, with either store reachable or not, is a run of heartbeat and lease renewal |
| Refinement.FinishRefines | internal/worker/runner.go:199-310 | whatever Finish does under any faults, a run of this runner's and its recorder's steps does: submit, land if and when the write ran, confirm if it was reported, hand off, ack |
| Refinement.UnreapedRefines | internal/recovery/recovery.go:321-344 | the classification of an unreaped entry, its fresh copy and its ack are a run of the leader's steps |
| Refinement.ReapRefines | internal/recovery/recovery.go:163-216 | whatever a reap of one delivery does under any faults, a run of the leader's reap, classify, re-enqueue, hand-off and ack steps does |
| Refinement.SweepRefines | internal/recovery/recovery.go:229-250 | a stale row's sweep is a run of the sweep and its hand-off |
| Refinement.RepairRefines | internal/recovery/recovery.go:264-276 | an orphan's repair is a run of list, enqueue and receipt |
| Refinement.UnstickRefines | internal/recovery/recovery.go:288-298 | a stuck retry's repair is a run of list, enqueue and flip |
| Refinement.HandOffRefines | internal/api/server.go:272-277 | the API's enqueue and receipt are a run of the same two steps |
| Moves.ReadRefines | internal/queue/queue.go:201-222 | reading k entries of a stream is k fetches by as many workers, each then holding its delivery as a claim expects it |
| Moves.TakeRefines | internal/queue/queue.go:424-434 | an auto-claim of an idle entry leaves the leader holding its delivery as a reap expects it |
| Moves.PassRefines | internal/recovery/recovery.go:129-147 | a whole promotion pass, over however many priorities it reached and with its flip or without, is a run of promotions and flips |
| Moves.SubmitRefines | internal/api/server.go:251-283 | a submission, whatever fails in it, is a run of insert, enqueue and receipt |
| Moves.RequeueRefines | internal/api/server.go:409-432 | a dead-letter requeue, whatever fails in it, is a run of requeue, enqueue and receipt |
| Moves.CancelRefines | internal/api/server.go:334-368 | a cancellation's write is the protocol's step |
| Refinement.NothingStranded | internal/recovery/recovery.go:129-344 | whenever the store and the queue are what a timely run says, a PENDING row with a receipt has a copy in a stream or parked |
| Refinement.FinishStrandsNothing | internal/worker/runner.go:199-310 | a runner's Finish, whatever fails in it, leaves no job stranded in the store and the queue |
| Server.Api.HandOff | internal/api/server.go:272-277 | a receipt is only ever written for an envelope that is on the wire |
| Server.Api.Submit | internal/api/server.go:251-283 | a submission is accepted exactly if it is admitted, its id and key are free and the write is confirmed; accepted means exactly the fresh row is durable, due when asked, and without faults its first delivery is parked until then or ready now, under a receipt that says which; a refused or replayed one changes nothing |
| Server.Api.RequeueDead | internal/api/server.go:409-432 | with a confirmed write exactly a dead letter restarts from scratch, every old claim is fenced, and without faults its first delivery is ready under a receipt that names it |
| Server.Api.Cancel | internal/api/server.go:334-368 | by what was read: a finished job is left alone, a running one gets its flag, an idle one is cancelled exactly if it is still claimable when a confirmed write comes, and then every claim is fenced |
| Pools.Pool.Happen | internal/worker/pool.go:72-77 | a completion frees exactly its slot, a resize stores at least one, a pause is what was set; the counters count, and the bound holds |
| Pools.Pool.Dispatch | internal/worker/pool.go:130-146 | every fetched delivery is started once and no more than the bound ever run, completions in between included |
| Pools.Pool.Obtain | internal/worker/pool.go:113-146 | an error starts nothing and lengthens the pause by one step up to its limit; otherwise everything fetched is started under the target read and the pause is reset |
| Pools.Pool.Iterate | internal/worker/pool.go:89-147 | it asks exactly while not paused and fewer run than the target, and then for a full batch or for all that is free; what it starts is exactly what that ask brought back, the pause after an error is exactly one step longer up to its limit and after a fetch zero, and no more than the target it read ever run |
| Pools.Pool.Run | internal/worker/pool.go:84-149 | every ask is so decided by the pause flag, the latest target and the number then running, so free slots are always used; everything the asks brought back was started once and finished once; and at no moment did more run than the largest target: the initial one and those of exactly the events of the iterations |
| Pools.FreeSlotsAreUsed | internal/worker/pool.go:98-113 | what an iteration asks for in any snapshot: something exactly if there is a free slot and no pause, and never less than a full batch or all that is free |
| Backoff.CeilingMonotone | internal/retry/backoff.go:54-64 | the ceiling never shrinks with the attempt and never passes the cap |
| Backoff.CeilingDoubles | internal/retry/backoff.go:56-61 | each window up to the cap is twice the one before |
| Backoff.FirstWindow | internal/retry/backoff.go:50-58 | the first attempt waits within min(base, cap) |
| Backoff.SafeCaps | internal/retry/backoff.go:54-61 | a cap is overflow-free for every base exactly if everything below it doubles inside 64 bits |
| Backoff.ClosedFormExactly | internal/retry/backoff.go:50-64 | for every policy the wrapping loop equals min(cap, base * 2^(attempt-1)) at all 64-bit attempts if and only if the base is not negative and no doubling below the cap overflows |
| Backoff.RoundsDouble | internal/retry/backoff.go:54-61 | short of an overflow the loop variable is the doubled base until it passes the cap |
| Backoff.NoRoundWraps | internal/retry/backoff.go:54-61 | under a valid policy no doubling the loop performs leaves 64 bits |
| Backoff.CeilingLoop | internal/retry/backoff.go:50-64 | the early-stopping loop in wrapping 64-bit arithmetic, for any durations; for a valid policy it is the closed form |
| Backoff.Delay | internal/retry/backoff.go:50-66 | the draw's share of the window with its fraction dropped, toward zero for any durations; for a valid policy it is draw * ceiling rounded down, in [0, ceiling] |
| Backoff.DrawnIsTheShare | internal/retry/backoff.go:66 | the same of the specification every due time in the runner and the leader is computed by |
| TextRank.SumWeights | internal/handlers/articleanalysis/analyzer.go:242-247 | the sum over a map's values in any iteration order |
| TextRank.Spread | internal/handlers/articleanalysis/analyzer.go:257-260 | a node passes its share to every neighbour in any iteration order |
| TextRank.Sweep | internal/handlers/articleanalysis/analyzer.go:249-261 | one pass of the loops is one iteration of the definition |
| TextRank.PageRank | internal/handlers/articleanalysis/analyzer.go:235-265 | the two swapped arrays hold exactly the defined iterations: 1/n each at first, and then 0.15/n plus what every node passes on |
| TextRank.Exchange | internal/handlers/articleanalysis/analyzer.go:253-261 | what is sent equals what is received |
| TextRank.SharesAddUp | internal/handlers/articleanalysis/analyzer.go:253-258 | a node with out-weight passes on exactly 0.85 of its rank |
| TextRank.SharedByWeight | internal/handlers/articleanalysis/analyzer.go:253-260 | every neighbour gets its part of that in proportion to the weight of its edge, and nobody anything from an isolated node |
| TextRank.MassLaw | internal/handlers/articleanalysis/analyzer.go:249-261 | the ranks sum to 0.15 plus 0.85 times the previous mass on nodes with out-weight |
| TextRank.RankFloor | internal/handlers/articleanalysis/analyzer.go:249-261 | every rank is at least 0.15/n |
| TextRank.TotalBounds | internal/handlers/articleanalysis/analyzer.go:235-265 | the ranks always sum to something in [0.15, 1] |
| TextRank.ConservedExactly | internal/handlers/articleanalysis/analyzer.go:253-256 | from the first iteration on the sum is 1 exactly if no node is isolated |
| TextRank.IsolatedExactly | internal/handlers/articleanalysis/analyzer.go:242-256 | a node is isolated exactly if it has no edge of weight |
| TextRank.WeightsDecideRanks | internal/handlers/articleanalysis/analyzer.go:235-265 | the ranks depend on the weights alone |
| Graphs.WindowIsEnough | internal/handlers/articleanalysis/analyzer.go:302-310 | nothing pairs outside the window, so the bounded inner loop counts all pairs |
| Graphs.PairsAreCounted | internal/handlers/articleanalysis/analyzer.go:302-310 | the loops count each pair of positions at most four apart that hold the two words exactly once |
| Graphs.Cooccurrence | internal/handlers/articleanalysis/analyzer.go:292-310 | each weight is the number of pairs of positions at most four apart that hold the two words; the graph is undirected, loop-free and non-negative |
| Graphs.Overlap | internal/handlers/articleanalysis/analyzer.go:373-382 | walking the smaller set counts the intersection |
| Graphs.SimilarityIs | internal/handlers/articleanalysis/analyzer.go:359-391 | the similarity is the overlap over the sum of the logarithms of the lengths plus one, and zero without overlap |
| Graphs.SimilarityGraph | internal/handlers/articleanalysis/analyzer.go:359-391 | every two sentences are joined both ways by their normalised overlap |
| Summary.SortSorts | internal/handlers/articleanalysis/analyzer.go:402-407 | the sort is a sorted permutation |
| Summary.PickedIsTop | internal/handlers/articleanalysis/analyzer.go:398-411 | the selection is k of the first n, in reading order, each with a higher score than any left out, or the same and further up |
| Summary.TopIsUnique | internal/handlers/articleanalysis/analyzer.go:402-411 | there is only one such selection |
| Summary.SummaryTextRank | internal/handlers/articleanalysis/analyzer.go:332-417 | the top k of the first 600 sentences in reading order, k the request or 3, ranked by 30 iterations; out of range exactly when 600 < request < count |
| Summary.ClampedNeverSlicesOut | internal/handlers/articleanalysis/handler.go:60-65 | the handler's clamp keeps every request clear of the bad slice |
| Summary.Summarize | internal/handlers/articleanalysis/handler.go:60-75 | a job's summary always exists: the top min(k, count) sentences in reading order, k being 3 without a request and at most 10 |
| Sentences.RunStartsAt | internal/handlers/articleanalysis/analyzer.go:134-138 | a run of terminators is judged by its first character |
| Sentences.AtBoundary | internal/handlers/articleanalysis/analyzer.go:139-162 | lookbehind and lookahead decide exactly the defined endings |
| Sentences.SplitSentences | internal/handlers/articleanalysis/analyzer.go:115-166 | the scanner cuts exactly at the positions where a sentence ends by the positional definition |
| Sentences.NothingIsLost | internal/handlers/articleanalysis/analyzer.go:115-166 | the sentences joined, without white space, are the text without white space |
| Sentences.AllButTheLastEnd | internal/handlers/articleanalysis/analyzer.go:115-166 | every sentence begins and ends in ink, and all but the last end in a terminator |
| Sentences.CutsAreFollowedBySpace | internal/handlers/articleanalysis/analyzer.go:145-162 | after a cut comes white space or the end, so no number or run of terminators is cut in two |
| Sentences.CutExactly | internal/handlers/articleanalysis/analyzer.go:115-166 | a sentence ends at a position if and only if a whole run of terminators does that is no full stop of an abbreviation or a number, and the text is over or white space and a capital, digit or opening quote follow |
| Sentences.AbbreviationIsTheLastWord | internal/handlers/articleanalysis/analyzer.go:103-174 | whether a full stop belongs to an abbreviation depends on the word before it alone, and on exactly the fifteen listed |
| Sentences.SplitsAtEveryCut | internal/handlers/articleanalysis/analyzer.go:115-166 | cut where a sentence ends, a text has the sentences of its first part and then those of its second |

## Left out

- HTTP routing, authentication, JSON bodies, the TypeScript client, both command-line tools, the gRPC control hub, metrics, the workers table, the autoscaler and configuration parsing.
- The blocking pass of Fetch: Redis decides which stream wakes it and applies COUNT to each stream, so the pool is proved against the fetch contract instead.
- The dead-letter log stream in Redis: capped and never read by the protocol.
- The leader lock and the tick cadences: duties may be performed by anybody at any time.
- Executing a handler: its result, error or crash is arbitrary.
- Envelope encoding, UUIDs, name validation, payload limits and hashing: an envelope is a value, and an entry that does not decode is a flag.
- A member of the delayed set that does not decode.
- Millisecond truncation of delayed scores, updated_at columns and error-text bounds.
- The start cursor and scan limit of XAUTOCLAIM: the model scans every pending entry, oldest first.
- The order in which ZRANGEBYSCORE returns equal scores, and in which a sweep's SELECT returns rows.
- The batcher's channel capacity and a submitter's context: a submitter that stops waiting is an unconfirmed result.
- Attempt rows after a requeue: the counter restarts and the unique key drops the new rows, so completeness of the history is not claimed.
- Keyword selection, tokenization, paragraph splitting, syllables, readability, reading time and language detection: only the graph and ranking that keywords share with summaries are modelled.
- Invalid UTF-8: a text is a sequence of characters.
- Floating-point rounding in ranks and delays.
- Runners.CallRecorder: the operation is flushed as a batch of its own and nobody writes between the flush's two transactions; `batchlog.dfy` and `batcher.dfy` have both in general.
- Recovery.Leader.ReapOne: asks for a valid backoff policy, as do the other leader duties; other policies are in `backoff.dfy` and in the runner only.
- Runners.Runner.Run: other processes change the table between heartbeats, and Redis only through the entries this delivery does not touch; the protocol's runs cover every interleaving.
- Refinement.BeatRefines: others' statements between ticks are their own steps of the run, so the tick itself starts from the table they leave. The lemmas relate single calls, single rows and the promotion pass; any other pass or a whole delivery is such runs one after the other, with anybody's steps between.
- Moves.ReadRefines: the protocol has no entries that do not decode, so the queue that carries its state has none; what reads and reaps do with poison is in `queue.dfy`.
- Moves.TakeRefines: one entry at a time; an auto-claim of several takes them one after the other.
- Schedule.OwedOnTime: asks that the sweeps' age is not negative, as configured.
- Recovery.Leader.ReapAbandoned: other processes do not act within a pass; the protocol's runs cover every interleaving.
- TextRank.PageRank: asks that every neighbour is a node, which both graph builders guarantee.
