/** The jobs table. Every write the store makes is one conditional statement against one
    row, so it is atomic: here each statement is a value, and Exec is what it does to the
    table. The store class, the batcher and the protocol all use this one definition. */
module Rows {
  import opened Common
  import opened Job

  type WorkerId = int

  datatype StreamRef = InDelayedSet | InStream(entry: int)

  datatype Row = Row(
    spec: Spec,
    status: Status,
    epoch: int,
    lease: Option<int>,
    attempts: int,
    maxAttempts: int,
    enqueued: Option<StreamRef>,
    createdAt: int,
    scheduledAt: int,
    startedAt: Option<int>,
    completedAt: Option<int>,
    worker: Option<WorkerId>,
    result: Option<string>,
    error: Option<string>)

  type Jobs = map<JobId, Row>

  /** The five outcome writes of a finished attempt. */
  datatype Write =
    | Complete(result: string)
    | Fail(msg: string)
    | Retry(msg: string, nextAt: int)
    | Dead(msg: string)
    | CancelRun

  datatype Stmt =
    | Insert(id: JobId, spec: Spec, maxAttempts: int, scheduledAt: int)
    | MarkEnqueued(id: JobId, ref: StreamRef)
    | Claim(id: JobId, worker: WorkerId, ttl: int)
    | Extend(id: JobId, epoch: int, ttl: int)
    | Record(id: JobId, epoch: int, write: Write)
    | Cancel(id: JobId)
    | Reap(id: JobId, delay: int, grace: int)
    | Promote(id: JobId)
    | Requeue(id: JobId)

  /** A statement together with the database clock it ran at. */
  datatype Timed = At(now: int, stmt: Stmt)

  const LEASE_EXPIRED := "lease expired: worker presumed dead"

  predicate Claimable(s: Status) {
    s == Pending || s == Retrying
  }

  /** The fence: a write carrying this epoch still matches the row. */
  predicate Open(r: Row, epoch: int) {
    r.status == Running && r.epoch == epoch
  }

  /** The WHERE clause of each UPDATE. */
  predicate Matches(r: Row, t: Timed) {
    match t.stmt
    case Insert(_, _, _, _) => false
    case MarkEnqueued(_, _) => r.enqueued.None?
    case Claim(_, _, _) => Claimable(r.status)
    case Extend(_, epoch, _) => Open(r, epoch)
    case Record(_, epoch, _) => Open(r, epoch)
    case Cancel(_) => Claimable(r.status)
    case Reap(_, _, grace) => Expired(r, grace, t.now)
    case Promote(_) => r.status == Retrying
    case Requeue(_) => r.status == DeadLetter
  }

  function Recorded(r: Row, write: Write, now: int): Row {
    match write
    case Complete(res) =>
      r.(status := Completed, result := Some(res), error := None, completedAt := Some(now), lease := None)
    case Fail(msg) =>
      r.(status := Failed, error := Some(msg), completedAt := Some(now), lease := None)
    case Dead(msg) =>
      r.(status := DeadLetter, error := Some(msg), completedAt := Some(now), lease := None)
    case CancelRun =>
      r.(status := Cancelled, completedAt := Some(now), lease := None)
    case Retry(msg, nextAt) =>
      r.(status := Retrying, error := Some(msg), scheduledAt := nextAt, lease := None, worker := None)
  }

  /** The SET clause of each UPDATE. */
  function Updated(r: Row, t: Timed): Row {
    match t.stmt
    case Insert(_, _, _, _) => r
    case MarkEnqueued(_, ref) => r.(enqueued := Some(ref))
    case Claim(_, worker, ttl) =>
      r.(status := Running, worker := Some(worker), epoch := r.epoch + 1, lease := Some(t.now + ttl),
         startedAt := if r.startedAt.None? then Some(t.now) else r.startedAt, attempts := r.attempts + 1)
    case Extend(_, _, ttl) => r.(lease := Some(t.now + ttl))
    case Record(_, _, write) => Recorded(r, write, t.now)
    case Cancel(_) => r.(status := Cancelled, completedAt := Some(t.now), epoch := r.epoch + 1)
    case Reap(_, delay, _) =>
      if r.attempts >= r.maxAttempts then
        r.(epoch := r.epoch + 1, status := DeadLetter, error := Some(LEASE_EXPIRED),
           completedAt := Some(t.now), lease := None, worker := None)
      else
        r.(epoch := r.epoch + 1, status := Retrying, error := Some(LEASE_EXPIRED),
           scheduledAt := t.now + delay, lease := None, worker := None)
    case Promote(_) => r.(status := Pending)
    case Requeue(_) =>
      r.(status := Pending, error := None, result := None, attempts := 0, epoch := r.epoch + 1,
         scheduledAt := t.now, completedAt := None, startedAt := None, enqueued := None)
  }

  /** The orphan sweep's WHERE clause: due, old enough, and never marked as handed to Redis. */
  predicate Orphaned(r: Row, olderThan: int, now: int) {
    r.status == Pending && r.enqueued.None? && r.scheduledAt <= now && r.createdAt < now - olderThan
  }

  /** The stuck-retry sweep's WHERE clause. */
  predicate Stuck(r: Row, olderThan: int, now: int) {
    r.status == Retrying && r.scheduledAt < now - olderThan
  }

  /** The stale sweep's WHERE clause: running on a lease that ran out more than the grace ago. */
  predicate Expired(r: Row, grace: int, now: int) {
    r.status == Running && r.lease.Some? && r.lease.value < now - grace
  }

  /** The jobs whose rows a WHERE clause holds of. */
  function Where(jobs: Jobs, clause: Row -> bool): set<JobId> {
    set id | id in jobs && clause(jobs[id])
  }

  function ExpiredJobs(jobs: Jobs, grace: int, now: int): set<JobId> {
    Where(jobs, r => Expired(r, grace, now))
  }

  function OrphanedJobs(jobs: Jobs, olderThan: int, now: int): set<JobId> {
    Where(jobs, r => Orphaned(r, olderThan, now))
  }

  function StuckJobs(jobs: Jobs, olderThan: int, now: int): set<JobId> {
    Where(jobs, r => Stuck(r, olderThan, now))
  }

  /** A fresh row as INSERT leaves it. */
  function Fresh(spec: Spec, maxAttempts: int, scheduledAt: int, now: int): Row {
    Row(spec, Pending, 0, None, 0, maxAttempts, None, now, scheduledAt, None, None, None, None, None)
  }

  /** The partial unique index on (type, idempotency_key). */
  predicate KeyTaken(jobs: Jobs, spec: Spec) {
    spec.key.Some? && exists id :: id in jobs && jobs[id].spec.kind == spec.kind && jobs[id].spec.key == spec.key
  }

  /** "One row affected". */
  predicate Applies(jobs: Jobs, t: Timed) {
    if t.stmt.Insert? then t.stmt.id !in jobs && !KeyTaken(jobs, t.stmt.spec)
    else t.stmt.id in jobs && Matches(jobs[t.stmt.id], t)
  }

  function Exec(jobs: Jobs, t: Timed): Jobs {
    if !Applies(jobs, t) then jobs
    else if t.stmt.Insert? then
      jobs[t.stmt.id := Fresh(t.stmt.spec, t.stmt.maxAttempts, t.stmt.scheduledAt, t.now)]
    else jobs[t.stmt.id := Updated(jobs[t.stmt.id], t)]
  }

  /** The table after the first k statements of a history run against a table. */
  function TableFrom(start: Jobs, h: seq<Timed>, k: nat): Jobs
    requires k <= |h|
  {
    if k == 0 then start else Exec(TableFrom(start, h, k - 1), h[k - 1])
  }

  /** The table after the first k statements of a history, from the empty table. */
  function TableAt(h: seq<Timed>, k: nat): Jobs
    requires k <= |h|
  {
    TableFrom(map[], h, k)
  }

  lemma {:induction false} TableAtPrefix(h: seq<Timed>, t: Timed, k: nat)
    requires k <= |h|
    ensures TableAt(h + [t], k) == TableAt(h, k)
  {
    if k > 0 {
      TableAtPrefix(h, t, k - 1);
    }
  }
}
