/** The three Postgres tables the lifecycle writes, as one value. */
module Tables {
  import opened Common
  import opened Job
  import opened Rows
  import opened Outcomes

  datatype Attempt = Attempt(job: JobId, attempt: int, worker: Option<WorkerId>, startedAt: int, finishedAt: int,
                             outcome: Outcome, error: string)

  datatype Event =
    | Submitted(id: JobId)
    | DeadLettered(id: JobId, msg: string)
    | CancelledJob(id: JobId)
    | RetryScheduled(id: JobId, nextAt: int, msg: string)
    | LeaseExpired(id: JobId, worker: Option<WorkerId>, status: Status)
    | Requeued(id: JobId, reason: string)

  // UNIQUE (job_id, attempt)
  type Attempts = map<(JobId, int), Attempt>

  datatype Tables = Tables(jobs: Jobs, attempts: Attempts, events: seq<Event>)

  /** INSERT ... ON CONFLICT (job_id, attempt) DO NOTHING: the first writer wins. */
  function InsertAttempt(attempts: Attempts, a: Attempt): Attempts {
    if (a.job, a.attempt) in attempts then attempts else attempts[(a.job, a.attempt) := a]
  }

  /** One recorder call: the outcome write, and the attempt row that goes with it. */
  datatype RecOp = RecOp(id: JobId, epoch: int, write: Write, att: Attempt)

  /** The history an outcome write leaves when it applied; completions and failures leave none. */
  function EventsOf(op: RecOp, applied: bool): seq<Event> {
    if !applied then []
    else match op.write
      case Retry(msg, nextAt) => [RetryScheduled(op.id, nextAt, msg)]
      case Dead(msg) => [DeadLettered(op.id, msg)]
      case CancelRun => [CancelledJob(op.id)]
      case _ => []
  }

  function OutcomeStmt(op: RecOp, now: int): Timed {
    At(now, Record(op.id, op.epoch, op.write))
  }
}
