/** The job domain: the lifecycle statuses and their legal edges, admission of the
    attempt budget, and the envelope that travels through Redis (internal/job). */
module Job {
  import opened Common

  // Job ids are opaque: the model only ever compares them.
  type JobId = int

  datatype Status = Pending | Running | Completed | Failed | Retrying | DeadLetter | Cancelled

  datatype Priority = High | Default | Low

  const PRIORITY_ORDER: seq<Priority> := [High, Default, Low]

  /** A job in a terminal status is finished; only an operator requeue leaves DEAD_LETTER. */
  predicate Terminal(s: Status) {
    s == Completed || s == Failed || s == DeadLetter || s == Cancelled
  }

  /** The complete allow-list of status changes. */
  function Transitions(from: Status): set<Status> {
    match from
    case Pending => {Running, Cancelled}
    case Running => {Completed, Retrying, Failed, DeadLetter, Cancelled}
    case Retrying => {Pending, Running, Cancelled}
    case DeadLetter => {Pending}
    case Completed => {}
    case Failed => {}
    case Cancelled => {}
  }

  predicate CanTransition(from: Status, to: Status) {
    to in Transitions(from)
  }

  const MAX_ATTEMPTS_CEILING := 25
  const DEFAULT_MAX_ATTEMPTS := 5

  /** The attempt budget a submission is admitted with: zero asks for the default, and
      anything outside the range is refused. */
  function AdmitAttempts(requested: int): (r: Option<int>)
    ensures r.None? <==> requested < 0 || requested > 25
    ensures r.Some? ==> 1 <= r.value <= 25
    ensures 1 <= requested <= 25 ==> r == Some(requested)
    ensures requested == 0 ==> r == Some(5)
  {
    var ma := if requested == 0 then DEFAULT_MAX_ATTEMPTS else requested;
    if ma < 1 || ma > MAX_ATTEMPTS_CEILING then None else Some(ma)
  }

  /** What the submitter fixed for good: these columns are never updated. */
  datatype Spec = Spec(kind: string, queue: string, priority: Priority, payload: string, key: Option<string>)

  /** The message on the wire. It is self-contained, and never authoritative. */
  datatype Envelope = Envelope(id: JobId, kind: string, queue: string, priority: Priority,
                               attempt: int, payload: string, enqueuedAt: int)

  function NewEnvelope(id: JobId, spec: Spec, attempt: int, now: int): Envelope {
    Envelope(id, spec.kind, spec.queue, spec.priority, attempt, spec.payload, now)
  }
}
