/** The error taxonomy (internal/job/errors.go) and the routing that the runner's finish
    step derives from it (internal/worker/runner.go). */
module Outcomes {
  import opened Common
  import opened Job
  import opened Rows

  /** An error is its chain of wrappers, outermost first; a nil error is None. */
  datatype Mark =
    | NonRetryableMark
    | InterruptedMark
    | CancelRequestedMark
    | DeadlineMark
    | PanicMark
    | LeaseLostMark
    | Context(text: string)

  type Error = Option<seq<Mark>>

  datatype Outcome =
    | OutcomeCompleted
    | OutcomeFailed
    | OutcomeRetryable
    | OutcomeCancelled
    | OutcomeInterrupted
    | OutcomeLeaseExpired
    | OutcomePanicked

  predicate Has(err: Error, mark: Mark) {
    err.Some? && mark in err.value
  }

  function ClassifyError(err: Error, cause: Error): Outcome {
    if err.None? then OutcomeCompleted
    else if Has(cause, CancelRequestedMark) || Has(err, CancelRequestedMark) then OutcomeCancelled
    else if Has(err, InterruptedMark) || Has(cause, InterruptedMark) then OutcomeInterrupted
    else if Has(err, NonRetryableMark) then OutcomeFailed
    else OutcomeRetryable
  }

  /** The classification finish uses: panics keep their own name, and a failure under a
      lost lease belongs to the reaper. */
  function FinishOutcome(err: Error, cause: Error): Outcome {
    var outcome := ClassifyError(err, cause);
    var named := if outcome == OutcomeRetryable && Has(err, PanicMark) then OutcomePanicked else outcome;
    if err.Some? && Has(cause, LeaseLostMark) then OutcomeLeaseExpired else named
  }

  /** What a won claim hands the runner: the fencing epoch and the attempt coordinates. */
  datatype Grant = Grant(id: JobId, epoch: int, attempt: int, maxAttempts: int)

  /** The outcome write finish routes to; None is the lost lease, which writes nothing. */
  function Route(outcome: Outcome, g: Grant, result: string, msg: string, nextAt: int): Option<Write> {
    match outcome
    case OutcomeCompleted => Some(Complete(result))
    case OutcomeFailed => Some(Fail(msg))
    case OutcomeCancelled => Some(CancelRun)
    case OutcomeLeaseExpired => None
    case OutcomeInterrupted => Some(if g.attempt >= g.maxAttempts then Dead(msg) else Retry(msg, nextAt))
    case OutcomeRetryable => Some(if g.attempt >= g.maxAttempts then Dead(msg) else Retry(msg, nextAt))
    case OutcomePanicked => Some(if g.attempt >= g.maxAttempts then Dead(msg) else Retry(msg, nextAt))
  }

  /** The budget rule every routed write obeys. */
  predicate WithinBudget(g: Grant, w: Write) {
    && (w.Retry? ==> g.attempt < g.maxAttempts)
    && (w.Dead? ==> g.attempt >= g.maxAttempts)
  }

  predicate IsContext(marks: seq<Mark>) {
    forall i :: 0 <= i < |marks| ==> marks[i].Context?
  }

  /** Adding context around, inside or under a marked error never changes where it routes:
      a mark counts wherever it sits in the chain. */
  lemma WrappingKeepsOutcome(outer: seq<Mark>, inner: seq<Mark>, extra: seq<Mark>, cause: Error)
    requires IsContext(extra)
    ensures FinishOutcome(Some(outer + extra + inner), cause) == FinishOutcome(Some(outer + inner), cause)
  {
    var marks := outer + extra + inner;
    var plain := outer + inner;
    forall m: Mark | !m.Context? ensures m in marks <==> m in plain {
      assert m in marks ==> m in outer || m in extra || m in inner;
      assert m !in extra;
    }
  }

  /** Where a finished attempt ends, from the marks of its error and of what cut it short. A
      lost lease outranks everything else, then a cancellation, then an interruption, then a
      permanent failure; the default answer is another attempt, or the dead letters exactly
      when the attempt was the last one. */
  lemma MarksDecide(err: Error, cause: Error, g: Grant, result: string, msg: string, nextAt: int)
    ensures var w := Route(FinishOutcome(err, cause), g, result, msg, nextAt);
            var lost := Has(cause, LeaseLostMark);
            var cancelled := Has(err, CancelRequestedMark) || Has(cause, CancelRequestedMark);
            var interrupted := Has(err, InterruptedMark) || Has(cause, InterruptedMark);
            var again := err.Some? && !lost && !cancelled && (interrupted || !Has(err, NonRetryableMark));
            && (w == Some(Complete(result)) <==> err.None?)
            && (w.None? <==> err.Some? && lost)
            && (w == Some(CancelRun) <==> err.Some? && !lost && cancelled)
            && (w == Some(Fail(msg)) <==> err.Some? && !lost && !cancelled && !interrupted && Has(err, NonRetryableMark))
            && (w == Some(Retry(msg, nextAt)) <==> again && g.attempt < g.maxAttempts)
            && (w == Some(Dead(msg)) <==> again && g.attempt >= g.maxAttempts)
            && (w.Some? ==> WithinBudget(g, w.value))
  {
  }

  /** What the attempt row calls it: the same marks, and a panic keeps its own name only where
      it is retried by default. */
  lemma MarksName(err: Error, cause: Error)
    ensures var outcome := FinishOutcome(err, cause);
            var lost := Has(cause, LeaseLostMark);
            var cancelled := Has(err, CancelRequestedMark) || Has(cause, CancelRequestedMark);
            var interrupted := Has(err, InterruptedMark) || Has(cause, InterruptedMark);
            var failed := err.Some? && !lost && !cancelled;
            && (outcome == OutcomeCompleted <==> err.None?)
            && (outcome == OutcomeLeaseExpired <==> err.Some? && lost)
            && (outcome == OutcomeCancelled <==> err.Some? && !lost && cancelled)
            && (outcome == OutcomeInterrupted <==> failed && interrupted)
            && (outcome == OutcomeFailed <==> failed && !interrupted && Has(err, NonRetryableMark))
            && (outcome == OutcomePanicked <==> failed && !interrupted && !Has(err, NonRetryableMark) && Has(err, PanicMark))
            && (outcome == OutcomeRetryable <==> failed && !interrupted && !Has(err, NonRetryableMark) && !Has(err, PanicMark))
  {
  }
}
