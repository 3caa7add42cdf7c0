/** What the conditional updates guarantee on their own: theorems about every history of
    statements whatever, from an empty table. Nothing is assumed about who issues them, in
    what order, at what clock, or how often: duplicate deliveries, zombie workers, several
    leaders at once and crashes are all histories. */
module Fencing {
  import opened Common
  import opened Job
  import opened Rows

  // ------------------------------------------------------------ one epoch, one owner

  /** The claim that was handed this epoch no longer owns the row. */
  predicate Released(jobs: Jobs, id: JobId, epoch: int) {
    id in jobs && epoch <= jobs[id].epoch && !Open(jobs[id], epoch)
  }

  /** The writes that carry a fencing epoch: the five outcomes and the lease renewal. */
  predicate Carries(st: Stmt, id: JobId, epoch: int) {
    (st.Record? || st.Extend?) && st.id == id && st.epoch == epoch
  }

  function EpochOf(jobs: Jobs, id: JobId): int {
    if id in jobs then jobs[id].epoch else 0
  }

  lemma {:induction false} EpochMonotone(h: seq<Timed>, id: JobId, i: nat, j: nat)
    requires i <= j <= |h|
    ensures EpochOf(TableAt(h, i), id) <= EpochOf(TableAt(h, j), id)
    ensures id in TableAt(h, i) ==> id in TableAt(h, j)
    ensures 0 <= EpochOf(TableAt(h, 0), id)
    decreases j
  {
    if i < j {
      EpochMonotone(h, id, i, j - 1);
    }
  }

  /** Fencing over whole runs: once a claim is released it stays released, whatever follows. */
  lemma {:induction false} ReleasedForever(start: Jobs, h: seq<Timed>, id: JobId, epoch: int, i: nat, j: nat)
    requires i <= j <= |h| && Released(TableFrom(start, h, i), id, epoch)
    ensures Released(TableFrom(start, h, j), id, epoch)
    decreases j
  {
    if i < j {
      ReleasedForever(start, h, id, epoch, i, j - 1);
    }
  }

  /** No write carrying a released epoch is applied at any later point. */
  lemma StaleWritesBounce(h: seq<Timed>, id: JobId, epoch: int, i: nat, j: nat)
    requires i <= j < |h| && Released(TableAt(h, i), id, epoch) && Carries(h[j].stmt, id, epoch)
    ensures !Applies(TableAt(h, j), h[j]) && TableAt(h, j + 1) == TableAt(h, j)
  {
    ReleasedForever(map[], h, id, epoch, i, j);
  }

  /** An applied outcome write, reap or claim releases every epoch handed out before it. */
  lemma OwnershipChangeReleases(h: seq<Timed>, i: nat, epoch: int)
    requires i < |h| && Applies(TableAt(h, i), h[i])
    requires h[i].stmt.Record? || h[i].stmt.Reap? || h[i].stmt.Claim? || h[i].stmt.Cancel? || h[i].stmt.Requeue?
    requires epoch <= TableAt(h, i)[h[i].stmt.id].epoch
    ensures Released(TableAt(h, i + 1), h[i].stmt.id, epoch)
  {
  }

  /** Each epoch is handed out by at most one claim: later claims get larger epochs. */
  lemma ClaimEpochsIncrease(h: seq<Timed>, id: JobId, i: nat, j: nat)
    requires i < j < |h|
    requires h[i].stmt.Claim? && h[i].stmt.id == id && Applies(TableAt(h, i), h[i])
    requires h[j].stmt.Claim? && h[j].stmt.id == id && Applies(TableAt(h, j), h[j])
    ensures TableAt(h, i + 1)[id].epoch < TableAt(h, j + 1)[id].epoch
  {
    EpochMonotone(h, id, i + 1, j);
  }

  // ------------------------------------------------------------------- the ledger

  datatype Kind = Claims | Reaps | Cancels | Requeues | Outcomes | Completes

  predicate IsKind(st: Stmt, kind: Kind) {
    match kind
    case Claims => st.Claim?
    case Reaps => st.Reap?
    case Cancels => st.Cancel?
    case Requeues => st.Requeue?
    case Outcomes => st.Record?
    case Completes => st.Record? && st.write.Complete?
  }

  /** How many statements of a kind were applied to a job among the first k. */
  function Count(h: seq<Timed>, k: nat, id: JobId, kind: Kind): nat
    requires k <= |h|
  {
    if k == 0 then 0
    else Count(h, k - 1, id, kind) +
         if h[k - 1].stmt.id == id && IsKind(h[k - 1].stmt, kind) && Applies(TableAt(h, k - 1), h[k - 1]) then 1 else 0
  }

  predicate InStatus(jobs: Jobs, id: JobId, s: Status) {
    id in jobs && jobs[id].status == s
  }

  /** Every epoch bump is one ownership change, and every claim is released exactly once:
      by its outcome write or by a reap, unless it is the one still running. */
  lemma OwnershipLedger(h: seq<Timed>, k: nat, id: JobId)
    requires k <= |h|
    ensures EpochOf(TableAt(h, k), id)
            == Count(h, k, id, Claims) + Count(h, k, id, Reaps) + Count(h, k, id, Cancels) + Count(h, k, id, Requeues)
    ensures Count(h, k, id, Claims)
            == Count(h, k, id, Outcomes) + Count(h, k, id, Reaps) + (if InStatus(TableAt(h, k), id, Running) then 1 else 0)
  {
    EpochLedger(h, k, id);
    ClaimLedger(h, k, id);
  }

  lemma {:induction false} EpochLedger(h: seq<Timed>, k: nat, id: JobId)
    requires k <= |h|
    ensures EpochOf(TableAt(h, k), id)
            == Count(h, k, id, Claims) + Count(h, k, id, Reaps) + Count(h, k, id, Cancels) + Count(h, k, id, Requeues)
  {
    if k > 0 {
      EpochLedger(h, k - 1, id);
    }
  }

  lemma {:induction false} ClaimLedger(h: seq<Timed>, k: nat, id: JobId)
    requires k <= |h|
    ensures Count(h, k, id, Claims)
            == Count(h, k, id, Outcomes) + Count(h, k, id, Reaps) + (if InStatus(TableAt(h, k), id, Running) then 1 else 0)
  {
    if k > 0 {
      ClaimLedger(h, k - 1, id);
    }
  }

  // ----------------------------------------------------- exactly-once result persistence

  /** At most one Complete write per job is ever applied, and one was applied exactly when
      the job is COMPLETED; only a COMPLETED job has a result. */
  lemma {:induction false} CompletedOnce(h: seq<Timed>, k: nat, id: JobId)
    requires k <= |h|
    ensures Count(h, k, id, Completes) == if InStatus(TableAt(h, k), id, Completed) then 1 else 0
    ensures id in TableAt(h, k) ==> (TableAt(h, k)[id].result.Some? <==> TableAt(h, k)[id].status == Completed)
  {
    if k > 0 {
      CompletedOnce(h, k - 1, id);
    }
  }

  /** Everything of a row that an outcome decides: only the enqueue receipt is left out. */
  function Decided(r: Row): Row {
    r.(enqueued := None)
  }

  /** COMPLETED, FAILED and CANCELLED rows never change again, result and epoch included. */
  lemma {:induction false} FinishedIsFrozen(h: seq<Timed>, id: JobId, i: nat, j: nat)
    requires i <= j <= |h| && id in TableAt(h, i)
    requires TableAt(h, i)[id].status in {Completed, Failed, Cancelled}
    ensures id in TableAt(h, j) && Decided(TableAt(h, j)[id]) == Decided(TableAt(h, i)[id])
    decreases j
  {
    if i < j {
      FinishedIsFrozen(h, id, i, j - 1);
    }
  }

  /** The epoch handed out by the latest applied claim of a job (0 before the first). */
  function LatestClaim(h: seq<Timed>, k: nat, id: JobId): int
    requires k <= |h|
  {
    if k == 0 then 0
    else if h[k - 1].stmt.Claim? && h[k - 1].stmt.id == id && Applies(TableAt(h, k - 1), h[k - 1])
    then TableAt(h, k)[id].epoch
    else LatestClaim(h, k - 1, id)
  }

  lemma {:induction false} RunningHoldsLatestClaim(h: seq<Timed>, k: nat, id: JobId)
    requires k <= |h|
    ensures InStatus(TableAt(h, k), id, Running) ==> TableAt(h, k)[id].epoch == LatestClaim(h, k, id)
  {
    if k > 0 {
      RunningHoldsLatestClaim(h, k - 1, id);
    }
  }

  /** The result a job ends with was written once, by the holder of the job's latest claim,
      and is what every later reader sees. */
  lemma ExactlyOnceResult(h: seq<Timed>, i: nat, j: nat)
    requires i < j <= |h| && h[i].stmt.Record? && h[i].stmt.write.Complete? && Applies(TableAt(h, i), h[i])
    ensures var id := h[i].stmt.id;
            && h[i].stmt.epoch == LatestClaim(h, i, id)
            && InStatus(TableAt(h, j), id, Completed)
            && TableAt(h, j)[id].result == Some(h[i].stmt.write.result)
            && LatestClaim(h, j, id) == h[i].stmt.epoch
            && Count(h, j, id, Completes) == 1
  {
    var id := h[i].stmt.id;
    RunningHoldsLatestClaim(h, i, id);
    FinishedIsFrozen(h, id, i + 1, j);
    CompletedOnce(h, j, id);
    NoClaimAfterFinish(h, id, i + 1, j);
  }

  lemma {:induction false} NoClaimAfterFinish(h: seq<Timed>, id: JobId, i: nat, j: nat)
    requires i <= j <= |h| && id in TableAt(h, i)
    requires TableAt(h, i)[id].status in {Completed, Failed, Cancelled}
    ensures LatestClaim(h, j, id) == LatestClaim(h, i, id)
    decreases j
  {
    if i < j {
      FinishedIsFrozen(h, id, i, j - 1);
      NoClaimAfterFinish(h, id, i, j - 1);
    }
  }

  // ------------------------------------------------------------------ legal edges

  /** Every status change any statement makes is an edge of the state machine. */
  lemma EveryChangeIsLegal(h: seq<Timed>, k: nat, id: JobId)
    requires k < |h| && id in TableAt(h, k)
    ensures id in TableAt(h, k + 1)
    ensures var from, to := TableAt(h, k)[id].status, TableAt(h, k + 1)[id].status;
            from != to ==> CanTransition(from, to)
  {
    var t := h[k];
    if t.stmt.id == id && Applies(TableAt(h, k), t) {
      assert TableAt(h, k + 1)[id] == Updated(TableAt(h, k)[id], t);
    }
  }

  /** A statement takes a row from one status to another. */
  ghost predicate Moves(r: Row, t: Timed, from: Status, to: Status) {
    r.status == from && !t.stmt.Insert? && Matches(r, t) && Updated(r, t).status == to && from != to
  }

  /** ... and every edge is one some statement makes: the table lists exactly the changes there
      are. */
  lemma EdgesExactly(from: Status, to: Status)
    ensures CanTransition(from, to) <==> exists r, t :: Moves(r, t, from, to)
  {
    var r := Fresh(Spec("", "", Default, "", None), 2, 0, 0).(status := from, lease := Some(0));
    match to {
      case Pending => assert from == Retrying ==> Moves(r, At(0, Promote(0)), from, to);
                      assert from == DeadLetter ==> Moves(r, At(0, Requeue(0)), from, to);
      case Running => assert Claimable(from) ==> Moves(r, At(0, Claim(0, 0, 0)), from, to);
      case Completed => assert from == Running ==> Moves(r, At(0, Record(0, 0, Complete(""))), from, to);
      case Failed => assert from == Running ==> Moves(r, At(0, Record(0, 0, Fail(""))), from, to);
      case Retrying => assert from == Running ==> Moves(r, At(0, Record(0, 0, Retry("", 0))), from, to);
      case DeadLetter => assert from == Running ==> Moves(r, At(0, Record(0, 0, Dead(""))), from, to);
      case Cancelled => assert from == Running ==> Moves(r, At(0, Record(0, 0, CancelRun)), from, to);
                        assert Claimable(from) ==> Moves(r, At(0, Cancel(0)), from, to);
    }
  }

  /** The terminal statuses are exactly those nothing leaves but a requeue of a dead letter. */
  lemma TerminalExactly(s: Status)
    ensures Terminal(s) <==> forall to :: CanTransition(s, to) ==> s == DeadLetter && to == Pending
  {
    assert CanTransition(Pending, Running) && CanTransition(Running, Failed) && CanTransition(Retrying, Running);
  }

  // ------------------------------------------------------------------ the columns

  /** The columns tell the same story as the status. */
  predicate ColumnsAgree(r: Row) {
    && (r.lease.Some? <==> r.status == Running)
    && (r.completedAt.Some? <==> r.status in {Completed, Failed, DeadLetter, Cancelled})
    && (r.startedAt.Some? <==> r.attempts > 0) && r.attempts >= 0
    && (r.result.Some? <==> r.status == Completed)
    && (r.status == Completed ==> r.error.None?)
    && (r.status in {Failed, DeadLetter, Retrying} ==> r.error.Some?)
    && (r.status == Running ==> r.worker.Some? && r.attempts > 0) && (r.status == Retrying ==> r.worker.None?)
  }

  /** In every history: a row is leased exactly while it runs, stamped as completed exactly in
      a terminal status, as started exactly once it was claimed, and an unfinished attempt's
      error is on it while it waits to be retried. */
  lemma {:induction false} ColumnsAlwaysAgree(h: seq<Timed>, k: nat, id: JobId)
    requires k <= |h| && id in TableAt(h, k)
    ensures ColumnsAgree(TableAt(h, k)[id])
  {
    if k > 0 && id in TableAt(h, k - 1) {
      ColumnsAlwaysAgree(h, k - 1, id);
    }
  }

  /** What the submitter fixed stays: the description, the budget and the time of creation. */
  lemma {:induction false} SubmissionIsFixed(start: Jobs, h: seq<Timed>, id: JobId, i: nat, j: nat)
    requires i <= j <= |h| && id in TableFrom(start, h, i)
    ensures id in TableFrom(start, h, j)
    ensures var before, after := TableFrom(start, h, i)[id], TableFrom(start, h, j)[id];
            after.spec == before.spec && after.maxAttempts == before.maxAttempts && after.createdAt == before.createdAt
    decreases j
  {
    if i < j {
      SubmissionIsFixed(start, h, id, i, j - 1);
    }
  }

  // ------------------------------------------------------------------ leases

  /** How long the latest applied claim or renewal of a job promised to hold it. */
  function Promised(h: seq<Timed>, k: nat, id: JobId): int
    requires k <= |h|
  {
    if k == 0 then 0
    else
      var t := h[k - 1];
      if t.stmt.Claim? && t.stmt.id == id && Applies(TableAt(h, k - 1), t) then t.now + t.stmt.ttl
      else if t.stmt.Extend? && t.stmt.id == id && Applies(TableAt(h, k - 1), t) then t.now + t.stmt.ttl
      else Promised(h, k - 1, id)
  }

  lemma {:induction false} LeaseIsThePromise(h: seq<Timed>, k: nat, id: JobId)
    requires k <= |h| && InStatus(TableAt(h, k), id, Running)
    ensures TableAt(h, k)[id].lease == Some(Promised(h, k, id))
  {
    if InStatus(TableAt(h, k - 1), id, Running) {
      LeaseIsThePromise(h, k - 1, id);
    }
  }

  /** A running job can be reaped exactly once its latest claim or renewal has been silent for
      its time to live and the grace on top. */
  lemma ReapedExactlyWhenSilent(h: seq<Timed>, k: nat, id: JobId, delay: int, grace: int, now: int)
    requires k <= |h| && InStatus(TableAt(h, k), id, Running)
    ensures Applies(TableAt(h, k), At(now, Reap(id, delay, grace))) <==> Promised(h, k, id) + grace < now
  {
    LeaseIsThePromise(h, k, id);
  }

  /** The lease of a claim holds until t at least from its claim or a renewal on, if no later
      renewal promises less. */
  lemma {:induction false} LeaseLasts(h: seq<Timed>, id: JobId, i: nat, j: nat, t: int)
    requires i < j <= |h| && Applies(TableAt(h, i), h[i]) && h[i].stmt.id == id
    requires (h[i].stmt.Claim? || h[i].stmt.Extend?) && h[i].now + h[i].stmt.ttl == t
    requires forall m :: i < m < j && h[m].stmt.Extend? && h[m].stmt.id == id ==> t <= h[m].now + h[m].stmt.ttl
    ensures id in TableAt(h, i + 1) && id in TableAt(h, j)
    ensures TableAt(h, i + 1)[id].epoch <= TableAt(h, j)[id].epoch
    ensures Open(TableAt(h, j)[id], TableAt(h, i + 1)[id].epoch) ==>
              TableAt(h, j)[id].lease.Some? && TableAt(h, j)[id].lease.value >= t
  {
    if i + 1 < j {
      LeaseLasts(h, id, i, j - 1, t);
    }
  }

  /** A healthy worker is never reaped: from a claim or renewal on, while the claim is open and
      no renewal promises less, no reap of its job applies before the time promised, whoever
      sends it and whatever its grace. */
  lemma LeaseProtects(h: seq<Timed>, id: JobId, i: nat, j: nat)
    requires i < j < |h| && Applies(TableAt(h, i), h[i]) && h[i].stmt.id == id && (h[i].stmt.Claim? || h[i].stmt.Extend?)
    requires forall m :: i < m < j && h[m].stmt.Extend? && h[m].stmt.id == id ==>
               h[i].now + h[i].stmt.ttl <= h[m].now + h[m].stmt.ttl
    requires h[j].stmt.Reap? && h[j].stmt.id == id && h[j].stmt.grace >= 0 && h[j].now <= h[i].now + h[i].stmt.ttl
    ensures id in TableAt(h, i + 1) && id in TableAt(h, j)
    ensures Open(TableAt(h, j)[id], TableAt(h, i + 1)[id].epoch) ==> !Applies(TableAt(h, j), h[j])
  {
    LeaseLasts(h, id, i, j, h[i].now + h[i].stmt.ttl);
  }

  // ------------------------------------------------------------------ receipts

  /** A receipt once written stays until an operator requeues the job, whatever else happens
      and however many receipts arrive late. */
  lemma {:induction false} FirstReceiptStays(h: seq<Timed>, id: JobId, i: nat, j: nat)
    requires i <= j <= |h| && id in TableAt(h, i) && TableAt(h, i)[id].enqueued.Some?
    requires forall k :: i <= k < j && h[k].stmt == Requeue(id) ==> !Applies(TableAt(h, k), h[k])
    ensures id in TableAt(h, j) && TableAt(h, j)[id].enqueued == TableAt(h, i)[id].enqueued
    decreases j
  {
    if i < j {
      FirstReceiptStays(h, id, i, j - 1);
      assert h[j - 1].stmt == Requeue(id) ==> !Applies(TableAt(h, j - 1), h[j - 1]);
    }
  }

  // ------------------------------------------------------------ idempotent submission

  ghost predicate KeysUnique(jobs: Jobs) {
    forall a, b :: (a in jobs && b in jobs && jobs[a].spec.key.Some?
                    && jobs[a].spec.kind == jobs[b].spec.kind && jobs[a].spec.key == jobs[b].spec.key) ==> a == b
  }

  /** Resubmitting under an idempotency key never creates a second job. */
  lemma {:induction false} IdempotencyKeysUnique(h: seq<Timed>, k: nat)
    requires k <= |h|
    ensures KeysUnique(TableAt(h, k))
  {
    if k > 0 {
      IdempotencyKeysUnique(h, k - 1);
    }
  }
}
