/** The Postgres layer (internal/store/store.go): every method is one conditional statement
    on the jobs table, plus the best-effort event it leaves. The clock is a parameter. */
module Stores {
  import opened Common
  import opened Job
  import opened Rows
  import opened Outcomes
  import opened Tables

  /** What a sweep needs to put a job back on the wire. */
  datatype Requeueable = Requeueable(id: JobId, spec: Spec, attempt: int)

  datatype ReapResult = ReapResult(status: Status, attempt: int, maxAttempts: int, prevWorker: Option<WorkerId>)

  /** The batch flip as one promotion per listed job. */
  function Flips(ids: seq<JobId>, now: int): seq<Timed> {
    seq(|ids|, i requires 0 <= i < |ids| => At(now, Promote(ids[i])))
  }

  /** The multi-row flip is a history of single flips, whatever the order or repetitions, so
      every theorem about statement histories covers it. */
  lemma {:induction false} FlipIsHistory(jobs: Jobs, ids: seq<JobId>, now: int, k: nat)
    requires k <= |ids|
    ensures var jobs' := TableFrom(jobs, Flips(ids, now), k);
            jobs'.Keys == jobs.Keys
            && forall id :: id in jobs ==>
                 jobs'[id] == if id in ids[..k] && jobs[id].status == Retrying then jobs[id].(status := Pending) else jobs[id]
  {
    if k > 0 {
      FlipIsHistory(jobs, ids, now, k - 1);
      assert ids[..k] == ids[..k - 1] + [ids[k - 1]];
    }
  }

  class Store {
    var jobs: Jobs
    var attempts: Attempts
    var events: seq<Event>

    constructor ()
      ensures View() == Tables(map[], map[], [])
    {
      jobs, attempts, events := map[], map[], [];
    }

    function View(): Tables
      reads this
    {
      Tables(jobs, attempts, events)
    }

    /** Runs one UPDATE and reports whether it affected its row. */
    method Update(t: Timed) returns (ok: bool)
      requires !t.stmt.Insert?
      modifies this`jobs
      ensures ok == Applies(old(jobs), t) && jobs == Exec(old(jobs), t)
    {
      ok := t.stmt.id in jobs && Matches(jobs[t.stmt.id], t);
      if ok {
        jobs := jobs[t.stmt.id := Updated(jobs[t.stmt.id], t)];
      }
    }

    /** Persists a new job, or finds the one that holds its idempotency key. A reused id is
        refused like any other failed insert. */
    method CreateJob(id: JobId, spec: Spec, maxAttempts: int, scheduledAt: int, now: int)
      returns (existing: Option<JobId>, created: bool)
      modifies this`jobs, this`events
      ensures var t := At(now, Insert(id, spec, maxAttempts, scheduledAt));
              && jobs == Exec(old(jobs), t) && created == Applies(old(jobs), t)
              && events == old(events) + (if created then [Submitted(id)] else [])
      ensures created ==>
                && existing == Some(id)
                && jobs == old(jobs)[id := Row(spec, Pending, 0, None, 0, maxAttempts, None, now, scheduledAt, None, None, None, None, None)]
      ensures !created ==> jobs == old(jobs)
      ensures !created && id !in old(jobs) ==>
                && existing.Some? && existing.value in jobs
                && jobs[existing.value].spec.kind == spec.kind && jobs[existing.value].spec.key == spec.key
    {
      if id in jobs {
        return None, false;
      }
      if spec.key.Some? {
        var same := set j | j in jobs && jobs[j].spec.kind == spec.kind && jobs[j].spec.key == spec.key;
        if j :| j in same {
          return Some(j), false;
        }
        assert forall j :: j in jobs && jobs[j].spec.kind == spec.kind && jobs[j].spec.key == spec.key ==> j in same;
      }
      jobs := jobs[id := Fresh(spec, maxAttempts, scheduledAt, now)];
      events := events + [Submitted(id)];
      return Some(id), true;
    }

    /** The receipt: the row is marked afterwards, a mark it had is kept, and nothing else of
        it or of any other row changes. */
    method SetEnqueued(id: JobId, ref: StreamRef, now: int)
      modifies this`jobs
      ensures jobs == Exec(old(jobs), At(now, MarkEnqueued(id, ref)))
      ensures jobs.Keys == old(jobs).Keys && forall other :: other in jobs && other != id ==> jobs[other] == old(jobs)[other]
      ensures id in jobs ==>
                && jobs[id].enqueued == (if old(jobs)[id].enqueued.Some? then old(jobs)[id].enqueued else Some(ref))
                && jobs[id].(enqueued := None) == old(jobs)[id].(enqueued := None)
    {
      var _ := Update(At(now, MarkEnqueued(id, ref)));
    }

    /** The arbitration point: a grant exactly if the row was claimable, and then under an
        epoch above the previous one with one more attempt counted. */
    method ClaimJob(id: JobId, worker: WorkerId, ttl: int, now: int) returns (grant: Option<Grant>)
      modifies this`jobs
      ensures jobs == Exec(old(jobs), At(now, Claim(id, worker, ttl)))
      ensures grant.Some? <==> id in old(jobs) && old(jobs)[id].status in {Pending, Retrying}
      ensures grant.Some? ==>
                && grant.value == Grant(id, old(jobs)[id].epoch + 1, old(jobs)[id].attempts + 1, old(jobs)[id].maxAttempts)
                && Open(jobs[id], grant.value.epoch) && jobs[id].attempts == grant.value.attempt
      ensures grant.Some? ==>
                var r := old(jobs)[id];
                jobs == old(jobs)[id := r.(status := Running, epoch := r.epoch + 1, attempts := r.attempts + 1, worker := Some(worker),
                                           lease := Some(now + ttl), startedAt := if r.startedAt.Some? then r.startedAt else Some(now))]
      ensures grant.None? ==> jobs == old(jobs)
    {
      var ok := Update(At(now, Claim(id, worker, ttl)));
      if ok {
        grant := Some(Grant(id, jobs[id].epoch, jobs[id].attempts, jobs[id].maxAttempts));
      } else {
        grant := None;
      }
    }

    method ExtendLease(id: JobId, epoch: int, ttl: int, now: int) returns (ok: bool)
      modifies this`jobs
      ensures jobs == Exec(old(jobs), At(now, Extend(id, epoch, ttl)))
      ensures ok <==> id in old(jobs) && old(jobs)[id].status == Running && old(jobs)[id].epoch == epoch
      ensures jobs == if ok then old(jobs)[id := old(jobs)[id].(lease := Some(now + ttl))] else old(jobs)
    {
      ok := Update(At(now, Extend(id, epoch, ttl)));
    }

    /** The five fenced outcome writes, with the event each leaves. */
    method RecordOutcome(op: RecOp, now: int) returns (ok: bool)
      modifies this`jobs, this`events
      ensures jobs == Exec(old(jobs), OutcomeStmt(op, now))
      ensures ok <==> op.id in old(jobs) && old(jobs)[op.id].status == Running && old(jobs)[op.id].epoch == op.epoch
      ensures !ok ==> jobs == old(jobs) && events == old(events)
      ensures ok ==>
                var r := old(jobs)[op.id].(lease := None);
                match op.write
                case Complete(result) =>
                  && jobs == old(jobs)[op.id := r.(status := Completed, result := Some(result), error := None, completedAt := Some(now))]
                  && events == old(events)
                case Fail(msg) =>
                  && jobs == old(jobs)[op.id := r.(status := Failed, error := Some(msg), completedAt := Some(now))]
                  && events == old(events)
                case Dead(msg) =>
                  && jobs == old(jobs)[op.id := r.(status := DeadLetter, error := Some(msg), completedAt := Some(now))]
                  && events == old(events) + [DeadLettered(op.id, msg)]
                case CancelRun =>
                  && jobs == old(jobs)[op.id := r.(status := Cancelled, completedAt := Some(now))]
                  && events == old(events) + [CancelledJob(op.id)]
                case Retry(msg, nextAt) =>
                  && jobs == old(jobs)[op.id := r.(status := Retrying, error := Some(msg), scheduledAt := nextAt, worker := None)]
                  && events == old(events) + [RetryScheduled(op.id, nextAt, msg)]
    {
      ok := Update(OutcomeStmt(op, now));
      events := events + EventsOf(op, ok);
    }

    /** The attempt's coordinates are taken afterwards, by whoever wrote them first, and no
        other row of the history changes. */
    method RecordAttempt(a: Attempt)
      modifies this`attempts
      ensures attempts == InsertAttempt(old(attempts), a)
      ensures attempts.Keys == old(attempts).Keys + {(a.job, a.attempt)}
      ensures forall key :: key in old(attempts) ==> attempts[key] == old(attempts)[key]
      ensures (a.job, a.attempt) !in old(attempts) ==> attempts[(a.job, a.attempt)] == a
    {
      if (a.job, a.attempt) !in attempts {
        attempts := attempts[(a.job, a.attempt) := a];
      }
    }

    method CancelJob(id: JobId, now: int) returns (ok: bool)
      modifies this`jobs, this`events
      ensures jobs == Exec(old(jobs), At(now, Cancel(id)))
      ensures ok <==> id in old(jobs) && old(jobs)[id].status in {Pending, Retrying}
      ensures jobs == if ok then old(jobs)[id := old(jobs)[id].(status := Cancelled, completedAt := Some(now), epoch := old(jobs)[id].epoch + 1)]
                      else old(jobs)
      ensures events == old(events) + (if ok then [CancelledJob(id)] else [])
    {
      ok := Update(At(now, Cancel(id)));
      if ok {
        events := events + [CancelledJob(id)];
      }
    }

    /** Reaps an expired RUNNING row into a retry or the dead letters. */
    method ReapJob(id: JobId, delay: int, grace: int, now: int) returns (res: Option<ReapResult>)
      modifies this`jobs, this`events
      ensures jobs == Exec(old(jobs), At(now, Reap(id, delay, grace)))
      ensures res.Some? <==> Applies(old(jobs), At(now, Reap(id, delay, grace)))
      ensures res.Some? <==>
                && id in old(jobs) && old(jobs)[id].status == Running
                && old(jobs)[id].lease.Some? && old(jobs)[id].lease.value < now - grace
      ensures res.None? ==> jobs == old(jobs)
      ensures res.Some? ==>
                var r := old(jobs)[id].(epoch := old(jobs)[id].epoch + 1, lease := None, worker := None,
                                        error := Some("lease expired: worker presumed dead"));
                jobs == old(jobs)[id := if r.attempts >= r.maxAttempts then r.(status := DeadLetter, completedAt := Some(now))
                                        else r.(status := Retrying, scheduledAt := now + delay)]
      ensures res.Some? ==>
                && res.value == ReapResult(jobs[id].status, old(jobs)[id].attempts, old(jobs)[id].maxAttempts, old(jobs)[id].worker)
                && res.value.status == (if old(jobs)[id].attempts >= old(jobs)[id].maxAttempts then DeadLetter else Retrying)
      ensures events == old(events) + (if res.Some? then [LeaseExpired(id, res.value.prevWorker, res.value.status)] else [])
    {
      var prev := if id in jobs then jobs[id].worker else None;
      var ok := Update(At(now, Reap(id, delay, grace)));
      if ok {
        res := Some(ReapResult(jobs[id].status, jobs[id].attempts, jobs[id].maxAttempts, prev));
        events := events + [LeaseExpired(id, prev, jobs[id].status)];
      } else {
        res := None;
      }
    }

    /** The promoter's batch flip: every listed RETRYING row becomes PENDING, no other row moves. */
    method MarkPromoted(ids: seq<JobId>, now: int) returns (affected: nat)
      modifies this`jobs
      ensures jobs.Keys == old(jobs).Keys
      ensures forall id :: id in jobs ==>
                jobs[id] == if id in ids && old(jobs)[id].status == Retrying
                            then old(jobs)[id].(status := Pending) else old(jobs)[id]
      ensures jobs == TableFrom(old(jobs), Flips(ids, now), |ids|)
      ensures affected == |set id | id in old(jobs) && id in ids && old(jobs)[id].status == Retrying|
    {
      var hit := set id | id in jobs && id in ids && jobs[id].status == Retrying;
      jobs := map id | id in jobs :: if id in hit then Updated(jobs[id], At(now, Promote(id))) else jobs[id];
      affected := |hit|;
      FlipIsHistory(old(jobs), ids, now, |ids|);
      assert ids[..|ids|] == ids;
      ghost var folded := TableFrom(old(jobs), Flips(ids, now), |ids|);
      assert jobs.Keys == folded.Keys;
      assert forall id :: id in jobs ==> jobs[id] == folded[id];
    }

    method RequeueDeadLetter(id: JobId, now: int) returns (r: Option<Requeueable>)
      modifies this`jobs, this`events
      ensures jobs == Exec(old(jobs), At(now, Requeue(id)))
      ensures r.Some? <==> id in old(jobs) && old(jobs)[id].status == DeadLetter
      ensures r.None? ==> jobs == old(jobs)
      ensures r.Some? ==>
                var d := old(jobs)[id];
                jobs == old(jobs)[id := d.(status := Pending, attempts := 0, epoch := d.epoch + 1, scheduledAt := now, enqueued := None,
                                           error := None, result := None, startedAt := None, completedAt := None)]
      ensures r.Some? ==> r.value == Requeueable(id, old(jobs)[id].spec, 0)
      ensures events == old(events) + (if r.Some? then [Requeued(id, "operator")] else [])
    {
      var ok := Update(At(now, Requeue(id)));
      if ok {
        events := events + [Requeued(id, "operator")];
        r := Some(Requeueable(id, jobs[id].spec, jobs[id].attempts));
      } else {
        r := None;
      }
    }

    /** A sweep's SELECT ... LIMIT: rows the clause holds of, each once, and as many as there are
        up to the limit. The order, and the choice beyond the limit, are Postgres's. */
    method Select(clause: Row -> bool, limit: nat) returns (rows: seq<Requeueable>)
      ensures forall i :: 0 <= i < |rows| ==>
                && rows[i].id in jobs && clause(jobs[rows[i].id])
                && rows[i] == Requeueable(rows[i].id, jobs[rows[i].id].spec, jobs[rows[i].id].attempts)
      ensures forall i, j :: 0 <= i < j < |rows| ==> rows[i].id != rows[j].id
      ensures |rows| == Min(limit, |Where(jobs, clause)|)
      ensures |rows| < limit ==> forall id :: id in jobs && clause(jobs[id]) ==> exists i :: 0 <= i < |rows| && rows[i].id == id
    {
      rows := [];
      var left := Where(jobs, clause);
      while |rows| < limit
        invariant |rows| <= limit && |rows| + |left| == |Where(jobs, clause)|
        invariant forall i :: 0 <= i < |rows| ==>
                    && rows[i].id in jobs && clause(jobs[rows[i].id]) && rows[i].id !in left
                    && rows[i] == Requeueable(rows[i].id, jobs[rows[i].id].spec, jobs[rows[i].id].attempts)
        invariant forall i, j :: 0 <= i < j < |rows| ==> rows[i].id != rows[j].id
        invariant forall id :: id in left ==> id in jobs && clause(jobs[id])
        invariant forall id :: id in jobs && clause(jobs[id]) ==>
                    id in left || exists i :: 0 <= i < |rows| && rows[i].id == id
        decreases left
      {
        if id :| id in left {
          ghost var before := rows;
          rows := rows + [Requeueable(id, jobs[id].spec, jobs[id].attempts)];
          left := left - {id};
          assert rows[|before|].id == id;
          assert forall i :: 0 <= i < |before| ==> rows[i] == before[i];
        } else {
          assert forall x: JobId :: x !in left;
          assert left == {};
          break;
        }
      }
    }

    method ListExpiredRunning(grace: int, limit: nat, now: int) returns (rows: seq<Requeueable>)
      ensures |rows| == Min(limit, |ExpiredJobs(jobs, grace, now)|) && forall i, j :: 0 <= i < j < |rows| ==> rows[i].id != rows[j].id
      ensures forall i :: 0 <= i < |rows| ==>
                && rows[i].id in jobs && jobs[rows[i].id].status == Running
                && jobs[rows[i].id].lease.Some? && jobs[rows[i].id].lease.value < now - grace
                && rows[i] == Requeueable(rows[i].id, jobs[rows[i].id].spec, jobs[rows[i].id].attempts)
      ensures |rows| < limit ==> forall id :: id in jobs && jobs[id].status == Running && jobs[id].lease.Some? && jobs[id].lease.value < now - grace ==>
                exists i :: 0 <= i < |rows| && rows[i].id == id
    {
      rows := Select((r: Row) => Expired(r, grace, now), limit);
    }

    method ListUnenqueued(olderThan: int, limit: nat, now: int) returns (rows: seq<Requeueable>)
      ensures |rows| == Min(limit, |OrphanedJobs(jobs, olderThan, now)|) && forall i, j :: 0 <= i < j < |rows| ==> rows[i].id != rows[j].id
      ensures forall i :: 0 <= i < |rows| ==>
                && rows[i].id in jobs && jobs[rows[i].id].status == Pending && jobs[rows[i].id].enqueued.None?
                && jobs[rows[i].id].scheduledAt <= now && jobs[rows[i].id].createdAt < now - olderThan
                && rows[i] == Requeueable(rows[i].id, jobs[rows[i].id].spec, jobs[rows[i].id].attempts)
      ensures |rows| < limit ==> forall id :: id in jobs && jobs[id].status == Pending && jobs[id].enqueued.None? && jobs[id].scheduledAt <= now
                                              && jobs[id].createdAt < now - olderThan ==>
                exists i :: 0 <= i < |rows| && rows[i].id == id
    {
      rows := Select((r: Row) => Orphaned(r, olderThan, now), limit);
    }

    method ListStuckRetrying(olderThan: int, limit: nat, now: int) returns (rows: seq<Requeueable>)
      ensures |rows| == Min(limit, |StuckJobs(jobs, olderThan, now)|) && forall i, j :: 0 <= i < j < |rows| ==> rows[i].id != rows[j].id
      ensures forall i :: 0 <= i < |rows| ==>
                && rows[i].id in jobs && jobs[rows[i].id].status == Retrying && jobs[rows[i].id].scheduledAt < now - olderThan
                && rows[i] == Requeueable(rows[i].id, jobs[rows[i].id].spec, jobs[rows[i].id].attempts)
      ensures |rows| < limit ==> forall id :: id in jobs && jobs[id].status == Retrying && jobs[id].scheduledAt < now - olderThan ==>
                exists i :: 0 <= i < |rows| && rows[i].id == id
    {
      rows := Select((r: Row) => Stuck(r, olderThan, now), limit);
    }
  }
}
