/** The order of store and queue calls behind submit, requeue and cancel
    (internal/api/server.go). The row comes first, the wire second, the receipt last. */
module Server {
  import opened Common
  import opened Job
  import opened Rows
  import opened Stores
  import opened BatchLog
  import opened Queues
  import Fencing

  datatype Reply = Created | Existing(id: JobId) | Requeued | CancelDone | CancelRequested
                 | Invalid | NotFound | Conflict | Unavailable

  /** What goes wrong on the way: the row write, the enqueue, the receipt, the cancel flag. */
  datatype Faults = Faults(write: Fate, enqueue: Fate, receiptLost: bool, flag: Fate)

  predicate Smooth(f: Faults) {
    f.write.Committed? && f.enqueue.Committed? && !f.receiptLost
  }

  /** The receipt names where this envelope is waiting. */
  ghost predicate OnWire(streams: map<Priority, Stream>, delayed: map<Priority, map<Envelope, int>>, ref: StreamRef, env: Envelope) {
    match ref
    case InStream(entry) => env.priority in streams && Msg(entry, Some(env)) in Ready(streams[env.priority])
    case InDelayedSet => env.priority in delayed && env in delayed[env.priority]
  }

  /** A PENDING row that either waits for the orphan sweep or really is on the wire. */
  ghost predicate Handed(r: Row, streams: map<Priority, Stream>, delayed: map<Priority, map<Envelope, int>>, env: Envelope) {
    r.status == Pending && (r.enqueued.Some? ==> OnWire(streams, delayed, r.enqueued.value, env))
  }

  predicate Future(at: Option<int>, now: int) {
    at.Some? && at.value > now
  }

  /** What the enqueue leaves in Redis, ... */
  function HandedHeld(w: Held, env: Envelope, at: Option<int>, now: int, f: Faults): Held
    requires w.Complete()
  {
    if f.enqueue.RolledBack? then w else if Future(at, now) then w.Park(env, at.value) else w.Put(env)
  }

  /** ... and what its receipt leaves in the table. */
  function HandedJobs(jobs: Jobs, w: Held, env: Envelope, at: Option<int>, now: int, f: Faults): Jobs {
    if !f.enqueue.Committed? || f.receiptLost then jobs
    else Exec(jobs, At(now, MarkEnqueued(env.id, if Future(at, now) then InDelayedSet else InStream(w.next))))
  }

  /** The row write of a submission, unless it was refused or lost. */
  function Entered(jobs: Jobs, id: JobId, spec: Spec, requested: int, scheduled: Option<int>, now: int, f: Faults): Jobs {
    if AdmitAttempts(requested).None? || f.write.RolledBack? then jobs
    else Exec(jobs, At(now, Insert(id, spec, AdmitAttempts(requested).value, Start(scheduled, now))))
  }

  /** A submission is handed off if its row is known to be there. */
  predicate Accepted(jobs: Jobs, id: JobId, spec: Spec, requested: int, f: Faults) {
    AdmitAttempts(requested).Some? && f.write.Committed? && id !in jobs && !KeyTaken(jobs, spec)
  }

  /** A requeue, likewise. */
  function Restarted(jobs: Jobs, id: JobId, now: int, f: Faults): Jobs {
    if f.write.RolledBack? then jobs else Exec(jobs, At(now, Requeue(id)))
  }

  class Api {
    const store: Store
    const queue: Queue

    constructor (store: Store, queue: Queue)
      ensures this.store == store && this.queue == queue
    {
      this.store, this.queue := store, queue;
    }

    /** Enqueue, then the receipt, on a row that has none. */
    method HandOff(env: Envelope, at: Option<int>, now: int, f: Faults)
      requires queue.Valid() && env.id in store.jobs && store.jobs[env.id].status == Pending
      requires store.jobs[env.id].enqueued.None?
      modifies store`jobs, queue`streams, queue`delayed, queue`next
      ensures queue.Valid()
      ensures store.jobs == HandedJobs(old(store.jobs), old(queue.View()), env, at, now, f) && queue.View() == HandedHeld(old(queue.View()), env, at, now, f)
      ensures exists marker :: store.jobs == old(store.jobs)[env.id := old(store.jobs)[env.id].(enqueued := marker)]
      ensures env.id in store.jobs && Handed(store.jobs[env.id], queue.streams, queue.delayed, env)
      ensures f.enqueue.RolledBack? ==> queue.streams == old(queue.streams) && queue.delayed == old(queue.delayed)
      ensures f.enqueue.Committed? && !f.receiptLost ==> store.jobs[env.id].enqueued.Some?
    {
      hide StreamOk, Ready, Added;
      assert store.jobs == store.jobs[env.id := store.jobs[env.id].(enqueued := None)];
      if f.enqueue.RolledBack? {
        return;
      }
      var ref := queue.Enqueue(env, at, now);
      if f.enqueue.CommitUnseen? {
        return;
      }
      assert OnWire(queue.streams, queue.delayed, ref, env);
      if !f.receiptLost {
        store.SetEnqueued(env.id, ref, now);
        assert store.jobs[env.id] == old(store.jobs)[env.id].(enqueued := Some(ref));
      }
    }

    /** Accepted means durable: the row exists whatever becomes of the hand-off, and its
        receipt is never written for an envelope that is not on the wire. A refused or
        replayed submission changes nothing. */
    method Submit(id: JobId, spec: Spec, requested: int, scheduled: Option<int>, now: int, f: Faults) returns (reply: Reply)
      requires queue.Valid()
      modifies store`jobs, store`events, queue`streams, queue`delayed, queue`next
      ensures queue.Valid()
      ensures reply.Invalid? <==> AdmitAttempts(requested).None?
      ensures reply.Created? <==> AdmitAttempts(requested).Some? && f.write.Committed? && id !in old(store.jobs) && !KeyTaken(old(store.jobs), spec)
      ensures reply.Existing? <==> AdmitAttempts(requested).Some? && f.write.Committed? && id !in old(store.jobs) && KeyTaken(old(store.jobs), spec)
      ensures f.write.CommitUnseen? && AdmitAttempts(requested).Some? ==>
                store.jobs == Exec(old(store.jobs), At(now, Insert(id, spec, AdmitAttempts(requested).value, Start(scheduled, now))))
      ensures reply.Created? ==>
                && id !in old(store.jobs) && id in store.jobs && store.jobs - {id} == old(store.jobs)
                && Decided(store.jobs[id]) == Fresh(spec, AdmitAttempts(requested).value, Start(scheduled, now), now)
                && Handed(store.jobs[id], queue.streams, queue.delayed, NewEnvelope(id, spec, 1, now))
      ensures reply.Created? ==>
                var start := if scheduled.Some? then scheduled.value else now;
                var budget := if requested == 0 then 5 else requested;
                store.jobs[id].(enqueued := None) == Row(spec, Pending, 0, None, 0, budget, None, now, start, None, None, None, None, None)
      ensures reply.Created? && Smooth(f) ==>
                var env := Envelope(id, spec.kind, spec.queue, spec.priority, 1, spec.payload, now);
                if scheduled.Some? && scheduled.value > now then
                  && store.jobs[id].enqueued == Some(InDelayedSet)
                  && env in queue.delayed[spec.priority] && queue.delayed[spec.priority][env] == scheduled.value
                else
                  && store.jobs[id].enqueued == Some(InStream(old(queue.next)))
                  && Msg(old(queue.next), Some(env)) in Ready(queue.streams[spec.priority])
      ensures var jobs := Entered(old(store.jobs), id, spec, requested, scheduled, now, f);
              if !Accepted(old(store.jobs), id, spec, requested, f) then store.jobs == jobs && queue.View() == old(queue.View())
              else
                var env := NewEnvelope(id, spec, 1, now);
                && store.jobs == HandedJobs(jobs, old(queue.View()), env, Some(Start(scheduled, now)), now, f)
                && queue.View() == HandedHeld(old(queue.View()), env, Some(Start(scheduled, now)), now, f)
      ensures reply.Existing? ==>
                && store.jobs == old(store.jobs) && reply.id in store.jobs
                && store.jobs[reply.id].spec.kind == spec.kind && store.jobs[reply.id].spec.key == spec.key
      ensures !reply.Created? ==> queue.streams == old(queue.streams) && queue.delayed == old(queue.delayed)
      ensures !reply.Created? && !f.write.CommitUnseen? ==> store.jobs == old(store.jobs)
    {
      hide StreamOk, Ready;
      var admitted := AdmitAttempts(requested);
      if admitted.None? {
        return Invalid;
      }
      if f.write.RolledBack? {
        return Unavailable;
      }
      var start := Start(scheduled, now);
      var existing, created := store.CreateJob(id, spec, admitted.value, start, now);
      if f.write.CommitUnseen? || existing.None? {
        return Unavailable;
      }
      if !created {
        return if id in store.jobs then Unavailable else Existing(existing.value);
      }
      ghost var jobs := store.jobs;
      HandOff(NewEnvelope(id, spec, 1, now), Some(start), now, f);
      assert store.jobs - {id} == jobs - {id} == old(store.jobs);
      return Created;
    }

    /** Requeueing a dead letter: a fresh budget, a new epoch that fences every old claim, no
        stale receipt, and then the same hand-off as a submission. */
    method RequeueDead(id: JobId, now: int, f: Faults) returns (reply: Reply)
      requires queue.Valid()
      modifies store`jobs, store`events, queue`streams, queue`delayed, queue`next
      ensures queue.Valid()
      ensures reply.Requeued? ==>
                && id in old(store.jobs) && old(store.jobs)[id].status == DeadLetter && id in store.jobs
                && store.jobs[id].attempts == 0
                && (forall epoch :: epoch <= old(store.jobs)[id].epoch ==> Fencing.Released(store.jobs, id, epoch))
                && Handed(store.jobs[id], queue.streams, queue.delayed, NewEnvelope(id, store.jobs[id].spec, 1, now))
      ensures reply.Requeued? && Smooth(f) ==>
                var spec := store.jobs[id].spec;
                && store.jobs[id].enqueued == Some(InStream(old(queue.next)))
                && Msg(old(queue.next), Some(Envelope(id, spec.kind, spec.queue, spec.priority, 1, spec.payload, now)))
                   in Ready(queue.streams[spec.priority])
      ensures reply.Requeued? ==>
                var d := old(store.jobs)[id];
                store.jobs[id].(enqueued := None)
                == d.(status := Pending, attempts := 0, epoch := d.epoch + 1, scheduledAt := now, enqueued := None,
                      error := None, result := None, startedAt := None, completedAt := None)
      ensures f.write.Committed? ==> (reply.Requeued? <==> id in old(store.jobs) && old(store.jobs)[id].status == DeadLetter)
      ensures f.write.Committed? <==> reply.Requeued? || reply.Conflict?
      ensures reply.Conflict? || f.write.RolledBack? ==> store.jobs == old(store.jobs)
      ensures f.write.CommitUnseen? ==> store.jobs == Exec(old(store.jobs), At(now, Requeue(id)))
      ensures var jobs := Restarted(old(store.jobs), id, now, f);
              if !reply.Requeued? then store.jobs == jobs && queue.View() == old(queue.View())
              else
                var env := NewEnvelope(id, old(store.jobs)[id].spec, 1, now);
                && store.jobs == HandedJobs(jobs, old(queue.View()), env, None, now, f)
                && queue.View() == HandedHeld(old(queue.View()), env, None, now, f)
      ensures !reply.Requeued? ==> queue.streams == old(queue.streams) && queue.delayed == old(queue.delayed)
    {
      hide StreamOk, Ready;
      if f.write.RolledBack? {
        return Unavailable;
      }
      var req := store.RequeueDeadLetter(id, now);
      if f.write.CommitUnseen? {
        return Unavailable;
      }
      if req.None? {
        return Conflict;
      }
      HandOff(NewEnvelope(req.value.id, req.value.spec, 1, now), None, now, f);
      return Requeued;
    }

    /** Cancelling, by what the row was when it was read: a PENDING or RETRYING job is cancelled
        in the table if it still is claimable when the write comes, and then every claim ever
        granted for it is fenced off; a running one only gets its flag raised; a finished one
        is left alone. Others may write after the read. The flag after a cancelled row is best
        effort. */
    method Cancel(id: JobId, others: seq<Timed>, now: int, f: Faults) returns (reply: Reply)
      modifies store`jobs, store`events, queue`cancels
      ensures reply.NotFound? <==> id !in old(store.jobs)
      ensures id in old(store.jobs) && Terminal(old(store.jobs)[id].status) ==> reply.Conflict?
      ensures id in old(store.jobs) && old(store.jobs)[id].status == Running ==>
                && (reply.CancelRequested? <==> f.flag.Committed?) && (reply.Unavailable? <==> !f.flag.Committed?)
                && queue.cancels == old(queue.cancels) + if f.flag.RolledBack? then {} else {id}
      ensures !(id in old(store.jobs) && Claimable(old(store.jobs)[id].status)) ==> store.jobs == old(store.jobs)
      ensures id in old(store.jobs) && Claimable(old(store.jobs)[id].status) ==>
                var met := TableFrom(old(store.jobs), others, |others|);
                && id in met
                && store.jobs == (if f.write.RolledBack? then met else Exec(met, At(now, Rows.Cancel(id))))
                && (reply.CancelDone? <==> f.write.Committed? && Claimable(met[id].status))
                && (reply.Conflict? <==> f.write.Committed? && !Claimable(met[id].status))
                && queue.cancels == old(queue.cancels) + if reply.CancelDone? && !f.flag.RolledBack? then {id} else {}
      ensures reply.CancelDone? ==>
                && id in store.jobs && store.jobs[id].status == Cancelled
                && (forall epoch :: epoch <= store.jobs[id].epoch ==> Fencing.Released(store.jobs, id, epoch))
    {
      assert queue.cancels + {} == queue.cancels;
      if id !in store.jobs {
        return NotFound;
      }
      var seen := store.jobs[id].status;
      if Terminal(seen) {
        return Conflict;
      }
      if seen == Running {
        if !f.flag.RolledBack? {
          queue.RequestCancel(id);
        }
        return if f.flag.Committed? then CancelRequested else Unavailable;
      }
      RowsStay(store.jobs, others, id, |others|);
      store.jobs := TableFrom(store.jobs, others, |others|);
      if f.write.RolledBack? {
        return Unavailable;
      }
      var cancelled := store.CancelJob(id, now);
      if f.write.CommitUnseen? {
        return Unavailable;
      }
      if !cancelled {
        return Conflict;
      }
      if !f.flag.RolledBack? {
        queue.RequestCancel(id);
      }
      return CancelDone;
    }
  }

  /** Everything but the receipt. */
  function Decided(r: Row): Row {
    r.(enqueued := None)
  }

  /** An unscheduled job starts now. */
  function Start(scheduled: Option<int>, now: int): int {
    if scheduled.Some? then scheduled.value else now
  }

  lemma {:induction false} RowsStay(start: Jobs, h: seq<Timed>, id: JobId, k: nat)
    requires k <= |h| && id in start
    ensures id in TableFrom(start, h, k)
  {
    if k > 0 {
      RowsStay(start, h, id, k - 1);
    }
  }
}
