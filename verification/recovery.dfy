/** The leader's duties as they run (internal/recovery/recovery.go). Any call to Postgres or
    Redis can be lost, or land with its answer lost. The rule they all keep: nothing makes a
    row PENDING, and nothing deletes the entry of a PENDING row, before a fresh copy of the
    job is ready on a stream. */
module Recovery {
  import opened Common
  import opened Job
  import opened Rows
  import opened Outcomes
  import opened Tables
  import opened Stores
  import opened BatchLog
  import opened Queues
  import Backoff

  /** What goes wrong while one delivery or one row is handled. */
  datatype Faults = Faults(reap: Fate, attemptLost: bool, zaddLost: bool, readLost: bool, xadd: Fate, ackLost: bool,
                           markLost: bool)

  /** The two backoff draws of a reap: one for the row, one for the delayed set. */
  datatype Draws = Draws(row: real, parked: real)

  predicate Fair(draws: Draws) {
    0.0 <= draws.row < 1.0 && 0.0 <= draws.parked < 1.0
  }

  predicate Smooth(f: Faults) {
    && f.reap.Committed? && !f.zaddLost && !f.readLost && f.xadd.Committed? && !f.ackLost && !f.markLost
  }

  // ------------------------------------------------------------------ copies on the wire

  /** A copy of the job, added since then, is waiting for delivery. */
  ghost predicate FreshCopy(streams: map<Priority, Stream>, id: JobId, since: int) {
    exists p, m :: p in streams && m in Ready(streams[p]) && IsCopy(m, id, since)
  }

  predicate IsCopy(m: Msg, id: JobId, since: int) {
    m.env.Some? && m.env.value.id == id && m.id >= since
  }

  /** Whatever was waiting for delivery still is, in its order, with only new entries behind. */
  ghost predicate Grows(before: map<Priority, Stream>, after: map<Priority, Stream>, since: int) {
    forall p: Priority :: p in before && p in after && Longer(Ready(before[p]), Ready(after[p]), since)
  }

  predicate Longer(a: seq<Msg>, b: seq<Msg>, since: int) {
    a <= b && forall i :: |a| <= i < |b| ==> b[i].id >= since
  }

  /** Exactly this entry went to the back of exactly this stream. */
  ghost predicate Queued(before: map<Priority, Stream>, after: map<Priority, Stream>, m: Msg, p: Priority) {
    && p in before && p in after && Ready(after[p]) == Ready(before[p]) + [m]
    && forall q: Priority :: q != p && q in before && q in after ==> after[q] == before[q]
  }

  lemma FreshStays(before: map<Priority, Stream>, after: map<Priority, Stream>, id: JobId, since: int, added: int)
    requires FreshCopy(before, id, since) && Grows(before, after, added)
    ensures FreshCopy(after, id, since)
  {
    var p, m :| p in before && m in Ready(before[p]) && IsCopy(m, id, since);
    assert m in Ready(after[p]);
  }

  lemma AddedIsFresh(before: map<Priority, Stream>, after: map<Priority, Stream>, env: Envelope, id: int, since: int)
    requires env.priority in before && env.priority in after && id >= since
    requires Ready(after[env.priority]) == Ready(before[env.priority]) + [Msg(id, Some(env))]
    ensures FreshCopy(after, env.id, since)
  {
    var m := Msg(id, Some(env));
    assert m in Ready(after[env.priority]) && IsCopy(m, env.id, since);
  }

  lemma OlderIsFresher(streams: map<Priority, Stream>, id: JobId, since: int, before: int)
    requires FreshCopy(streams, id, since) && before <= since
    ensures FreshCopy(streams, id, before)
  {
    var p, m :| p in streams && m in Ready(streams[p]) && IsCopy(m, id, since);
    assert IsCopy(m, id, before);
  }

  /** Rows that became PENDING have a fresh copy. */
  ghost predicate Backed(before: Jobs, after: Jobs, streams: map<Priority, Stream>, since: int) {
    && before.Keys == after.Keys
    && forall id :: id in before && before[id].status != Pending && after[id].status == Pending ==> FreshCopy(streams, id, since)
  }

  lemma SameIsGrowth(streams: map<Priority, Stream>, streams': map<Priority, Stream>, since: int)
    requires forall p: Priority :: p in streams && p in streams' && Ready(streams[p]) == Ready(streams'[p])
    ensures Grows(streams, streams', since)
  {
  }

  lemma GrowthComposes(a: map<Priority, Stream>, b: map<Priority, Stream>, c: map<Priority, Stream>, since: int, later: int)
    requires Grows(a, b, since) && Grows(b, c, later) && since <= later
    ensures Grows(a, c, since)
  {
    forall p: Priority ensures Longer(Ready(a[p]), Ready(c[p]), since) {
      assert Longer(Ready(a[p]), Ready(b[p]), since) && Longer(Ready(b[p]), Ready(c[p]), later);
    }
  }

  lemma AdditionIsGrowth(before: map<Priority, Stream>, after: map<Priority, Stream>, p: Priority, m: Msg)
    requires forall q: Priority :: q in before && q in after
    requires forall q: Priority :: q != p ==> after[q] == before[q]
    requires Ready(after[p]) == Ready(before[p]) + [m]
    ensures Grows(before, after, m.id)
  {
    forall q: Priority ensures Longer(Ready(before[q]), Ready(after[q]), m.id) {
    }
  }

  /** An entry that was read before stays read: new entries have new ids. */
  lemma StillRead(before: map<Priority, Stream>, after: map<Priority, Stream>, p: Priority, id: int, since: int)
    requires Grows(before, after, since) && p in before && WasRead(before[p], id) && id < since
    ensures p in after && WasRead(after[p], id)
  {
    assert Longer(Ready(before[p]), Ready(after[p]), since);
  }

  // ------------------------------------------------------------------ what a reap does

  /** A row reaped at most once: unchanged, or taken from its silent worker. */
  ghost predicate Swept(before: Row, after: Row, grace: int, now: int) {
    || after == before
    || (&& before.status == Running && before.lease.Some? && before.lease.value < now - grace
        && after.epoch == before.epoch + 1 && after.lease.None? && after.worker.None? && after.attempts == before.attempts
        && after.maxAttempts == before.maxAttempts && after.spec == before.spec
        && after.status == (if before.attempts >= before.maxAttempts then DeadLetter else Retrying)
        && (after.status == Retrying ==> after.scheduledAt >= now))
  }

  lemma ReapSweeps(jobs: Jobs, id: JobId, delay: int, grace: int, now: int)
    requires delay >= 0
    ensures var jobs' := Exec(jobs, At(now, Reap(id, delay, grace)));
            jobs'.Keys == jobs.Keys && forall j :: j in jobs ==> Swept(jobs[j], jobs'[j], grace, now) && (j != id ==> jobs'[j] == jobs[j])
  {
  }

  /** The row of this delivery, if it is PENDING, has a fresh copy; and there is a row. */
  ghost predicate Spent(jobs: Jobs, streams: map<Priority, Stream>, id: JobId, since: int) {
    id in jobs && (jobs[id].status == Pending ==> FreshCopy(streams, id, since))
  }

  /** A PENDING row's next attempt went on the wire, once, behind everything that was waiting. */
  ghost predicate Copied(jobs: Jobs, before: map<Priority, Stream>, after: map<Priority, Stream>, env: Envelope, id: int, now: int) {
    && env.id in jobs && jobs[env.id].status == Pending
    && var copy := env.(attempt := jobs[env.id].attempts + 1, enqueuedAt := now);
    forall p: Priority :: p in before && p in after &&
      Ready(after[p]) == if p == env.priority then Ready(before[p]) + [Msg(id, Some(copy))] else Ready(before[p])
  }

  /** The delayed set gained exactly one envelope, the next attempt of a row that is RETRYING. */
  ghost predicate ParkedNext(jobs: Jobs, before: map<Priority, map<Envelope, int>>, after: map<Priority, map<Envelope, int>>,
                             env: Envelope, now: int)
  {
    && env.id in jobs && jobs[env.id].status == Retrying && env.attempt == jobs[env.id].attempts + 1
    && exists at :: at >= now && after == Parked(before, env, at)
  }

  // ------------------------------------------------------------------ call by call

  /** The copy that keeps a PENDING row's delivery alive. */
  function CopyOf(jobs: Jobs, d: Delivery, now: int): Envelope
    requires d.env.id in jobs
  {
    d.env.(attempt := jobs[d.env.id].attempts + 1, enqueuedAt := now)
  }

  function Recopied(jobs: Jobs, w: Held, d: Delivery, now: int, f: Faults): (w': Held)
    requires d.env.id in jobs && w.Complete()
    ensures w'.Complete()
  {
    if f.xadd.RolledBack? then w else w.Put(CopyOf(jobs, d, now))
  }

  function AckedUnless(lost: bool, w: Held, d: Delivery): (w': Held)
    requires w.Complete()
    ensures w'.Complete()
  {
    if lost then w else w.Ack(d.priority, d.entry)
  }

  /** What disposing of an unreaped delivery leaves in Redis. */
  function Unreaped(jobs: Jobs, w: Held, d: Delivery, now: int, f: Faults): Held
    requires w.Complete()
  {
    if f.readLost || d.env.id !in jobs then w
    else if jobs[d.env.id].status != Pending then AckedUnless(f.ackLost, w, d)
    else if !f.xadd.Committed? then Recopied(jobs, w, d, now, f)
    else AckedUnless(f.ackLost, Recopied(jobs, w, d, now, f), d)
  }

  /** What a matched reap leaves in Redis. */
  function SettledBy(w: Held, d: Delivery, status: Status, attempt: int, at: int, f: Faults): Held
    requires w.Complete()
  {
    var parked := if status == Retrying && !f.zaddLost then w.Park(d.env.(attempt := attempt + 1), at) else w;
    AckedUnless(f.ackLost, parked, d)
  }

  /** The reap's statement, unless it was lost. */
  function ReapedJobs(jobs: Jobs, d: Delivery, delay: int, now: int, f: Faults): Jobs {
    if f.reap.RolledBack? then jobs else Exec(jobs, At(now, Reap(d.env.id, delay, 0)))
  }

  /** What handling one abandoned delivery leaves in Redis, the table having gone from jobs to
      jobs'. */
  function ReapedHeld(jobs: Jobs, jobs': Jobs, w: Held, d: Delivery, delay: int, policy: Backoff.Policy, draws: Draws, now: int, f: Faults): Held
    requires w.Complete() && policy.Representable()
  {
    if !f.reap.Committed? then w
    else if !Applies(jobs, At(now, Reap(d.env.id, delay, 0))) || d.env.id !in jobs' then Unreaped(jobs', w, d, now, f)
    else
      var r := jobs'[d.env.id];
      SettledBy(w, d, r.status, r.attempts, now + Backoff.Drawn(policy, r.attempts, draws.parked), f)
  }

  /** One stale row: the reap's statement, and the parking of what it sends back. */
  function SweptJobs(jobs: Jobs, r: Requeueable, delay: int, grace: int, now: int, f: Faults): Jobs {
    if f.reap.RolledBack? then jobs else Exec(jobs, At(now, Reap(r.id, delay, grace)))
  }

  function SweptHeld(jobs: Jobs, jobs': Jobs, w: Held, r: Requeueable, delay: int, grace: int, policy: Backoff.Policy, draws: Draws, now: int,
                     f: Faults): Held
    requires policy.Representable()
  {
    if !f.reap.Committed? || !Applies(jobs, At(now, Reap(r.id, delay, grace))) || r.id !in jobs' then w
    else SentBack(w, r, jobs'[r.id].status, jobs'[r.id].attempts, now + Backoff.Drawn(policy, jobs'[r.id].attempts, draws.parked), now, f)
  }

  function SentBack(w: Held, r: Requeueable, status: Status, attempt: int, at: int, now: int, f: Faults): Held {
    if f.zaddLost || status != Retrying then w else w.Park(NewEnvelope(r.id, r.spec, attempt + 1, now), at)
  }

  /** One repaired row: its envelope goes on the wire, ... */
  function Rewired(w: Held, r: Requeueable, now: int, f: Faults): Held
    requires w.Complete()
  {
    if f.xadd.RolledBack? then w else w.Put(NewEnvelope(r.id, r.spec, r.attempt + 1, now))
  }

  /** ... then the receipt of a confirmed enqueue, ... */
  function RepairedJobs(jobs: Jobs, r: Requeueable, entry: int, now: int, f: Faults): Jobs {
    if !f.xadd.Committed? || f.markLost then jobs else Exec(jobs, At(now, MarkEnqueued(r.id, InStream(entry))))
  }

  /** ... or the flip. */
  function UnstuckJobs(jobs: Jobs, r: Requeueable, now: int, f: Faults): Jobs {
    if !f.xadd.Committed? || f.markLost then jobs else Exec(jobs, At(now, Promote(r.id)))
  }

  function IdsOf(envs: seq<Envelope>): seq<JobId> {
    seq(|envs|, i requires 0 <= i < |envs| => envs[i].id)
  }

  /** The flip that follows a promotion, row by row. */
  function Flipping(jobs: Jobs, promoted: seq<Envelope>, now: int): Jobs {
    TableFrom(jobs, Flips(IdsOf(promoted), now), |promoted|)
  }

  lemma MovedInOrder(before: Stream, after: Stream, scores: map<Envelope, int>, left: map<Envelope, int>,
                     moved: seq<Envelope>, batch: nat, now: int, since: int)
    requires Moved(before, after, scores, left, moved, batch, now, since)
    ensures InDueOrder(scores, moved, now)
  {
  }

  lemma OneFlip(jobs: Jobs, id: JobId, now: int)
    ensures TableFrom(jobs, Flips([id], now), 1) == Exec(jobs, At(now, Promote(id)))
  {
    assert TableFrom(jobs, Flips([id], now), 0) == jobs;
  }

  /** The attempt row of a reaped claim. */
  function Doomed(id: JobId, res: ReapResult, now: int, msg: string): Attempt {
    Attempt(id, res.attempt, res.prevWorker, now, now, OutcomeLeaseExpired, msg)
  }

  class Leader {
    const store: Store
    const queue: Queue
    const policy: Backoff.Policy

    constructor (store: Store, queue: Queue, policy: Backoff.Policy)
      ensures this.store == store && this.queue == queue && this.policy == policy
    {
      this.store, this.queue, this.policy := store, queue, policy;
    }

    /** An immediate enqueue. A reference comes back only if the entry is on the stream; an
        entry whose confirmation was lost is on the stream too. */
    method Put(env: Envelope, now: int, fate: Fate) returns (ref: Option<StreamRef>)
      requires queue.Valid()
      modifies queue
      ensures queue.Valid() && queue.delayed == old(queue.delayed) && queue.next >= old(queue.next)
      ensures Grows(old(queue.streams), queue.streams, old(queue.next))
      ensures forall p :: queue.streams[p].pel == old(queue.streams)[p].pel
      ensures ref.Some? <==> fate.Committed?
      ensures ref.Some? ==> ref.value == InStream(old(queue.next)) && FreshCopy(queue.streams, env.id, old(queue.next))
      ensures queue.View() == if fate.RolledBack? then old(queue.View()) else old(queue.View()).Put(env)
      ensures if fate.RolledBack? then queue.streams == old(queue.streams) && queue.next == old(queue.next)
              else Queued(old(queue.streams), queue.streams, Msg(old(queue.next), Some(env)), env.priority) && queue.next == old(queue.next) + 1
    {
      hide StreamOk, Ready, FreshCopy, Grows, WasRead, Added;
      ghost var before, first := queue.streams, queue.next;
      if fate.RolledBack? {
        SameIsGrowth(before, queue.streams, first);
        return None;
      }
      var r := queue.Enqueue(env, None, now);
      var m := Msg(first, Some(env));
      AddedPel(before[env.priority], m);
      AdditionIsGrowth(before, queue.streams, env.priority, m);
      AddedIsFresh(before, queue.streams, env, first, first);
      ref := if fate.Committed? then Some(r) else None;
    }

    method Ack(d: Delivery, lost: bool)
      requires queue.Valid() && queue.Known(d)
      modifies queue`streams
      ensures queue.Valid() && Grows(old(queue.streams), queue.streams, old(queue.next))
      ensures queue.View() == if lost then old(queue.View()) else old(queue.View()).Ack(d.priority, d.entry)
      ensures forall p :: Ready(queue.streams[p]) == Ready(old(queue.streams)[p])
      ensures forall p :: p != d.priority ==> queue.streams[p].pel == old(queue.streams)[p].pel
      ensures queue.streams[d.priority].pel
              == if lost then old(queue.streams)[d.priority].pel else old(queue.streams)[d.priority].pel - {d.entry}
    {
      hide StreamOk, Ready, Grows, WasRead, Acked;
      if !lost {
        queue.Ack(d.priority, d.entry);
      }
      SameIsGrowth(old(queue.streams), queue.streams, old(queue.next));
    }

    method Park(env: Envelope, at: int, lost: bool)
      requires queue.Valid()
      modifies queue`delayed
      ensures queue.Valid() && queue.delayed == if lost then old(queue.delayed) else Parked(old(queue.delayed), env, at)
    {
      hide StreamOk, Parked;
      if !lost {
        queue.ScheduleRetry(env, at);
        ParkedAt(queue.delayed, old(queue.delayed), env, at);
      }
    }

    /** A delivery whose job was not an expired RUNNING row. If the row is PENDING this entry
        may be its only copy, so a fresh one goes on the wire before this one is deleted; if
        the row cannot be read, or that enqueue is not confirmed, the entry stays. */
    method AckUnreaped(d: Delivery, now: int, f: Faults)
      requires queue.Valid() && queue.Known(d)
      modifies queue, store`events
      ensures queue.Valid() && queue.delayed == old(queue.delayed) && queue.next >= old(queue.next)
      ensures Grows(old(queue.streams), queue.streams, old(queue.next))
      ensures forall p :: p != d.priority ==> queue.streams[p].pel == old(queue.streams)[p].pel
      ensures queue.streams[d.priority].pel == old(queue.streams)[d.priority].pel
              || (Spent(store.jobs, queue.streams, d.env.id, old(queue.next))
                  && queue.streams[d.priority].pel == old(queue.streams)[d.priority].pel - {d.entry})
      ensures Smooth(f) && d.env.id in store.jobs ==> d.entry !in queue.streams[d.priority].pel
      ensures queue.View() == Unreaped(store.jobs, old(queue.View()), d, now, f)
      ensures queue.streams[d.priority].pel
              == (if f.readLost || d.env.id !in store.jobs || f.ackLost
                     || (store.jobs[d.env.id].status == Pending && !f.xadd.Committed?)
                  then old(queue.streams)[d.priority].pel else old(queue.streams)[d.priority].pel - {d.entry})
      ensures if !f.readLost && d.env.id in store.jobs && store.jobs[d.env.id].status == Pending && !f.xadd.RolledBack?
              then Copied(store.jobs, old(queue.streams), queue.streams, d.env, old(queue.next), now)
              else forall p :: Ready(queue.streams[p]) == Ready(old(queue.streams)[p])
    {
      hide StreamOk, Ready, FreshCopy, Grows, WasRead, Acked, Copied, Queued, Spent;
      SameIsGrowth(queue.streams, queue.streams, queue.next);
      if f.readLost || d.env.id !in store.jobs {
        return;
      }
      var pending := store.jobs[d.env.id].status == Pending;
      if pending {
        var ok := Recopy(d, now, f);
        if !ok {
          return;
        }
      }
      ghost var middle, after := queue.streams, queue.next;
      Ack(d, f.ackLost);
      GrowthComposes(old(queue.streams), middle, queue.streams, old(queue.next), after);
      if pending {
        FreshStays(middle, queue.streams, d.env.id, old(queue.next), after);
        CopiedStays(store.jobs, old(queue.streams), middle, queue.streams, d.env, old(queue.next), now);
      }
      SpentIf(store.jobs, queue.streams, d.env.id, old(queue.next));
    }

    /** A fresh copy of a PENDING row's next attempt. */
    method Recopy(d: Delivery, now: int, f: Faults) returns (ok: bool)
      requires queue.Valid() && queue.Known(d) && d.env.id in store.jobs && store.jobs[d.env.id].status == Pending
      modifies queue, store`events
      ensures queue.Valid() && queue.Known(d) && queue.delayed == old(queue.delayed) && queue.next >= old(queue.next)
      ensures Grows(old(queue.streams), queue.streams, old(queue.next))
      ensures forall p :: queue.streams[p].pel == old(queue.streams)[p].pel
      ensures ok <==> f.xadd.Committed?
      ensures queue.View() == Recopied(store.jobs, old(queue.View()), d, now, f)
      ensures ok ==> FreshCopy(queue.streams, d.env.id, old(queue.next))
      ensures if f.xadd.RolledBack? then queue.streams == old(queue.streams)
              else Copied(store.jobs, old(queue.streams), queue.streams, d.env, old(queue.next), now)
    {
      hide StreamOk, Ready, FreshCopy, Grows, WasRead;
      var ref := Put(d.env.(attempt := store.jobs[d.env.id].attempts + 1, enqueuedAt := now), now, f.xadd);
      StillRead(old(queue.streams), queue.streams, d.priority, d.entry, old(queue.next));
      ok := ref.Some?;
      if ok {
        store.events := store.events + [Requeued(d.env.id, "reaped before claim")];
      }
    }

    /** What follows a reap that matched: the attempt row, the next attempt's parking, the ack. */
    method Settle(d: Delivery, res: ReapResult, draws: Draws, now: int, f: Faults)
      requires queue.Valid() && queue.Known(d) && policy.Valid() && Fair(draws)
      requires d.env.id in store.jobs && store.jobs[d.env.id].status == res.status && store.jobs[d.env.id].attempts == res.attempt
      requires res.status != Pending
      modifies store`attempts, queue
      ensures queue.Valid() && queue.next == old(queue.next) && Grows(old(queue.streams), queue.streams, old(queue.next))
      ensures forall p :: p != d.priority ==> queue.streams[p].pel == old(queue.streams)[p].pel
      ensures queue.streams[d.priority].pel
              == if f.ackLost then old(queue.streams)[d.priority].pel else old(queue.streams)[d.priority].pel - {d.entry}
      ensures queue.delayed == old(queue.delayed)
              || ParkedNext(store.jobs, old(queue.delayed), queue.delayed, d.env.(attempt := res.attempt + 1), now)
      ensures queue.View() == SettledBy(old(queue.View()), d, res.status, res.attempt, now + Backoff.Drawn(policy, res.attempt, draws.parked), f)
      ensures !f.attemptLost ==> store.attempts == InsertAttempt(old(store.attempts),
                    Attempt(d.env.id, res.attempt, res.prevWorker, now, now, OutcomeLeaseExpired, "lease expired: worker presumed dead"))
      ensures !f.zaddLost && res.status == Retrying ==>
                ParkedNext(store.jobs, old(queue.delayed), queue.delayed, d.env.(attempt := res.attempt + 1), now)
    {
      hide StreamOk, Ready, Grows, WasRead, Backoff.Ceiling, Backoff.Drawn, Parked, ParkedNext;
      if !f.attemptLost {
        store.RecordAttempt(Doomed(d.env.id, res, now, LEASE_EXPIRED));
      }
      if res.status == Retrying {
        var again := Backoff.Delay(policy, res.attempt, draws.parked);
        Park(d.env.(attempt := res.attempt + 1), now + again, f.zaddLost);
        if !f.zaddLost {
          NextIsParked(store.jobs, old(queue.delayed), queue.delayed, d.env.(attempt := res.attempt + 1), now, now + again);
        }
      }
      Ack(d, f.ackLost);
    }

    /** One abandoned delivery: the database decides, then the entry goes. The entry leaves
        the pending list only if its row is not PENDING or a fresh copy is ready. */
    method ReapOne(d: Delivery, draws: Draws, now: int, f: Faults)
      requires queue.Valid() && queue.Known(d) && policy.Valid() && Fair(draws)
      modifies store, queue
      ensures queue.Valid() && queue.next >= old(queue.next) && Grows(old(queue.streams), queue.streams, old(queue.next))
      ensures forall p :: p != d.priority ==> queue.streams[p].pel == old(queue.streams)[p].pel
      ensures queue.streams[d.priority].pel == old(queue.streams)[d.priority].pel
              || (Spent(store.jobs, queue.streams, d.env.id, old(queue.next))
                  && queue.streams[d.priority].pel == old(queue.streams)[d.priority].pel - {d.entry})
      ensures Smooth(f) && d.env.id in store.jobs ==> d.entry !in queue.streams[d.priority].pel
      ensures store.jobs.Keys == old(store.jobs).Keys && Backed(old(store.jobs), store.jobs, queue.streams, old(queue.next))
      ensures forall id :: id in old(store.jobs) ==> Swept(old(store.jobs)[id], store.jobs[id], 0, now)
      ensures store.jobs == ReapedJobs(old(store.jobs), d, Backoff.Drawn(policy, Max(d.env.attempt, 1), draws.row), now, f)
      ensures queue.View() == ReapedHeld(old(store.jobs), store.jobs, old(queue.View()), d, Backoff.Drawn(policy, Max(d.env.attempt, 1), draws.row),
                                         policy, draws, now, f)
      ensures d.entry in old(queue.streams)[d.priority].pel && d.entry !in queue.streams[d.priority].pel ==>
                d.env.id in store.jobs && !Expired(store.jobs[d.env.id], 0, now)
      ensures Smooth(f) && d.env.id in store.jobs ==> !Expired(store.jobs[d.env.id], 0, now)
      ensures f.reap.Committed? && !f.attemptLost && store.jobs != old(store.jobs) && d.env.id in store.jobs ==>
                d.env.id in old(store.jobs) && store.attempts == InsertAttempt(old(store.attempts),
                    Attempt(d.env.id, store.jobs[d.env.id].attempts, old(store.jobs)[d.env.id].worker, now, now, OutcomeLeaseExpired,
                            "lease expired: worker presumed dead"))
      ensures queue.delayed == old(queue.delayed)
              || (exists k :: ParkedNext(store.jobs, old(queue.delayed), queue.delayed, d.env.(attempt := k), now))
      ensures Smooth(f) && store.jobs != old(store.jobs) && d.env.id in store.jobs && store.jobs[d.env.id].status == Retrying ==>
                ParkedNext(store.jobs, old(queue.delayed), queue.delayed, d.env.(attempt := store.jobs[d.env.id].attempts + 1), now)
    {
      hide StreamOk, Ready, FreshCopy, Grows, WasRead, Acked, Exec, Applies, Backoff.Ceiling, Backoff.Drawn, Swept, Parked, ParkedNext, Expired, Copied, Unreaped, SettledBy;
      ghost var jobs, streams := store.jobs, queue.streams;
      var delay := Backoff.Delay(policy, Max(d.env.attempt, 1), draws.row);
      ReapSweeps(jobs, d.env.id, delay, 0, now);
      ReapKeepsPending(jobs, d.env.id, delay, 0, now);
      ReapEndsExpiry(jobs, d.env.id, delay, 0, now);
      SameIsGrowth(streams, streams, queue.next);
      NothingSwept(jobs, 0, now);
      if f.reap.RolledBack? {
        return;
      }
      var res := store.ReapJob(d.env.id, delay, 0, now);
      if f.reap.CommitUnseen? {
        return;
      }
      if res.None? {
        AckUnreaped(d, now, f);
        return;
      }
      Settle(d, res.value, draws, now, f);
    }

    /** One turn of the pass over the abandoned deliveries. The pass began with these rows and
        streams. */
    method ReapNext(ghost jobs: map<JobId, Row>, ghost streams: map<Priority, Stream>, ghost first: int, deliveries: seq<Delivery>, i: nat, draws: Draws,
                    now: int, f: Faults)
      requires queue.Valid() && policy.Valid() && Fair(draws) && i < |deliveries| && queue.next >= first
      requires store.jobs.Keys == jobs.Keys && PassOk(jobs, store.jobs, streams, queue.streams, first, 0, now)
      requires AllRead(queue.streams, queue.next, deliveries, i)
      requires (forall p: Priority :: p in streams) && Msg(deliveries[i].entry, Some(deliveries[i].env)) in streams[deliveries[i].priority].entries
      modifies store, queue
      ensures queue.Valid() && queue.next >= first
      ensures store.jobs.Keys == jobs.Keys && PassOk(jobs, store.jobs, streams, queue.streams, first, 0, now)
      ensures AllRead(queue.streams, queue.next, deliveries, i + 1)
      ensures Smooth(f) && Handled(old(store.jobs), old(queue.streams), deliveries, i, now) ==>
                Handled(store.jobs, queue.streams, deliveries, i + 1, now)
    {
      hide StreamOk, Ready, PassOk, WasRead, Swept, Spent, FreshCopy, Grows, Backed, PoisonEntry, Fair, Expired, ReapedHeld, ReapedJobs, Backoff.Drawn, AllRead, Handled, Smooth, ParkedNext;
      var d := deliveries[i];
      ghost var jobs', streams', next' := store.jobs, queue.streams, queue.next;
      NextIsRead(streams', next', deliveries, i);
      ReapOne(d, draws, now, f);
      SweptNeverExpires(jobs', store.jobs, 0, now);
      PassStep(jobs, jobs', store.jobs, streams, streams', queue.streams, first, next', 0, now, d);
      RestIsRead(streams', queue.streams, next', queue.next, deliveries, i);
      if Smooth(f) && Handled(jobs', streams', deliveries, i, now) {
        OneMoreHandled(jobs', store.jobs, streams', queue.streams, deliveries, i, now);
      }
    }

    /** The Redis-side reap: every abandoned entry, one by one. Whatever leaves a pending list
        is accounted for: poison, or the entry of a job that is not PENDING or has a fresh
        copy; and every delivery handled without a fault is settled. */
    method ReapAbandoned(minIdle: int, batch: nat, now: int, reached: nat, draws: nat -> Draws, faults: nat -> Faults)
      requires queue.Valid() && policy.Valid() && forall i :: Fair(draws(i))
      modifies store, queue
      ensures queue.Valid() && PassOk(old(store.jobs), store.jobs, old(queue.streams), queue.streams, old(queue.next), 0, now)
      ensures (forall i :: Smooth(faults(i))) && reached >= 3 ==>
                forall d :: d in Reapable(old(queue.streams), minIdle, batch, now, 3) && d.env.id in store.jobs ==>
                  d.entry !in queue.streams[d.priority].pel && !Expired(store.jobs[d.env.id], 0, now)
    {
      hide StreamOk, Ready, PassOk, WasRead, Reapable, Swept, Spent, FreshCopy, Grows, Backed, Parked, PoisonEntry, Fair, Expired, ReapedHeld, ReapedJobs, Backoff.Drawn, AllRead, Handled, Smooth;
      ghost var jobs, streams, first := store.jobs, queue.streams, queue.next;
      ghost var smooth := forall k :: Smooth(faults(k));
      var deliveries := queue.ReapAbandoned(minIdle, batch, now, reached);
      PassStarts(jobs, streams, queue.streams, first, 0, now);
      if reached < 3 {
        return;
      }
      AllAreRead(queue.streams, queue.next, deliveries);
      NothingHandled(store.jobs, queue.streams, deliveries, now);
      for i := 0 to |deliveries|
        invariant queue.Valid() && queue.next >= first
        invariant store.jobs.Keys == jobs.Keys && PassOk(jobs, store.jobs, streams, queue.streams, first, 0, now)
        invariant AllRead(queue.streams, queue.next, deliveries, i)
        invariant smooth ==> Handled(store.jobs, queue.streams, deliveries, i, now)
      {
        assert Fair(draws(i)) && (smooth ==> Smooth(faults(i)));
        assert deliveries[i] in deliveries;
        ReapNext(jobs, streams, first, deliveries, i, draws(i), now, faults(i));
      }
      AllHandled(store.jobs, queue.streams, deliveries, now, smooth);
    }

    method CollectIds(promoted: seq<Envelope>) returns (ids: seq<JobId>)
      ensures ids == IdsOf(promoted) && forall id :: id in ids <==> exists j :: 0 <= j < |promoted| && promoted[j].id == id
    {
      ids := [];
      for i := 0 to |promoted|
        invariant |ids| == i && forall j :: 0 <= j < i ==> ids[j] == promoted[j].id
      {
        ids := ids + [promoted[i].id];
      }
    }

    /** Due envelopes move to their streams, then their rows flip. A row becomes PENDING only
        with its envelope already ready; an error or a lost flip leaves every row as it was. */
    method Promote(batch: nat, now: int, reached: nat, flipLost: bool) returns (ghost parts: seq<seq<Envelope>>)
      requires queue.Valid()
      modifies store`jobs, queue
      ensures |parts| == Min(reached, 3) && queue.View() == old(queue.View()).MoveParts(parts, |parts|)
      ensures forall i :: 0 <= i < |parts| ==> InDueOrder(old(queue.delayed)[PRIORITY_ORDER[i]], parts[i], now)
      ensures store.jobs == if reached < 3 || flipLost then old(store.jobs) else Flipping(old(store.jobs), Flat(parts), now)
      ensures queue.Valid() && Grows(old(queue.streams), queue.streams, old(queue.next))
      ensures store.jobs.Keys == old(store.jobs).Keys && Backed(old(store.jobs), store.jobs, queue.streams, old(queue.next))
      ensures forall id :: id in store.jobs ==> Flipped(old(store.jobs)[id], store.jobs[id])
      ensures reached < 3 || flipLost ==> store.jobs == old(store.jobs)
      ensures reached >= 3 ==>
                forall p, e :: e in queue.delayed[p] && |old(queue.delayed)[p]| - |queue.delayed[p]| < batch ==> queue.delayed[p][e] > now
      ensures forall p, e :: Left(old(queue.delayed), queue.delayed, p, e) ==>
                && old(queue.delayed)[p][e] <= now && FreshCopy(queue.streams, e.id, old(queue.next))
                && (reached >= 3 && !flipLost && e.id in store.jobs ==> store.jobs[e.id].status != Retrying)
    {
      hide StreamOk, Ready, WasRead, FreshCopy, Grows, Backed, InDueOrder, Moved, Held.MoveParts, Flat;
      ghost var streams, delayed, first := queue.streams, queue.delayed, queue.next;
      var promoted, err;
      promoted, err, parts := queue.PromoteDue(batch, now, reached);
      forall i | 0 <= i < |parts| ensures InDueOrder(delayed[PRIORITY_ORDER[i]], parts[i], now) {
        MovedInOrder(streams[PRIORITY_ORDER[i]], queue.streams[PRIORITY_ORDER[i]], delayed[PRIORITY_ORDER[i]],
                     queue.delayed[PRIORITY_ORDER[i]], parts[i], batch, now, first);
      }
      forall p: Priority ensures Promoted(streams, queue.streams, delayed, queue.delayed, parts, batch, now, first, p) {
        assert PRIORITY_ORDER[Rank(p)] == p;
      }
      if reached >= 3 {
        forall p: Priority, e | e in queue.delayed[p] && |delayed[p]| - |queue.delayed[p]| < batch ensures queue.delayed[p][e] > now {
          assert Promoted(streams, queue.streams, delayed, queue.delayed, parts, batch, now, first, p);
          MovedDrains(streams[p], queue.streams[p], delayed[p], queue.delayed[p], parts[Rank(p)], batch, now, first, e);
        }
      }
      PromotionIsFresh(streams, queue.streams, delayed, queue.delayed, parts, promoted, batch, now, first);
      var ids := CollectIds(promoted);
      if !err && !flipLost {
        var _ := store.MarkPromoted(ids, now);
      }
      FlipsBacked(old(store.jobs), store.jobs, ids, queue.streams, first);
    }

    /** One expired RUNNING row without an entry: reaped from the table, re-parked from it. */
    method SweepRow(r: Requeueable, draws: Draws, grace: int, now: int, f: Faults)
      requires queue.Valid() && policy.Valid() && Fair(draws)
      modifies store, queue`delayed
      ensures queue.Valid() && forall id :: id in old(store.jobs) ==> id in store.jobs && Swept(old(store.jobs)[id], store.jobs[id], grace, now)
      ensures store.jobs.Keys == old(store.jobs).Keys
      ensures forall id :: id in old(store.jobs) && id != r.id ==> store.jobs[id] == old(store.jobs)[id]
      ensures store.jobs == SweptJobs(old(store.jobs), r, Backoff.Drawn(policy, Max(r.attempt, 1), draws.row), grace, now, f)
      ensures queue.View() == SweptHeld(old(store.jobs), store.jobs, old(queue.View()), r, Backoff.Drawn(policy, Max(r.attempt, 1), draws.row),
                                        grace, policy, draws, now, f)
      ensures queue.delayed == old(queue.delayed)
              || exists k :: ParkedNext(store.jobs, old(queue.delayed), queue.delayed, NewEnvelope(r.id, r.spec, k, now), now)
      ensures Smooth(f) ==> forall id :: id == r.id && id in store.jobs ==> !Expired(store.jobs[id], grace, now)
      ensures f.reap.Committed? && !f.attemptLost && store.jobs != old(store.jobs) && r.id in store.jobs ==>
                r.id in old(store.jobs) && store.attempts == InsertAttempt(old(store.attempts),
                    Attempt(r.id, store.jobs[r.id].attempts, old(store.jobs)[r.id].worker, now, now, OutcomeLeaseExpired,
                            "lease expired: no queue entry survived"))
      ensures Smooth(f) && r.id in store.jobs && store.jobs != old(store.jobs) && store.jobs[r.id].status == Retrying ==>
                ParkedNext(store.jobs, old(queue.delayed), queue.delayed, NewEnvelope(r.id, r.spec, store.jobs[r.id].attempts + 1, now), now)
    {
      hide StreamOk, Exec, Applies, Backoff.Ceiling, Backoff.Drawn, Swept, Parked, ParkedNext;
      ghost var jobs := store.jobs;
      var delay := Backoff.Delay(policy, Max(r.attempt, 1), draws.row);
      ReapSweeps(jobs, r.id, delay, grace, now);
      ReapKeepsPending(jobs, r.id, delay, grace, now);
      ReapEndsExpiry(jobs, r.id, delay, grace, now);
      NothingSwept(jobs, grace, now);
      if f.reap.RolledBack? {
        return;
      }
      var res := store.ReapJob(r.id, delay, grace, now);
      if f.reap.CommitUnseen? || res.None? {
        return;
      }
      SendBack(r, res.value, draws, now, f);
    }

    /** What follows a stale row's reap: the attempt row and the next attempt's parking. */
    method SendBack(r: Requeueable, res: ReapResult, draws: Draws, now: int, f: Faults)
      requires queue.Valid() && policy.Valid() && Fair(draws)
      requires r.id in store.jobs && store.jobs[r.id].status == res.status && store.jobs[r.id].attempts == res.attempt
      modifies store`attempts, queue`delayed
      ensures queue.Valid()
      ensures queue.View() == SentBack(old(queue.View()), r, res.status, res.attempt, now + Backoff.Drawn(policy, res.attempt, draws.parked), now, f)
      ensures !f.attemptLost ==> store.attempts == InsertAttempt(old(store.attempts),
                    Attempt(r.id, res.attempt, res.prevWorker, now, now, OutcomeLeaseExpired, "lease expired: no queue entry survived"))
      ensures !f.zaddLost && res.status == Retrying ==>
                ParkedNext(store.jobs, old(queue.delayed), queue.delayed, NewEnvelope(r.id, r.spec, res.attempt + 1, now), now)
    {
      hide StreamOk, Backoff.Ceiling, Backoff.Drawn, Parked, ParkedNext;
      if !f.attemptLost {
        store.RecordAttempt(Doomed(r.id, res, now, "lease expired: no queue entry survived"));
      }
      if res.status == Retrying {
        var again := Backoff.Delay(policy, res.attempt, draws.parked);
        var env := NewEnvelope(r.id, r.spec, res.attempt + 1, now);
        Park(env, now + again, f.zaddLost);
        if !f.zaddLost {
          NextIsParked(store.jobs, old(queue.delayed), queue.delayed, env, now, now + again);
        }
      }
    }

    /** The database-side sweep. It finds as many expired RUNNING rows as there are, up to the
        limit; without faults it reaps exactly that many, so below the limit none is left, and
        every row it sent back has its next attempt parked. */
    method SweepStaleRunning(grace: int, limit: nat, now: int, draws: nat -> Draws, faults: nat -> Faults) returns (found: nat)
      requires queue.Valid() && policy.Valid() && forall i :: Fair(draws(i))
      modifies store, queue`delayed
      ensures queue.Valid() && store.jobs.Keys == old(store.jobs).Keys
      ensures forall id :: id in store.jobs ==> Swept(old(store.jobs)[id], store.jobs[id], grace, now)
      ensures found == Min(limit, |ExpiredJobs(old(store.jobs), grace, now)|)
      ensures (forall i :: Smooth(faults(i))) ==> |Changed(old(store.jobs), store.jobs)| == found
      ensures (forall i :: Smooth(faults(i))) && found < limit ==>
                forall id :: id in store.jobs && store.jobs[id].status == Running && store.jobs[id].lease.Some? ==>
                  store.jobs[id].lease.value >= now - grace
      ensures (forall i :: Smooth(faults(i))) ==>
                AllWaiting(old(store.jobs), store.jobs, queue.delayed, now)
    {
      hide StreamOk, Swept, ParkedNext, Waiting, Fair, Smooth, Expired, ExpiredJobs, Worked, Changed, AllWaiting, SweptJobs, SweptHeld, Backoff.Drawn;
      ghost var jobs := store.jobs;
      ghost var smooth := forall k :: Smooth(faults(k));
      NothingSwept(jobs, grace, now);
      var rows := store.ListExpiredRunning(grace, limit, now);
      found := |rows|;
      ListedAreExpired(jobs, rows, grace, now);
      NothingWorked(jobs, rows, smooth);
      NothingWaits(jobs, queue.delayed, now);
      for i := 0 to |rows|
        invariant queue.Valid() && store.jobs.Keys == jobs.Keys
        invariant forall id :: id in store.jobs ==> Swept(jobs[id], store.jobs[id], grace, now)
        invariant smooth ==> forall j :: 0 <= j < i ==> !Expired(store.jobs[rows[j].id], grace, now)
        invariant forall id :: id in store.jobs && Expired(store.jobs[id], grace, now) ==> Expired(jobs[id], grace, now)
        invariant smooth ==> AllWaiting(jobs, store.jobs, queue.delayed, now)
        invariant Worked(jobs, store.jobs, rows, i, smooth)
      {
        ghost var jobs', delayed' := store.jobs, queue.delayed;
        assert Fair(draws(i)) && (smooth ==> Smooth(faults(i)));
        NotYetWorked(jobs, jobs', rows, i, smooth);
        SweepRow(rows[i], draws(i), grace, now, faults(i));
        OneMoreWorked(jobs, jobs', store.jobs, rows, i, smooth);
        SweepStep(jobs, jobs', store.jobs, rows[i].id, grace, now);
        if smooth {
          WaitingStep(jobs, jobs', store.jobs, delayed', queue.delayed, rows[i], now);
        }
      }
      WorkedAll(jobs, store.jobs, rows, smooth);
      NoneExpired(jobs, store.jobs, rows, smooth && found < limit, grace, now);
    }

    /** One orphan: enqueue, then the receipt. The receipt names the very entry. */
    method RepairRow(r: Requeueable, now: int, f: Faults)
      requires queue.Valid()
      modifies store`jobs, store`events, queue
      ensures queue.Valid() && queue.next >= old(queue.next) && Grows(old(queue.streams), queue.streams, old(queue.next))
      ensures store.jobs.Keys == old(store.jobs).Keys
      ensures forall id :: id in store.jobs ==>
                store.jobs[id] == old(store.jobs)[id] || (id == r.id && Receipted(old(store.jobs)[id], store.jobs[id], queue.streams, id))
      ensures store.jobs == RepairedJobs(old(store.jobs), r, old(queue.next), now, f) && queue.View() == Rewired(old(queue.View()), r, now, f)
      ensures Smooth(f) ==> forall id :: id == r.id && id in store.jobs ==> store.jobs[id].enqueued.Some?
      ensures Smooth(f) ==> FreshCopy(queue.streams, r.id, old(queue.next))
      ensures f.xadd.RolledBack? ==> queue.streams == old(queue.streams)
      ensures !f.xadd.RolledBack? ==>
                Queued(old(queue.streams), queue.streams, Msg(old(queue.next), Some(NewEnvelope(r.id, r.spec, r.attempt + 1, now))), r.spec.priority)
    {
      hide StreamOk, Ready, FreshCopy, Grows, WasRead;
      var ref := Put(NewEnvelope(r.id, r.spec, r.attempt + 1, now), now, f.xadd);
      if ref.None? {
        return;
      }
      if !f.markLost {
        store.SetEnqueued(r.id, ref.value, now);
      }
      store.events := store.events + [Requeued(r.id, "orphaned submit")];
    }

    /** One turn of the orphan sweep, which began with these rows and streams. */
    method RepairNext(ghost jobs: Jobs, ghost streams: map<Priority, Stream>, ghost first: int, rows: seq<Requeueable>, i: nat,
                      ghost orphanAge: int, now: int, f: Faults, ghost smooth: bool)
      requires queue.Valid() && queue.next >= first && i < |rows| && NoRepeats(rows) && (smooth ==> Smooth(f))
      requires forall p: Priority :: p in streams
      requires Grows(streams, queue.streams, first) && store.jobs.Keys == jobs.Keys && Worked(jobs, store.jobs, rows, i, smooth)
      requires AllReceipted(jobs, store.jobs, queue.streams, orphanAge, now)
      requires smooth ==> Repaired(store.jobs, queue.streams, rows, i, first)
      requires OnlySent(jobs, streams, queue.streams, now, ToRepair(orphanAge, now))
      requires rows[i].id in jobs && rows[i] == Requeueable(rows[i].id, jobs[rows[i].id].spec, jobs[rows[i].id].attempts)
      requires ToRepair(orphanAge, now)(jobs[rows[i].id])
      modifies store`jobs, store`events, queue
      ensures queue.Valid() && queue.next >= first
      ensures Grows(streams, queue.streams, first) && store.jobs.Keys == jobs.Keys && Worked(jobs, store.jobs, rows, i + 1, smooth)
      ensures AllReceipted(jobs, store.jobs, queue.streams, orphanAge, now)
      ensures smooth ==> Repaired(store.jobs, queue.streams, rows, i + 1, first)
      ensures OnlySent(jobs, streams, queue.streams, now, ToRepair(orphanAge, now))
    {
      hide StreamOk, Ready, FreshCopy, Grows, WasRead, Smooth, Worked, Changed, RepairedJobs, Rewired, Queued, OnlySent, AllReceipted, Repaired, Orphaned, NewEnvelope;
      ghost var jobs', streams', next' := store.jobs, queue.streams, queue.next;
      RepairRow(rows[i], now, f);
      OneMoreSent(jobs, streams, streams', queue.streams, now, ToRepair(orphanAge, now), rows[i], next', f.xadd.RolledBack?);
      ReceiptsStay(jobs, jobs', store.jobs, streams', queue.streams, rows[i].id, next', orphanAge, now);
      GrowthComposes(streams, streams', queue.streams, first, next');
      if smooth {
        OneMoreRepaired(jobs', store.jobs, streams', queue.streams, rows, i, first, next');
      }
      OneMoreWorked(jobs, jobs', store.jobs, rows, i, smooth);
    }

    /** The orphan sweep. It finds as many orphans as there are, up to the limit; every receipt
        it writes is backed by an entry on the stream; without faults it writes exactly as many
        as it found, so below the limit every orphan has one. */
    method RepairUnenqueued(orphanAge: int, limit: nat, now: int, faults: nat -> Faults) returns (found: nat)
      requires queue.Valid()
      modifies store`jobs, store`events, queue
      ensures queue.Valid() && queue.next >= old(queue.next) && Grows(old(queue.streams), queue.streams, old(queue.next))
      ensures store.jobs.Keys == old(store.jobs).Keys
      ensures forall id :: id in store.jobs ==>
                store.jobs[id] == old(store.jobs)[id]
                || (&& old(store.jobs)[id].status == Pending && old(store.jobs)[id].enqueued.None?
                    && old(store.jobs)[id].scheduledAt <= now && old(store.jobs)[id].createdAt < now - orphanAge
                    && Receipted(old(store.jobs)[id], store.jobs[id], queue.streams, id))
      ensures OnlySent(old(store.jobs), old(queue.streams), queue.streams, now,
                       ToRepair(orphanAge, now))
      ensures found == Min(limit, |OrphanedJobs(old(store.jobs), orphanAge, now)|)
      ensures (forall i :: Smooth(faults(i))) ==> |Changed(old(store.jobs), store.jobs)| == found
      ensures (forall i :: Smooth(faults(i))) && found < limit ==>
                forall id :: id in store.jobs && old(store.jobs)[id].status == Pending && old(store.jobs)[id].enqueued.None?
                             && old(store.jobs)[id].scheduledAt <= now && old(store.jobs)[id].createdAt < now - orphanAge ==>
                  store.jobs[id].enqueued.Some? && FreshCopy(queue.streams, id, old(queue.next))
    {
      hide StreamOk, Ready, FreshCopy, Grows, WasRead, Smooth, OrphanedJobs, Worked, Changed, RepairedJobs, Rewired, Queued, OnlySent, AllReceipted, Receipted, Repaired, Orphaned, NewEnvelope, Added;
      ghost var jobs, streams, first := store.jobs, queue.streams, queue.next;
      ghost var smooth := forall k :: Smooth(faults(k));
      SameIsGrowth(streams, streams, first);
      var rows := store.ListUnenqueued(orphanAge, limit, now);
      found := |rows|;
      NothingWorked(jobs, rows, smooth);
      NothingReceipted(jobs, streams, rows, first, orphanAge, now);
      NothingSent(jobs, streams, now, ToRepair(orphanAge, now));
      for i := 0 to |rows|
        invariant queue.Valid() && queue.next >= first && Grows(streams, queue.streams, first)
        invariant store.jobs.Keys == jobs.Keys && Worked(jobs, store.jobs, rows, i, smooth)
        invariant OnlySent(jobs, streams, queue.streams, now, ToRepair(orphanAge, now))
        invariant AllReceipted(jobs, store.jobs, queue.streams, orphanAge, now)
        invariant smooth ==> Repaired(store.jobs, queue.streams, rows, i, first)
      {
        assert smooth ==> Smooth(faults(i));
        RepairNext(jobs, streams, first, rows, i, orphanAge, now, faults(i), smooth);
      }
      WorkedAll(jobs, store.jobs, rows, smooth);
      ReceiptsMean(jobs, store.jobs, queue.streams, rows, smooth && found < limit, first, orphanAge, now);
    }

    /** One stuck retry: enqueue, then the flip. */
    method UnstickRow(r: Requeueable, now: int, f: Faults)
      requires queue.Valid()
      modifies store`jobs, queue
      ensures queue.Valid() && queue.next >= old(queue.next) && Grows(old(queue.streams), queue.streams, old(queue.next))
      ensures store.jobs.Keys == old(store.jobs).Keys && Backed(old(store.jobs), store.jobs, queue.streams, old(queue.next))
      ensures forall id :: id in store.jobs ==> Flipped(old(store.jobs)[id], store.jobs[id])
      ensures store.jobs == UnstuckJobs(old(store.jobs), r, now, f) && queue.View() == Rewired(old(queue.View()), r, now, f)
      ensures forall id :: id in store.jobs && id != r.id ==> store.jobs[id] == old(store.jobs)[id]
      ensures Smooth(f) ==> forall id :: id == r.id && id in store.jobs ==> store.jobs[id].status != Retrying
      ensures f.xadd.RolledBack? ==> queue.streams == old(queue.streams)
      ensures !f.xadd.RolledBack? ==>
                Queued(old(queue.streams), queue.streams, Msg(old(queue.next), Some(NewEnvelope(r.id, r.spec, r.attempt + 1, now))), r.spec.priority)
    {
      hide StreamOk, Ready, FreshCopy, Grows, WasRead;
      var ref := Put(NewEnvelope(r.id, r.spec, r.attempt + 1, now), now, f.xadd);
      if ref.Some? && !f.markLost {
        OneFlip(store.jobs, r.id, now);
        var _ := store.MarkPromoted([r.id], now);
      }
    }

    /** The stuck-retry sweep. It finds as many overdue RETRYING rows as there are, up to the
        limit; without faults it flips exactly that many, so below the limit none is left. */
    method RepairStuckRetrying(orphanAge: int, limit: nat, now: int, faults: nat -> Faults) returns (found: nat)
      requires queue.Valid()
      modifies store`jobs, queue
      ensures queue.Valid() && queue.next >= old(queue.next) && Grows(old(queue.streams), queue.streams, old(queue.next))
      ensures store.jobs.Keys == old(store.jobs).Keys && Backed(old(store.jobs), store.jobs, queue.streams, old(queue.next))
      ensures forall id :: id in store.jobs ==> Flipped(old(store.jobs)[id], store.jobs[id])
      ensures found == Min(limit, |StuckJobs(old(store.jobs), orphanAge, now)|)
      ensures (forall i :: Smooth(faults(i))) ==> |Changed(old(store.jobs), store.jobs)| == found
      ensures forall id :: id in store.jobs && store.jobs[id] != old(store.jobs)[id] ==> old(store.jobs)[id].scheduledAt < now - orphanAge
      ensures OnlySent(old(store.jobs), old(queue.streams), queue.streams, now, (r: Row) => r.status == Retrying && r.scheduledAt < now - orphanAge)
      ensures (forall i :: Smooth(faults(i))) && found < limit ==>
                forall id :: id in store.jobs && store.jobs[id].status == Retrying ==> store.jobs[id].scheduledAt >= now - orphanAge
    {
      hide StreamOk, Ready, FreshCopy, Grows, WasRead, Backed, Flipped, Smooth, StuckJobs, Worked, Changed, UnstuckJobs, Rewired, Queued, OnlySent;
      ghost var jobs, streams, first := store.jobs, queue.streams, queue.next;
      ghost var smooth := forall k :: Smooth(faults(k));
      SameIsGrowth(streams, streams, first);
      BackedStarts(jobs, streams, first);
      NothingFlipped(jobs);
      var rows := store.ListStuckRetrying(orphanAge, limit, now);
      found := |rows|;
      NothingWorked(jobs, rows, smooth);
      ghost var due := (r: Row) => r.status == Retrying && r.scheduledAt < now - orphanAge;
      NothingSent(jobs, streams, now, due);
      for i := 0 to |rows|
        invariant queue.Valid() && queue.next >= first && Grows(streams, queue.streams, first)
        invariant store.jobs.Keys == jobs.Keys && Backed(jobs, store.jobs, queue.streams, first)
        invariant AllFlipped(jobs, store.jobs) && OnlySent(jobs, streams, queue.streams, now, due)
        invariant smooth ==> Unstuck(store.jobs, rows, i)
        invariant Worked(jobs, store.jobs, rows, i, smooth)
      {
        ghost var jobs', streams', next' := store.jobs, queue.streams, queue.next;
        assert smooth ==> Smooth(faults(i));
        UnstickRow(rows[i], now, faults(i));
        OneMoreSent(jobs, streams, streams', queue.streams, now, due, rows[i], next', faults(i).xadd.RolledBack?);
        GrowthComposes(streams, streams', queue.streams, first, next');
        BackedComposes(jobs, jobs', store.jobs, streams', queue.streams, first, next');
        FlippedStep(jobs, jobs', store.jobs, rows, i, smooth);
        WasRetrying(jobs, rows[i].id, orphanAge, now);
        OneMoreWorked(jobs, jobs', store.jobs, rows, i, smooth);
      }
      WorkedAll(jobs, store.jobs, rows, smooth);
      OnlyListedChanged(jobs, store.jobs, rows, smooth);
      NoneStuck(jobs, store.jobs, rows, smooth && found < limit, orphanAge, now);
    }
  }

  lemma NextIsParked(jobs: Jobs, before: map<Priority, map<Envelope, int>>, after: map<Priority, map<Envelope, int>>, env: Envelope,
                     now: int, at: int)
    requires env.id in jobs && jobs[env.id].status == Retrying && env.attempt == jobs[env.id].attempts + 1
    requires at >= now && after == Parked(before, env, at)
    ensures ParkedNext(jobs, before, after, env, now)
  {
  }

  lemma AddedPel(st: Stream, m: Msg)
    ensures Added(st, m).pel == st.pel
  {
  }

  lemma NothingSwept(jobs: Jobs, grace: int, now: int)
    ensures forall id :: id in jobs ==> Swept(jobs[id], jobs[id], grace, now)
  {
  }

  lemma ReapKeepsPending(jobs: Jobs, id: JobId, delay: int, grace: int, now: int)
    ensures var t := At(now, Reap(id, delay, grace));
            && (forall j :: j in jobs && j in Exec(jobs, t) && Exec(jobs, t)[j].status == Pending ==> jobs[j].status == Pending)
            && (Applies(jobs, t) ==> id in jobs && id in Exec(jobs, t) && Exec(jobs, t)[id].status != Pending && Exec(jobs, t)[id].attempts == jobs[id].attempts)
            && (!Applies(jobs, t) ==> Exec(jobs, t) == jobs)
  {
  }

  lemma ParkedAt(after: map<Priority, map<Envelope, int>>, before: map<Priority, map<Envelope, int>>, env: Envelope, at: int)
    requires env.priority in before && after == before[env.priority := before[env.priority][env := at]]
    ensures after == Parked(before, env, at)
  {
  }

  /** The deliveries from the k-th on have been read. */
  ghost predicate AllRead(streams: map<Priority, Stream>, next: int, ds: seq<Delivery>, k: nat) {
    forall j :: k <= j < |ds| ==> ds[j].priority in streams && ds[j].entry < next && WasRead(streams[ds[j].priority], ds[j].entry)
  }

  lemma AllAreRead(streams: map<Priority, Stream>, next: int, ds: seq<Delivery>)
    requires forall d :: d in ds ==> d.priority in streams && d.entry < next && WasRead(streams[d.priority], d.entry)
    ensures AllRead(streams, next, ds, 0)
  {
  }

  lemma NextIsRead(streams: map<Priority, Stream>, next: int, ds: seq<Delivery>, k: nat)
    requires k < |ds| && AllRead(streams, next, ds, k)
    ensures ds[k].priority in streams && ds[k].entry < next && WasRead(streams[ds[k].priority], ds[k].entry)
  {
  }

  lemma RestIsRead(before: map<Priority, Stream>, after: map<Priority, Stream>, next: int, next': int, ds: seq<Delivery>, k: nat)
    requires k < |ds| && AllRead(before, next, ds, k) && Grows(before, after, next) && next <= next'
    ensures AllRead(after, next', ds, k + 1)
  {
    hide Grows, WasRead;
    forall j | k + 1 <= j < |ds|
      ensures ds[j].priority in after && ds[j].entry < next' && WasRead(after[ds[j].priority], ds[j].entry)
    {
      StillRead(before, after, ds[j].priority, ds[j].entry, next);
    }
  }

  /** The first k deliveries are settled: gone, and their rows not expired. */
  ghost predicate Handled(jobs: Jobs, streams: map<Priority, Stream>, ds: seq<Delivery>, k: nat, now: int)
    requires k <= |ds|
  {
    forall j :: 0 <= j < k && ds[j].env.id in jobs ==>
      && (ds[j].priority in streams ==> ds[j].entry !in streams[ds[j].priority].pel) && !Expired(jobs[ds[j].env.id], 0, now)
  }

  lemma NothingHandled(jobs: Jobs, streams: map<Priority, Stream>, ds: seq<Delivery>, now: int)
    ensures Handled(jobs, streams, ds, 0, now)
  {
  }

  lemma OneMoreHandled(jobs: Jobs, jobs': Jobs, streams: map<Priority, Stream>, streams': map<Priority, Stream>, ds: seq<Delivery>, k: nat,
                       now: int)
    requires k < |ds| && Handled(jobs, streams, ds, k, now) && jobs.Keys == jobs'.Keys
    requires forall id :: id in jobs && !Expired(jobs[id], 0, now) ==> !Expired(jobs'[id], 0, now)
    requires forall p: Priority :: p in streams && p in streams' && streams'[p].pel.Keys <= streams[p].pel.Keys
    requires ds[k].env.id in jobs' ==> ds[k].entry !in streams'[ds[k].priority].pel && !Expired(jobs'[ds[k].env.id], 0, now)
    ensures Handled(jobs', streams', ds, k + 1, now)
  {
    hide Expired;
  }

  lemma AllHandled(jobs: Jobs, streams: map<Priority, Stream>, ds: seq<Delivery>, now: int, smooth: bool)
    requires forall p: Priority :: p in streams
    requires smooth ==> Handled(jobs, streams, ds, |ds|, now)
    ensures smooth ==> forall d :: d in ds && d.env.id in jobs ==> d.entry !in streams[d.priority].pel && !Expired(jobs[d.env.id], 0, now)
  {
  }

  // ------------------------------------------------------------------ what a pass keeps

  /** An entry that left the pending list was poison, or its job does not depend on it. */
  ghost predicate Accounted(st: Stream, entry: int, jobs: Jobs, streams: map<Priority, Stream>, since: int) {
    exists m :: m in st.entries && m.id == entry && (m.env.None? || Spent(jobs, streams, m.env.value.id, since))
  }

  ghost predicate PassOk(jobs: Jobs, jobs': Jobs, streams: map<Priority, Stream>, streams': map<Priority, Stream>,
                         since: int, grace: int, now: int)
  {
    && Grows(streams, streams', since) && Backed(jobs, jobs', streams', since)
    && (forall id :: id in jobs' ==> Swept(jobs[id], jobs'[id], grace, now))
    && (forall p: Priority, e | e in streams[p].pel && e !in streams'[p].pel :: Accounted(streams[p], e, jobs', streams', since))
  }

  lemma PassStarts(jobs: Jobs, streams: map<Priority, Stream>, streams': map<Priority, Stream>, since: int, grace: int, now: int)
    requires forall p: Priority :: p in streams && p in streams' && Ready(streams'[p]) == Ready(streams[p])
    requires forall p: Priority, e | e in streams[p].pel && e !in streams'[p].pel :: PoisonEntry(streams[p], e)
    ensures PassOk(jobs, jobs, streams, streams', since, grace, now)
  {
    SameIsGrowth(streams, streams', since);
  }

  lemma SpentStays(jobs: Jobs, jobs': Jobs, streams: map<Priority, Stream>, streams': map<Priority, Stream>,
                   id: JobId, since: int, added: int)
    requires Spent(jobs, streams, id, since) && jobs.Keys == jobs'.Keys && Grows(streams, streams', added)
    requires jobs'[id].status == Pending ==> jobs[id].status == Pending
    ensures Spent(jobs', streams', id, since)
  {
    hide Grows, FreshCopy;
    if jobs'[id].status == Pending {
      FreshStays(streams, streams', id, since, added);
    }
  }

  lemma SweptComposes(a: Row, b: Row, c: Row, grace: int, now: int)
    requires Swept(a, b, grace, now) && Swept(b, c, grace, now)
    ensures Swept(a, c, grace, now)
    ensures c.status == Pending ==> b.status == Pending
  {
  }

  /** One delivery handled on top of a pass so far. */
  lemma PassStep(jobs: Jobs, jobs': Jobs, jobs'': Jobs, streams: map<Priority, Stream>, streams': map<Priority, Stream>,
                 streams'': map<Priority, Stream>, since: int, next': int, grace: int, now: int, d: Delivery)
    requires PassOk(jobs, jobs', streams, streams', since, grace, now) && since <= next'
    requires Grows(streams', streams'', next') && Backed(jobs', jobs'', streams'', next')
    requires forall id :: id in jobs' ==> id in jobs'' && Swept(jobs'[id], jobs''[id], grace, now)
    requires forall p: Priority :: p in streams && p in streams' && p in streams''
    requires forall p: Priority :: p != d.priority ==> streams''[p].pel == streams'[p].pel
    requires Msg(d.entry, Some(d.env)) in streams[d.priority].entries
    requires streams''[d.priority].pel == streams'[d.priority].pel
             || (Spent(jobs'', streams'', d.env.id, next') && streams''[d.priority].pel == streams'[d.priority].pel - {d.entry})
    ensures PassOk(jobs, jobs'', streams, streams'', since, grace, now)
  {
    hide Grows, FreshCopy, Swept, Spent, Ready;
    GrowthComposes(streams, streams', streams'', since, next');
    forall id | id in jobs'' ensures Swept(jobs[id], jobs''[id], grace, now) && (jobs''[id].status == Pending ==> jobs'[id].status == Pending) {
      SweptComposes(jobs[id], jobs'[id], jobs''[id], grace, now);
    }
    BackedComposes(jobs, jobs', jobs'', streams', streams'', since, next');
    forall p: Priority, e | e in streams[p].pel && e !in streams''[p].pel ensures Accounted(streams[p], e, jobs'', streams'', since) {
      if e !in streams'[p].pel {
        var m :| m in streams[p].entries && m.id == e && (m.env.None? || Spent(jobs', streams', m.env.value.id, since));
        if m.env.Some? {
          InTable(jobs', streams', m.env.value.id, since);
          SpentStays(jobs', jobs'', streams', streams'', m.env.value.id, since, next');
        }
      } else {
        SpentSooner(jobs'', streams'', d.env.id, since, next');
        assert Msg(d.entry, Some(d.env)).id == e;
      }
    }
  }

  lemma InTable(jobs: Jobs, streams: map<Priority, Stream>, id: JobId, since: int)
    requires Spent(jobs, streams, id, since)
    ensures id in jobs
  {
  }

  lemma SpentSooner(jobs: Jobs, streams: map<Priority, Stream>, id: JobId, since: int, later: int)
    requires Spent(jobs, streams, id, later) && since <= later
    ensures Spent(jobs, streams, id, since)
  {
    if jobs[id].status == Pending {
      OlderIsFresher(streams, id, later, since);
    }
  }

  lemma SpentIf(jobs: Jobs, streams: map<Priority, Stream>, id: JobId, since: int)
    ensures id in jobs && (jobs[id].status == Pending ==> FreshCopy(streams, id, since)) ==> Spent(jobs, streams, id, since)
  {
  }

  lemma CopiedStays(jobs: Jobs, before: map<Priority, Stream>, middle: map<Priority, Stream>, after: map<Priority, Stream>,
                    env: Envelope, id: int, now: int)
    requires Copied(jobs, before, middle, env, id, now)
    requires forall p: Priority :: p in middle && p in after && Ready(after[p]) == Ready(middle[p])
    ensures Copied(jobs, before, after, env, id, now)
  {
  }

  lemma BackedStarts(jobs: Jobs, streams: map<Priority, Stream>, since: int)
    ensures Backed(jobs, jobs, streams, since)
  {
  }

  lemma BackedComposes(a: Jobs, b: Jobs, c: Jobs, streams: map<Priority, Stream>, streams': map<Priority, Stream>,
                       since: int, later: int)
    requires Backed(a, b, streams, since) && Backed(b, c, streams', later) && Grows(streams, streams', later) && since <= later
    ensures Backed(a, c, streams', since)
  {
    hide FreshCopy, Grows;
    forall id | id in a && a[id].status != Pending && c[id].status == Pending ensures FreshCopy(streams', id, since) {
      if b[id].status == Pending {
        FreshStays(streams, streams', id, since, later);
      } else {
        OlderIsFresher(streams', id, later, since);
      }
    }
  }

  // ------------------------------------------------------------------ promotion

  /** Unchanged, or the RETRYING -> PENDING flip. */
  predicate Flipped(before: Row, after: Row) {
    after == before || (before.status == Retrying && after == before.(status := Pending))
  }

  lemma {:induction false} FlatMembers(parts: seq<seq<Envelope>>, e: Envelope)
    ensures e in Flat(parts) <==> exists i :: 0 <= i < |parts| && e in parts[i]
  {
    if parts != [] {
      var init := parts[..|parts| - 1];
      FlatMembers(init, e);
      assert forall i :: 0 <= i < |init| ==> init[i] == parts[i];
    }
  }

  ghost predicate AllFlipped(jobs: Jobs, jobs': Jobs) {
    jobs.Keys == jobs'.Keys && forall id :: id in jobs' ==> Flipped(jobs[id], jobs'[id])
  }

  /** The first k rows of a list are no longer RETRYING. */
  ghost predicate Unstuck(jobs: Jobs, rows: seq<Requeueable>, k: nat)
    requires k <= |rows|
  {
    forall j :: 0 <= j < k ==> rows[j].id in jobs && jobs[rows[j].id].status != Retrying
  }

  lemma NothingFlipped(jobs: Jobs)
    ensures AllFlipped(jobs, jobs)
  {
  }

  lemma FlippedStep(jobs: Jobs, jobs': Jobs, jobs'': Jobs, rows: seq<Requeueable>, i: nat, smooth: bool)
    requires i < |rows| && AllFlipped(jobs, jobs') && jobs'.Keys == jobs''.Keys && rows[i].id in jobs
    requires forall id :: id in jobs'' ==> Flipped(jobs'[id], jobs''[id])
    requires smooth ==> Unstuck(jobs', rows, i) && forall id :: id == rows[i].id && id in jobs'' ==> jobs''[id].status != Retrying
    ensures AllFlipped(jobs, jobs'')
    ensures smooth ==> Unstuck(jobs'', rows, i + 1)
  {
  }

  lemma WasRetrying(jobs: Jobs, id: JobId, orphanAge: int, now: int)
    requires id in jobs && Stuck(jobs[id], orphanAge, now)
    ensures jobs[id].status == Retrying
  {
  }

  lemma NoneStuck(jobs: Jobs, jobs': Jobs, rows: seq<Requeueable>, all: bool, orphanAge: int, now: int)
    requires AllFlipped(jobs, jobs') && (all ==> Unstuck(jobs', rows, |rows|))
    requires all ==> forall id :: id in jobs && jobs[id].status == Retrying && jobs[id].scheduledAt < now - orphanAge ==>
                       exists i :: 0 <= i < |rows| && rows[i].id == id
    ensures forall id :: id in jobs' ==> Flipped(jobs[id], jobs'[id])
    ensures all ==> forall id :: id in jobs' && jobs'[id].status == Retrying ==> jobs'[id].scheduledAt >= now - orphanAge
  {
  }

  lemma FlipsBacked(jobs: Jobs, jobs': Jobs, ids: seq<JobId>, streams: map<Priority, Stream>, since: int)
    requires jobs.Keys == jobs'.Keys
    requires jobs' == jobs
             || forall id :: id in jobs ==> jobs'[id] == if id in ids && jobs[id].status == Retrying then jobs[id].(status := Pending) else jobs[id]
    requires forall id :: id in ids ==> FreshCopy(streams, id, since)
    ensures Backed(jobs, jobs', streams, since)
  {
  }

  function Rank(p: Priority): (i: nat)
    ensures i < |PRIORITY_ORDER| && PRIORITY_ORDER[i] == p
  {
    match p
    case High => 0
    case Default => 1
    case Low => 2
  }

  /** The priorities a promotion reached, and those it did not. */
  ghost predicate Promoted(streams: map<Priority, Stream>, streams': map<Priority, Stream>,
                           delayed: map<Priority, map<Envelope, int>>, delayed': map<Priority, map<Envelope, int>>,
                           parts: seq<seq<Envelope>>, batch: nat, now: int, since: int, p: Priority)
  {
    && p in streams && p in streams' && p in delayed && p in delayed'
    && if Rank(p) < |parts|
       then Moved(streams[p], streams'[p], delayed[p], delayed'[p], parts[Rank(p)], batch, now, since)
       else streams'[p] == streams[p] && delayed'[p] == delayed[p]
  }

  /** A member that is no longer in its delayed set. */
  predicate Left(delayed: map<Priority, map<Envelope, int>>, delayed': map<Priority, map<Envelope, int>>, p: Priority, e: Envelope)
    ensures Left(delayed, delayed', p, e) ==> p in delayed && e in delayed[p]
  {
    p in delayed && p in delayed' && e in delayed[p] && e !in delayed'[p]
  }

  /** After a promotion every envelope that left the delayed set was due and is ready. */
  lemma PromotionIsFresh(streams: map<Priority, Stream>, streams': map<Priority, Stream>,
                         delayed: map<Priority, map<Envelope, int>>, delayed': map<Priority, map<Envelope, int>>,
                         parts: seq<seq<Envelope>>, promoted: seq<Envelope>, batch: nat, now: int, since: int)
    requires |parts| <= 3 && promoted == Flat(parts)
    requires forall p: Priority :: Promoted(streams, streams', delayed, delayed', parts, batch, now, since, p)
    ensures Grows(streams, streams', since)
    ensures forall e :: e in promoted ==> FreshCopy(streams', e.id, since)
    ensures forall p, e :: Left(delayed, delayed', p, e) ==> delayed[p][e] <= now && e in promoted
  {
    hide Moved, FreshCopy, Ready, Rank, Flat;
    forall p: Priority ensures p in streams && p in streams' && Longer(Ready(streams[p]), Ready(streams'[p]), since) {
      assert Promoted(streams, streams', delayed, delayed', parts, batch, now, since, p);
      if Rank(p) < |parts| {
        MovedGrows(streams[p], streams'[p], delayed[p], delayed'[p], parts[Rank(p)], batch, now, since);
      }
    }
    forall e | e in promoted ensures FreshCopy(streams', e.id, since) {
      FlatMembers(parts, e);
      var i :| 0 <= i < |parts| && e in parts[i];
      RankOf(i);
      var p := PRIORITY_ORDER[i];
      assert Promoted(streams, streams', delayed, delayed', parts, batch, now, since, p);
      MovedIsFresh(streams[p], streams', p, delayed[p], delayed'[p], parts[i], batch, now, since, e);
    }
    forall p: Priority, e | Left(delayed, delayed', p, e) ensures delayed[p][e] <= now && e in promoted {
      assert Promoted(streams, streams', delayed, delayed', parts, batch, now, since, p);
      MovedWasDue(streams[p], streams'[p], delayed[p], delayed'[p], parts[Rank(p)], batch, now, since, e);
      FlatMembers(parts, e);
    }
  }

  lemma RankOf(i: nat)
    requires i < 3
    ensures Rank(PRIORITY_ORDER[i]) == i
  {
  }

  lemma MovedWasDue(before: Stream, after: Stream, scores: map<Envelope, int>, left: map<Envelope, int>,
                    moved: seq<Envelope>, batch: nat, now: int, since: int, e: Envelope)
    requires Moved(before, after, scores, left, moved, batch, now, since) && e in scores && e !in left
    ensures e in moved && scores[e] <= now
  {
  }

  /** A promotion that moved fewer than a batch left nothing due behind. */
  lemma MovedDrains(before: Stream, after: Stream, scores: map<Envelope, int>, left: map<Envelope, int>,
                    moved: seq<Envelope>, batch: nat, now: int, since: int, e: Envelope)
    requires Moved(before, after, scores, left, moved, batch, now, since) && |scores| - |left| < batch && e in left
    ensures left[e] > now
  {
    var gone := set x | x in moved;
    DistinctMembers(moved);
    assert gone <= scores.Keys && left.Keys == scores.Keys - gone;
    assert |scores.Keys| - |left.Keys| == |moved|;
    assert |scores| == |scores.Keys| && |left| == |left.Keys|;
  }

  lemma {:induction false} DistinctMembers(moved: seq<Envelope>)
    requires forall i, j :: 0 <= i < j < |moved| ==> moved[i] != moved[j]
    ensures |set x | x in moved| == |moved|
  {
    if moved != [] {
      var init, last := moved[..|moved| - 1], moved[|moved| - 1];
      DistinctMembers(init);
      assert (set x | x in moved) == (set x | x in init) + {last};
    }
  }

  lemma MovedGrows(before: Stream, after: Stream, scores: map<Envelope, int>, left: map<Envelope, int>,
                   moved: seq<Envelope>, batch: nat, now: int, since: int)
    requires Moved(before, after, scores, left, moved, batch, now, since)
    ensures Longer(Ready(before), Ready(after), since)
  {
    hide Ready, InDueOrder;
    var first :| first >= since && Ready(after) == Ready(before) + Wired(moved, first);
  }

  lemma MovedIsFresh(before: Stream, streams: map<Priority, Stream>, p: Priority, scores: map<Envelope, int>,
                     left: map<Envelope, int>, moved: seq<Envelope>, batch: nat, now: int, since: int, e: Envelope)
    requires p in streams && Moved(before, streams[p], scores, left, moved, batch, now, since) && e in moved
    ensures FreshCopy(streams, e.id, since)
  {
    hide Ready, Moved;
    MovedIsReady(before, streams[p], scores, left, moved, batch, now, since, e);
    var m :| m in Ready(streams[p]) && m.env == Some(e) && m.id >= since;
    assert IsCopy(m, e.id, since);
  }

  // ------------------------------------------------------------------ sweeps

  /** The rows two tables differ in. */
  function Changed(jobs: Jobs, jobs': Jobs): set<JobId> {
    set id | id in jobs && (id !in jobs' || jobs'[id] != jobs[id])
  }

  function ListedIds(rows: seq<Requeueable>, k: nat): set<JobId>
    requires k <= |rows|
  {
    set i | 0 <= i < k :: rows[i].id
  }

  ghost predicate NoRepeats(rows: seq<Requeueable>) {
    forall i, j :: 0 <= i < j < |rows| ==> rows[i].id != rows[j].id
  }

  /** So far a sweep changed listed rows only, and without faults each of the first k. */
  ghost predicate Worked(jobs: Jobs, jobs': Jobs, rows: seq<Requeueable>, k: nat, smooth: bool)
    requires k <= |rows|
  {
    && Changed(jobs, jobs') <= ListedIds(rows, k)
    && (smooth ==> ListedIds(rows, k) <= Changed(jobs, jobs'))
  }

  lemma NothingWorked(jobs: Jobs, rows: seq<Requeueable>, smooth: bool)
    ensures Worked(jobs, jobs, rows, 0, smooth)
  {
  }

  /** One more listed row: no other row changes, and without faults this one does. */
  lemma OneMoreWorked(jobs: Jobs, jobs': Jobs, jobs'': Jobs, rows: seq<Requeueable>, k: nat, smooth: bool)
    requires k < |rows| && NoRepeats(rows) && Worked(jobs, jobs', rows, k, smooth)
    requires jobs.Keys == jobs'.Keys == jobs''.Keys && rows[k].id in jobs
    requires forall id :: id in jobs' && id != rows[k].id ==> jobs''[id] == jobs'[id]
    requires smooth ==> jobs''[rows[k].id] != jobs[rows[k].id]
    ensures Worked(jobs, jobs'', rows, k + 1, smooth)
  {
    assert ListedIds(rows, k + 1) == ListedIds(rows, k) + {rows[k].id};
    forall id | id in Changed(jobs, jobs'') ensures id in ListedIds(rows, k + 1) {
      if id != rows[k].id {
        assert id in Changed(jobs, jobs');
      }
    }
    if smooth {
      forall id | id in ListedIds(rows, k + 1) ensures id in Changed(jobs, jobs'') {
        if id in ListedIds(rows, k) {
          assert id in Changed(jobs, jobs') && id != rows[k].id;
        }
      }
    }
  }

  /** The row a sweep comes to is as it was listed. */
  lemma NotYetWorked(jobs: Jobs, jobs': Jobs, rows: seq<Requeueable>, k: nat, smooth: bool)
    requires k < |rows| && NoRepeats(rows) && Worked(jobs, jobs', rows, k, smooth)
    requires jobs.Keys == jobs'.Keys && rows[k].id in jobs
    ensures jobs'[rows[k].id] == jobs[rows[k].id]
  {
    assert rows[k].id !in ListedIds(rows, k);
  }

  lemma OneMoreListed(rows: seq<Requeueable>, k: nat)
    requires k < |rows| && NoRepeats(rows)
    ensures ListedIds(rows, k + 1) == ListedIds(rows, k) + {rows[k].id} && rows[k].id !in ListedIds(rows, k)
  {
  }

  lemma NothingListed(rows: seq<Requeueable>)
    ensures ListedIds(rows, 0) == {}
  {
  }

  lemma {:induction false} ListedOnce(rows: seq<Requeueable>, k: nat)
    requires k <= |rows| && NoRepeats(rows)
    ensures |ListedIds(rows, k)| == k
  {
    hide ListedIds;
    if k > 0 {
      ListedOnce(rows, k - 1);
      OneMoreListed(rows, k - 1);
    } else {
      NothingListed(rows);
    }
  }

  /** Without faults a sweep changes exactly as many rows as it found. */
  lemma WorkedAll(jobs: Jobs, jobs': Jobs, rows: seq<Requeueable>, smooth: bool)
    requires NoRepeats(rows) && Worked(jobs, jobs', rows, |rows|, smooth)
    ensures smooth ==> |Changed(jobs, jobs')| == |rows|
  {
    ListedOnce(rows, |rows|);
    if smooth {
      assert Changed(jobs, jobs') == ListedIds(rows, |rows|);
    }
  }

  lemma ReapEndsExpiry(jobs: Jobs, id: JobId, delay: int, grace: int, now: int)
    ensures var jobs' := Exec(jobs, At(now, Reap(id, delay, grace)));
            jobs'.Keys == jobs.Keys && (id in jobs ==> !Expired(jobs'[id], grace, now))
  {
  }

  /** The next attempt of this row is parked in its delayed set. */
  ghost predicate Waiting(r: Row, delayed: map<Priority, map<Envelope, int>>, id: JobId, now: int) {
    exists e, p :: p in delayed && e in delayed[p] && e.id == id && e.attempt == r.attempts + 1 && delayed[p][e] >= now
  }

  /** A reap never leaves a row expired that was not. */
  lemma SweptNeverExpires(jobs: Jobs, jobs': Jobs, grace: int, now: int)
    requires jobs.Keys == jobs'.Keys && forall id :: id in jobs ==> Swept(jobs[id], jobs'[id], grace, now)
    ensures forall id :: id in jobs && !Expired(jobs[id], grace, now) ==> !Expired(jobs'[id], grace, now)
  {
  }

  lemma SweepStep(jobs: Jobs, jobs': Jobs, jobs'': Jobs, id: JobId, grace: int, now: int)
    requires jobs.Keys == jobs'.Keys == jobs''.Keys
    requires forall j :: j in jobs' ==> Swept(jobs[j], jobs'[j], grace, now)
    requires forall j :: j in jobs' ==> Swept(jobs'[j], jobs''[j], grace, now)
    requires forall j :: j in jobs' && Expired(jobs'[j], grace, now) ==> Expired(jobs[j], grace, now)
    ensures forall j :: j in jobs'' ==> Swept(jobs[j], jobs''[j], grace, now)
    ensures forall j :: j in jobs'' && Expired(jobs''[j], grace, now) ==> Expired(jobs'[j], grace, now)
  {
  }

  lemma ListedAreExpired(jobs: Jobs, rows: seq<Requeueable>, grace: int, now: int)
    requires forall i :: 0 <= i < |rows| ==>
               && rows[i].id in jobs && jobs[rows[i].id].status == Running
               && jobs[rows[i].id].lease.Some? && jobs[rows[i].id].lease.value < now - grace
    ensures forall i :: 0 <= i < |rows| ==> Expired(jobs[rows[i].id], grace, now)
  {
  }

  lemma NoneExpired(jobs: Jobs, jobs': Jobs, rows: seq<Requeueable>, all: bool, grace: int, now: int)
    requires jobs.Keys == jobs'.Keys && forall i :: 0 <= i < |rows| ==> rows[i].id in jobs
    requires all ==> forall i :: 0 <= i < |rows| ==> !Expired(jobs'[rows[i].id], grace, now)
    requires forall id :: id in jobs' && Expired(jobs'[id], grace, now) ==> Expired(jobs[id], grace, now)
    requires all ==> forall id :: id in jobs && jobs[id].status == Running && jobs[id].lease.Some? && jobs[id].lease.value < now - grace ==>
                       exists i :: 0 <= i < |rows| && rows[i].id == id
    ensures all ==> forall id :: id in jobs' && jobs'[id].status == Running && jobs'[id].lease.Some? ==> jobs'[id].lease.value >= now - grace
  {
  }

  /** Every row that was sent back to RETRYING has its next attempt parked. */
  ghost predicate AllWaiting(jobs: Jobs, jobs': Jobs, delayed: map<Priority, map<Envelope, int>>, now: int) {
    jobs.Keys == jobs'.Keys
    && forall id :: id in jobs' && jobs'[id] != jobs[id] && jobs'[id].status == Retrying ==> Waiting(jobs'[id], delayed, id, now)
  }

  lemma NothingWaits(jobs: Jobs, delayed: map<Priority, map<Envelope, int>>, now: int)
    ensures AllWaiting(jobs, jobs, delayed, now)
  {
  }

  lemma WaitingStep(jobs: Jobs, jobs': Jobs, jobs'': Jobs, delayed: map<Priority, map<Envelope, int>>,
                    delayed': map<Priority, map<Envelope, int>>, r: Requeueable, now: int)
    requires AllWaiting(jobs, jobs', delayed, now) && jobs'.Keys == jobs''.Keys
    requires forall id :: id in jobs' && id != r.id ==> jobs''[id] == jobs'[id]
    requires delayed' == delayed || exists k :: ParkedNext(jobs'', delayed, delayed', NewEnvelope(r.id, r.spec, k, now), now)
    requires r.id in jobs'' && jobs'' != jobs' && jobs''[r.id].status == Retrying ==>
               ParkedNext(jobs'', delayed, delayed', NewEnvelope(r.id, r.spec, jobs''[r.id].attempts + 1, now), now)
    ensures AllWaiting(jobs, jobs'', delayed', now)
  {
    forall id | id in jobs'' && jobs''[id] != jobs[id] && jobs''[id].status == Retrying ensures Waiting(jobs''[id], delayed', id, now) {
      if jobs''[id] == jobs'[id] {
        var e, p :| p in delayed && e in delayed[p] && e.id == id && e.attempt == jobs'[id].attempts + 1 && delayed[p][e] >= now;
        assert p in delayed' && e in delayed'[p] && delayed'[p][e] >= now;
      } else {
        var env := NewEnvelope(r.id, r.spec, jobs''[r.id].attempts + 1, now);
        assert env.priority in delayed' && env in delayed'[env.priority] && delayed'[env.priority][env] >= now;
      }
    }
  }

  /** What the orphan sweep may put on the wire: what nobody is known to have enqueued, is old
      enough, and is due. */
  function ToRepair(orphanAge: int, now: int): Row -> bool {
    (r: Row) => r.status == Pending && r.enqueued.None? && r.scheduledAt <= now && r.createdAt < now - orphanAge
  }

  /** The next delivery of a job, spelled out: everything about it comes from its row. */
  predicate NextDelivery(e: Envelope, r: Row, now: int) {
    && e.kind == r.spec.kind && e.queue == r.spec.queue && e.priority == r.spec.priority && e.payload == r.spec.payload
    && e.attempt == r.attempts + 1 && e.enqueuedAt == now
  }

  /** Whatever is new on the streams is the next delivery of a row the sweep was to find. */
  ghost predicate OnlySent(jobs: Jobs, before: map<Priority, Stream>, after: map<Priority, Stream>, now: int, due: Row -> bool) {
    forall p: Priority, m :: p in before && p in after && m in Ready(after[p]) && m !in Ready(before[p]) ==>
      && m.env.Some? && m.env.value.id in jobs
      && due(jobs[m.env.value.id]) && NextDelivery(m.env.value, jobs[m.env.value.id], now)
  }

  lemma NothingSent(jobs: Jobs, streams: map<Priority, Stream>, now: int, due: Row -> bool)
    ensures OnlySent(jobs, streams, streams, now, due)
  {
  }

  lemma OneMoreSent(jobs: Jobs, before: map<Priority, Stream>, middle: map<Priority, Stream>, after: map<Priority, Stream>, now: int,
                    due: Row -> bool, r: Requeueable, entry: int, lost: bool)
    requires OnlySent(jobs, before, middle, now, due) && forall p: Priority :: p in before && p in middle && p in after
    requires r.id in jobs && r == Requeueable(r.id, jobs[r.id].spec, jobs[r.id].attempts) && due(jobs[r.id])
    requires if lost then after == middle
             else Queued(middle, after, Msg(entry, Some(NewEnvelope(r.id, r.spec, r.attempt + 1, now))), r.spec.priority)
    ensures OnlySent(jobs, before, after, now, due)
  {
    hide Ready;
  }

  lemma OnlyListedChanged(jobs: Jobs, jobs': Jobs, rows: seq<Requeueable>, smooth: bool)
    requires jobs.Keys == jobs'.Keys && Worked(jobs, jobs', rows, |rows|, smooth)
    ensures forall id :: id in jobs && jobs'[id] != jobs[id] ==> exists i :: 0 <= i < |rows| && rows[i].id == id
  {
    forall id | id in jobs && jobs'[id] != jobs[id] ensures exists i :: 0 <= i < |rows| && rows[i].id == id {
      assert id in Changed(jobs, jobs');
    }
  }

  /** The receipt of an entry that is on the stream. */
  ghost predicate Receipted(before: Row, after: Row, streams: map<Priority, Stream>, id: JobId) {
    && before.enqueued.None?
    && exists entry :: after == before.(enqueued := Some(InStream(entry))) && FreshCopy(streams, id, entry)
  }

  /** Every row that changed was an orphan and got its receipt. */
  ghost predicate AllReceipted(jobs: Jobs, jobs': Jobs, streams: map<Priority, Stream>, orphanAge: int, now: int) {
    && jobs.Keys == jobs'.Keys
    && forall id :: id in jobs' ==>
         jobs'[id] == jobs[id] || (Orphaned(jobs[id], orphanAge, now) && Receipted(jobs[id], jobs'[id], streams, id))
  }

  /** The first k listed rows have receipts and fresh copies. */
  ghost predicate Repaired(jobs: Jobs, streams: map<Priority, Stream>, rows: seq<Requeueable>, k: nat, since: int)
    requires k <= |rows|
  {
    forall j :: 0 <= j < k ==> rows[j].id in jobs && jobs[rows[j].id].enqueued.Some? && FreshCopy(streams, rows[j].id, since)
  }

  lemma NothingReceipted(jobs: Jobs, streams: map<Priority, Stream>, rows: seq<Requeueable>, since: int, orphanAge: int, now: int)
    ensures AllReceipted(jobs, jobs, streams, orphanAge, now) && Repaired(jobs, streams, rows, 0, since)
  {
  }

  lemma ReceiptsStay(jobs: Jobs, jobs': Jobs, jobs'': Jobs, streams: map<Priority, Stream>, streams': map<Priority, Stream>,
                     id: JobId, added: int, orphanAge: int, now: int)
    requires AllReceipted(jobs, jobs', streams, orphanAge, now) && Grows(streams, streams', added) && jobs'.Keys == jobs''.Keys
    requires id in jobs && jobs[id].status == Pending && jobs[id].enqueued.None?
    requires jobs[id].scheduledAt <= now && jobs[id].createdAt < now - orphanAge
    requires forall j :: j in jobs'' ==> jobs''[j] == jobs'[j] || (j == id && Receipted(jobs'[j], jobs''[j], streams', j))
    ensures AllReceipted(jobs, jobs'', streams', orphanAge, now)
    ensures forall j :: j in jobs'' && jobs'[j].enqueued.Some? ==> jobs''[j].enqueued.Some?
  {
    hide FreshCopy, Grows;
    forall j | j in jobs'' && jobs''[j] != jobs[j]
      ensures Orphaned(jobs[j], orphanAge, now) && Receipted(jobs[j], jobs''[j], streams', j)
    {
      if jobs''[j] == jobs'[j] {
        var entry :| jobs'[j] == jobs[j].(enqueued := Some(InStream(entry))) && FreshCopy(streams, j, entry);
        FreshStays(streams, streams', j, entry, added);
      }
    }
  }

  lemma OneMoreRepaired(jobs: Jobs, jobs': Jobs, streams: map<Priority, Stream>, streams': map<Priority, Stream>, rows: seq<Requeueable>,
                        k: nat, since: int, added: int)
    requires k < |rows| && since <= added && jobs.Keys == jobs'.Keys && Grows(streams, streams', added)
    requires Repaired(jobs, streams, rows, k, since)
    requires forall j :: j in jobs' && jobs[j].enqueued.Some? ==> jobs'[j].enqueued.Some?
    requires rows[k].id in jobs' && jobs'[rows[k].id].enqueued.Some? && FreshCopy(streams', rows[k].id, added)
    ensures Repaired(jobs', streams', rows, k + 1, since)
  {
    hide FreshCopy, Grows;
    OlderIsFresher(streams', rows[k].id, added, since);
    forall j | 0 <= j < k ensures FreshCopy(streams', rows[j].id, since) {
      FreshStays(streams, streams', rows[j].id, since, added);
    }
  }

  lemma ReceiptsMean(jobs: Jobs, jobs': Jobs, streams: map<Priority, Stream>, rows: seq<Requeueable>, all: bool, since: int, orphanAge: int,
                     now: int)
    requires AllReceipted(jobs, jobs', streams, orphanAge, now) && (all ==> Repaired(jobs', streams, rows, |rows|, since))
    requires all ==> forall id :: id in jobs && jobs[id].status == Pending && jobs[id].enqueued.None?
                                  && jobs[id].scheduledAt <= now && jobs[id].createdAt < now - orphanAge ==>
                       exists i :: 0 <= i < |rows| && rows[i].id == id
    ensures forall id :: id in jobs' ==>
              jobs'[id] == jobs[id]
              || (&& jobs[id].status == Pending && jobs[id].enqueued.None?
                  && jobs[id].scheduledAt <= now && jobs[id].createdAt < now - orphanAge && Receipted(jobs[id], jobs'[id], streams, id))
    ensures all ==> forall id :: id in jobs' && jobs[id].status == Pending && jobs[id].enqueued.None?
                                 && jobs[id].scheduledAt <= now && jobs[id].createdAt < now - orphanAge ==>
                      jobs'[id].enqueued.Some? && FreshCopy(streams, id, since)
  {
    hide FreshCopy, Receipted;
  }
}
