/** One delivery from claim to ack, as the runner runs it (internal/worker/runner.go). Every
    call to Postgres or Redis can fail or land unseen, and while a handler works anybody else
    may run any statements on the table. */
module Runners {
  import opened Common
  import opened Job
  import opened Rows
  import opened Outcomes
  import opened Tables
  import opened Stores
  import opened Batch
  import opened BatchLog
  import opened Recorders
  import opened Queues
  import Fencing
  import Backoff

  /** How the recorder's work went: a direct write, or a batched flush with its one retry,
      whose receipt the runner may give up waiting for. */
  datatype Link =
    | Direct(fate: Fate, attemptLost: bool)
    | Batched(first: Fate, later: int, second: Fate, gaveUp: bool)

  /** One tick of the heartbeat: what others did to the table since the previous one, which
      store is unreachable, and whether the cancel flag was seen. */
  datatype Beat = Beat(others: seq<Timed>, now: int, redisDown: bool, storeDown: bool, cancelSeen: bool)

  datatype Faults = Faults(link: Link, attemptLost: bool, zaddLost: bool, ackLost: bool)

  /** The end of an execution: what the handler returned, the clock, and the backoff draw. */
  datatype Finished = Finished(err: Error, result: string, msg: string, now: int, draw: real)

  /** The claim is still a matter of record: its epoch was handed out for an existing row. */
  predicate Granted(jobs: Jobs, g: Grant) {
    g.id in jobs && g.epoch <= jobs[g.id].epoch
  }

  /** The table after the first n heartbeats: everybody else's statements, then our renewal. */
  function Beaten(start: Jobs, g: Grant, ttl: int, beats: seq<Beat>, n: nat): Jobs
    requires n <= |beats|
  {
    if n == 0 then start
    else BeatOnce(Beaten(start, g, ttl, beats, n - 1), g, ttl, beats[n - 1])
  }

  function BeatOnce(jobs: Jobs, g: Grant, ttl: int, beat: Beat): Jobs {
    var now := TableFrom(jobs, beat.others, |beat.others|);
    if beat.storeDown then now else Exec(now, At(beat.now, Extend(g.id, g.epoch, ttl)))
  }

  /** What one tick reports, on the table it meets: a refused renewal means the lease is lost,
      and only then is the flag polled. */
  function TickCause(jobs: Jobs, g: Grant, beat: Beat): Error {
    if !beat.storeDown && !OpenClaim(TableFrom(jobs, beat.others, |beat.others|), g) then Some([LeaseLostMark])
    else if beat.cancelSeen then Some([CancelRequestedMark])
    else None
  }

  /** How far the heartbeat gets in the first n ticks, and what stopped it, if anything. */
  function Until(start: Jobs, g: Grant, ttl: int, beats: seq<Beat>, n: nat): (r: (nat, Error))
    requires n <= |beats|
    ensures r.0 <= n
  {
    if n == 0 then (0, None)
    else
      var before := Until(start, g, ttl, beats, n - 1);
      if before.1.Some? then before else (n, TickCause(Beaten(start, g, ttl, beats, n - 1), g, beats[n - 1]))
  }

  lemma NotBeaten(start: Jobs, g: Grant, ttl: int, beats: seq<Beat>)
    ensures Beaten(start, g, ttl, beats, 0) == start
  {
  }

  /** The table a tick meets: what the ticks before left, and everybody else's statements. */
  function Met(start: Jobs, g: Grant, ttl: int, beats: seq<Beat>, i: nat): Jobs
    requires i < |beats|
  {
    TableFrom(Beaten(start, g, ttl, beats, i), beats[i].others, |beats[i].others|)
  }

  /** A cause is never invented and never missed. A lost lease is one the table has released
      for good, a cancellation is a flag that was seen with the claim still open or the store
      out of reach, and no tick before saw either. */
  lemma {:induction false} CausesAreReal(start: Jobs, g: Grant, ttl: int, beats: seq<Beat>, n: nat)
    requires n <= |beats| && Granted(start, g)
    ensures var (beaten, cause) := Until(start, g, ttl, beats, n);
            && (cause.None? ==> beaten == n && forall i :: 0 <= i < n ==> !beats[i].cancelSeen)
            && (Has(cause, LeaseLostMark) ==> Fencing.Released(Beaten(start, g, ttl, beats, beaten), g.id, g.epoch))
            && (Has(cause, CancelRequestedMark) ==> beaten > 0 && beats[beaten - 1].cancelSeen)
            && (forall i :: 0 <= i < (if cause.None? then beaten else beaten - 1) ==>
                  !beats[i].cancelSeen && (beats[i].storeDown || OpenClaim(Met(start, g, ttl, beats, i), g)))
            && (cause.Some? ==>
                  && 0 < beaten <= n
                  && var last := beats[beaten - 1];
                  if !last.storeDown && !OpenClaim(Met(start, g, ttl, beats, beaten - 1), g) then cause == Some([LeaseLostMark])
                  else last.cancelSeen && cause == Some([CancelRequestedMark]))
    ensures Granted(Beaten(start, g, ttl, beats, n), g)
  {
    if n > 0 {
      CausesAreReal(start, g, ttl, beats, n - 1);
      var before, beat := Beaten(start, g, ttl, beats, n - 1), beats[n - 1];
      GrantSurvives(before, beat.others, g, |beat.others|);
      LostMeansReleased(TableFrom(before, beat.others, |beat.others|), g, ttl, beat.now);
    }
  }

  /** Nothing stopped the first n ticks, and the next one reports this. */
  lemma {:induction false} StoppedThere(start: Jobs, g: Grant, ttl: int, beats: seq<Beat>, n: nat, k: nat)
    requires n <= k <= |beats| && Until(start, g, ttl, beats, n).1.Some?
    ensures Until(start, g, ttl, beats, k) == Until(start, g, ttl, beats, n)
    decreases k
  {
    if n < k {
      StoppedThere(start, g, ttl, beats, n, k - 1);
    }
  }

  /** The row of a claim after its outcome write was attempted. */
  ghost predicate Wrote(before: Jobs, after: Jobs, op: RecOp, at: int) {
    after == Exec(before, OutcomeStmt(op, at))
  }

  lemma {:induction false} GrantSurvives(start: Jobs, h: seq<Timed>, g: Grant, k: nat)
    requires k <= |h| && Granted(start, g)
    ensures Granted(TableFrom(start, h, k), g)
  {
    if k > 0 {
      GrantSurvives(start, h, g, k - 1);
    }
  }

  /** With one operation there is nothing to choose. */
  const ANY: Join := (_: JobId) => 0

  /** A batch of one is the simple recorder. */
  lemma FlushOfOne(t: Tables, op: RecOp, now: int)
    ensures Flush(t, [op], now, ANY) == SyncStep(t, op, now)
    ensures FlushFlag(t.jobs, [op], 0, now, ANY) <==> OpenAtStart(t.jobs, op)
  {
    hide SyncStep, Flush, FlushFlag;
    FlushRefinesSync(t, [op], now, ANY);
    assert Sync(t, [op], 1, now) == SyncStep(Sync(t, [op], 0, now), op, now);
    FlagsAgreeExactly(t, [op], now, ANY);
    SyncFlagIsOpen(t, [op], 0, now);
  }

  /** Once attempted, an outcome write leaves its claim released, applied or not. */
  lemma WroteReleases(before: Jobs, after: Jobs, op: RecOp, at: int)
    requires op.id in before && op.epoch <= before[op.id].epoch && Wrote(before, after, op, at)
    ensures Fencing.Released(after, op.id, op.epoch)
  {
  }

  predicate Nominal(link: Link) {
    match link
    case Direct(fate, _) => fate.Committed?
    case Batched(first, _, _, gaveUp) => first.Committed? && !gaveUp
  }

  /** The runner learns that its record is durable. */
  predicate Confirmed(link: Link) {
    match link
    case Direct(fate, _) => fate.Committed?
    case Batched(first, _, second, gaveUp) => (first.Committed? || second.Committed?) && !gaveUp
  }

  /** The moment a link's report vouches for. */
  function ReportedAt(link: Link, now: int): int {
    if link.Batched? && !link.first.Committed? then link.later else now
  }

  lemma GrantedIsHandedOut(jobs: Jobs, op: RecOp, g: Grant)
    requires Granted(jobs, g) && op.id == g.id && op.epoch == g.epoch
    ensures HandedOut(jobs, [op])
  {
  }

  /** A recorder call, either kind. A report, applied or not, means the claim is released for
      good; an applied report means this very write decided the row. */
  method CallRecorder(store: Store, op: RecOp, g: Grant, now: int, link: Link) returns (res: OpResult)
    requires Granted(store.jobs, g) && op.id == g.id && op.epoch == g.epoch
    modifies store
    ensures || store.jobs == old(store.jobs)
            || Wrote(old(store.jobs), store.jobs, op, now)
            || (link.Batched? && Wrote(old(store.jobs), store.jobs, op, link.later))
    ensures res.Reported? <==> Confirmed(link)
    ensures res.Reported? ==> Fencing.Released(store.jobs, op.id, op.epoch)
    ensures res == Reported(true) ==>
              OpenAtStart(old(store.jobs), op) && Wrote(old(store.jobs), store.jobs, op, ReportedAt(link, now))
    ensures Nominal(link) ==>
              res == Reported(OpenAtStart(old(store.jobs), op)) && Wrote(old(store.jobs), store.jobs, op, now)
    ensures Nominal(link) && !(link.Direct? && link.attemptLost) ==> store.attempts == InsertAttempt(old(store.attempts), op.att)
  {
    hide SyncStep, Flush, FlushFlag, Exec, Fencing.Released;
    GrantedIsHandedOut(store.jobs, op, g);
    ghost var before := store.View();
    match link {
      case Direct(fate, attemptLost) =>
        FlushedAlone(before, op, now);
        res := SyncRecord(store, op, now, fate, attemptLost);
        if !fate.RolledBack? {
          WroteReleases(before.jobs, store.jobs, op, now);
        }
      case Batched(first, later, second, gaveUp) =>
        FlushOfOne(before, op, now);
        FlushOfOne(before, op, later);
        FlushedAlone(before, op, now);
        FlushedAlone(before, op, later);
        ghost var plan := Plan(now, ANY, first, [], later, ANY, second);
        AloneByPlan(before, op, plan);
        var rs := FlushBatch(store, [op], Plan(now, ANY, first, [], later, ANY, second));
        res := if gaveUp then Unconfirmed else rs[0];
        if res.Reported? {
          assert AllReleased(store.jobs, [op]);
          assert [op][0] == op;
        }
    }
  }

  /** What one operation's flush does and reports, with nobody in between. */
  lemma AloneByPlan(t: Tables, op: RecOp, plan: Plan)
    requires HandedOut(t.jobs, [op]) && plan.between == [] && plan.join == ANY && plan.join2 == ANY
    ensures var after, res := FlushedBy(t, [op], plan), ResultsBy(t, [op], plan)[0];
            && (after == t || after == Flush(t, [op], plan.now, ANY) || after == Flush(t, [op], plan.later, ANY))
            && (plan.first.Committed? ==>
                  after == Flush(t, [op], plan.now, ANY) && res == Reported(FlushFlag(t.jobs, [op], 0, plan.now, ANY)))
            && (res.Reported? <==> plan.first.Committed? || plan.second.Committed?)
            && (res.Reported? ==> AllReleased(after.jobs, [op]))
            && (res == Reported(true) ==>
                  var at := if plan.first.Committed? then plan.now else plan.later;
                  after == Flush(t, [op], at, ANY) && FlushFlag(t.jobs, [op], 0, at, ANY))
  {
    hide Flush, FlushFlag, AllReleased;
    FlushedAtMostOnce(t, [op], plan);
    NobodyBetween(t);
    NobodyBetween(Transact(t, [op], plan.now, ANY, plan.first));
    NobodyBetween(Flush(t, [op], plan.now, ANY));
    if plan.first.Committed? || plan.second.Committed? {
      ReportsAreDurable(t, [op], plan);
    }
    if plan.first.CommitUnseen? {
      UnseenReportsFenced(t, [op], plan);
    }
  }

  lemma NobodyBetween(t: Tables)
    ensures DidAll(t, [], 0) == t
  {
  }

  lemma FlushedAlone(t: Tables, op: RecOp, at: int)
    ensures Wrote(t.jobs, SyncStep(t, op, at).jobs, op, at)
    ensures SyncStep(t, op, at).attempts == InsertAttempt(t.attempts, op.att)
  {
  }

  /** An interrupted attempt retries at once; any other waits for its backoff. */
  method NextAttempt(policy: Backoff.Policy, outcome: Outcome, attempt: int, done: Finished) returns (nextAt: int)
    requires policy.Representable() && 0.0 <= done.draw < 1.0
    ensures policy.Valid() ==> done.now <= nextAt <= done.now + Backoff.Ceiling(policy, attempt)
    ensures nextAt == done.now + if outcome.OutcomeInterrupted? then 0 else Backoff.Drawn(policy, attempt, done.draw)
  {
    var delay := Backoff.Delay(policy, attempt, done.draw);
    nextAt := if outcome.OutcomeInterrupted? then done.now else done.now + delay;
  }

  class Runner {
    const store: Store
    const queue: Queue
    const policy: Backoff.Policy
    const worker: WorkerId

    constructor (store: Store, queue: Queue, policy: Backoff.Policy, worker: WorkerId)
      ensures this.store == store && this.queue == queue && this.policy == policy && this.worker == worker
    {
      this.store, this.queue, this.policy, this.worker := store, queue, policy, worker;
    }

    /** The ack; losing it is harmless. */
    method Ack(d: Delivery, lost: bool)
      requires queue.Valid() && queue.Known(d)
      modifies queue`streams
      ensures queue.Valid() && (forall p :: Ready(queue.streams[p]) == Ready(old(queue.streams)[p]))
      ensures queue.streams == if lost then old(queue.streams)
                               else old(queue.streams)[d.priority := Acked(old(queue.streams)[d.priority], d.entry)]
    {
      hide Acked, Ready, WasRead, StreamOk;
      if !lost {
        queue.Ack(d.priority, d.entry);
      }
    }

    method Park(env: Envelope, at: int, lost: bool)
      requires queue.Valid()
      modifies queue`delayed
      ensures queue.Valid() && queue.delayed == if lost then old(queue.delayed) else Parked(old(queue.delayed), env, at)
    {
      hide StreamOk, Parked;
      if !lost {
        ParkedByZAdd(queue.delayed, env, at);
        queue.ScheduleRetry(env, at);
      }
    }

    /** One tick: both halves of the lease, then the cancel flag. */
    method Beat(d: Delivery, g: Grant, ttl: int, beat: Beat) returns (cause: Error)
      requires queue.Valid() && Granted(store.jobs, g)
      modifies store`jobs, queue`streams
      ensures queue.Valid() && Granted(store.jobs, g) && store.jobs == BeatOnce(old(store.jobs), g, ttl, beat)
      ensures cause == TickCause(old(store.jobs), g, beat) && queue.View() == BeatHeld(old(queue.View()), worker, d, beat)
      ensures Has(cause, LeaseLostMark) ==> Fencing.Released(store.jobs, g.id, g.epoch)
      ensures cause.None? ==> !beat.cancelSeen && Renewed(store.jobs, queue.streams[d.priority], d.entry, g, ttl, beat)
      ensures forall p :: SameEntries(old(queue.streams)[p], queue.streams[p])
    {
      hide Ready, StreamOk, Exec, SameEntries, Queues.Renewed;
      NothingBeat(queue.streams);
      GrantSurvives(store.jobs, beat.others, g, |beat.others|);
      store.jobs := TableFrom(store.jobs, beat.others, |beat.others|);
      if !beat.redisDown {
        StillSame(queue.streams[d.priority], worker, d.entry, beat.now);
        queue.Heartbeat(worker, d.priority, d.entry, beat.now);
      }
      if !beat.storeDown {
        LostMeansReleased(store.jobs, g, ttl, beat.now);
        var stillOurs := store.ExtendLease(g.id, g.epoch, ttl, beat.now);
        if !stillOurs {
          return Some([LeaseLostMark]);
        }
      }
      return if beat.cancelSeen then Some([CancelRequestedMark]) else None;
    }

    /** Both halves of the lease as the last tick left them. */
    ghost predicate Renewed(jobs: Jobs, st: Stream, entry: int, g: Grant, ttl: int, beat: Beat) {
      && (!beat.storeDown ==> OpenClaim(jobs, g) && jobs[g.id].lease == Some(beat.now + ttl))
      && (!beat.redisDown && entry in st.pel ==> st.pel[entry] == Hold(worker, beat.now))
    }

    /** The lease heartbeat, tick by tick, until the handler is done or a cause stops it. It
        declares the lease lost only if the claim is released for good. */
    method Heartbeat(d: Delivery, g: Grant, ttl: int, beats: seq<Beat>) returns (cause: Error, ghost beaten: nat)
      requires queue.Valid() && Granted(store.jobs, g)
      modifies store`jobs, queue`streams
      ensures queue.Valid() && Granted(store.jobs, g)
      ensures (beaten, cause) == Until(old(store.jobs), g, ttl, beats, |beats|)
      ensures store.jobs == Beaten(old(store.jobs), g, ttl, beats, beaten)
      ensures cause.None? && beats != [] ==>
                Renewed(store.jobs, queue.streams[d.priority], d.entry, g, ttl, beats[|beats| - 1])
      ensures Has(cause, LeaseLostMark) ==> Fencing.Released(store.jobs, g.id, g.epoch)
      ensures forall p :: SameEntries(old(queue.streams)[p], queue.streams[p])
    {
      hide Ready, StreamOk, BeatOnce, SameEntries, OpenClaim, Granted, Fencing.Released, TickCause;
      cause, beaten := None, 0;
      NothingBeat(queue.streams);
      for i := 0 to |beats|
        invariant queue.Valid() && Granted(store.jobs, g)
        invariant beaten == i && cause.None? && (beaten, cause) == Until(old(store.jobs), g, ttl, beats, i)
        invariant store.jobs == Beaten(old(store.jobs), g, ttl, beats, i)
        invariant i > 0 ==> Renewed(store.jobs, queue.streams[d.priority], d.entry, g, ttl, beats[i - 1])
        invariant forall p :: SameEntries(old(queue.streams)[p], queue.streams[p])
      {
        ghost var middle := queue.streams;
        cause := Beat(d, g, ttl, beats[i]);
        SameAgain(old(queue.streams), middle, queue.streams);
        beaten := i + 1;
        if cause.Some? {
          StoppedThere(old(store.jobs), g, ttl, beats, i + 1, |beats|);
          return;
        }
      }
    }

    /** Classify, record, then ack. The entry is acked only once the claim is released for
        good; it is left alone when the record is unconfirmed or the lease was lost; and a
        retry is parked in Redis only if this attempt's RETRYING write is what the row holds. */
    method Finish(d: Delivery, g: Grant, cause: Error, startedAt: int, done: Finished, faults: Faults)
      returns (nextAt: int, res: OpResult)
      requires queue.Valid() && queue.Known(d) && Granted(store.jobs, g) && g.id == d.env.id
      requires policy.Representable() && 0.0 <= done.draw < 1.0
      modifies store, queue`streams, queue`delayed
      ensures queue.Valid() && (forall p :: Ready(queue.streams[p]) == Ready(old(queue.streams)[p]))
      ensures Ended(old(store.jobs), store.jobs, g, cause, done, nextAt, faults)
      ensures Finishing(old(store.jobs), store.jobs, old(queue.View()), queue.View(), d, g, cause, done, nextAt, faults, res)
      ensures Routed(g, cause, done, nextAt).Some? ==>
                Settled(old(store.jobs), store.jobs, old(queue.streams), queue.streams, old(queue.delayed), queue.delayed,
                        d, g, Routed(g, cause, done, nextAt).value, done.now, faults, res)
      ensures Route(FinishOutcome(done.err, cause), g, done.result, done.msg, nextAt).None? ==>
                queue.streams == old(queue.streams) && queue.delayed == old(queue.delayed)
      ensures Route(FinishOutcome(done.err, cause), g, done.result, done.msg, nextAt).None? && !faults.attemptLost ==>
                store.attempts == InsertAttempt(old(store.attempts),
                                    Attempt(g.id, g.attempt, Some(worker), startedAt, done.now, OutcomeLeaseExpired, done.msg))
      ensures res.Reported? ==> Fencing.Released(store.jobs, g.id, g.epoch)
      ensures queue.streams == if res.Reported? && !faults.ackLost
                               then old(queue.streams)[d.priority := Acked(old(queue.streams)[d.priority], d.entry)]
                               else old(queue.streams)
      ensures queue.delayed == old(queue.delayed)
              || (Retries(old(store.jobs), g, cause, done, nextAt)
                  && RetryHandedOff(store.jobs, old(queue.delayed), queue.delayed, d.env, g)
                  && store.jobs[g.id].scheduledAt == nextAt)
      ensures policy.Valid() ==> done.now <= nextAt <= done.now + Backoff.Ceiling(policy, g.attempt)
      ensures nextAt == NextDue(policy, g, cause, done)
      ensures DueByDraw(policy, g.attempt, done.err, cause, done.now, done.draw, nextAt)
      ensures OpenClaim(old(store.jobs), g) && (Nominal(faults.link) || res == Reported(true)) ==>
                EndsByMarks(old(store.jobs), store.jobs, g, done.err, cause, done.result, done.msg, ReportedAt(faults.link, done.now), nextAt)
      ensures res == Unconfirmed ==> queue.streams == old(queue.streams) && queue.delayed == old(queue.delayed)
      ensures res.Reported? <==> Routed(g, cause, done, nextAt).Some? && Confirmed(faults.link)
      ensures NoFault(faults) ==>
                var w := Route(FinishOutcome(done.err, cause), g, done.result, done.msg, nextAt);
                && (w.Some? ==> queue.streams == old(queue.streams)[d.priority := Acked(old(queue.streams)[d.priority], d.entry)])
                && (w.Some? && faults.link.Batched? ==>
                    store.attempts == InsertAttempt(old(store.attempts),
                                        Attempt(g.id, g.attempt, Some(worker), startedAt, done.now, FinishOutcome(done.err, cause), done.msg)))
      ensures NoFault(faults) && Retries(old(store.jobs), g, cause, done, nextAt) ==>
                RetryHandedOff(store.jobs, old(queue.delayed), queue.delayed, d.env, g)
    {
      hide Acked, Ready, WasRead, StreamOk, Exec, Fencing.Released, Backoff.Ceiling, Backoff.Drawn, FinishOutcome, EndsByMarks, DueByDraw, Settled, Attempted, RetryHandedOff, ReportedAt, Backoff.Actual;
      res := Unconfirmed;
      var outcome := FinishOutcome(done.err, cause);
      nextAt := NextAttempt(policy, outcome, g.attempt, done);
      NextIsDueByDraw(policy, g, cause, done);
      EndsHowItRoutes(store.jobs, g, cause, done, nextAt, faults.link);
      var att := Attempt(g.id, g.attempt, Some(worker), startedAt, done.now, outcome, done.msg);
      var w := Route(outcome, g, done.result, done.msg, nextAt);
      if w.None? {
        assert outcome.OutcomeLeaseExpired?;
        if !faults.attemptLost {
          store.RecordAttempt(att);
        }
        return;
      }
      res := RecordAndAck(d, g, RecOp(g.id, g.epoch, w.value, att), done.now, faults);
    }

    /** Durable record first, hand-off and ack second. */
    method RecordAndAck(d: Delivery, g: Grant, op: RecOp, now: int, faults: Faults) returns (res: OpResult)
      requires queue.Valid() && queue.Known(d) && Granted(store.jobs, g)
      requires op.id == g.id && op.epoch == g.epoch && WithinBudget(g, op.write)
      modifies store, queue`streams, queue`delayed
      ensures queue.Valid() && (forall p :: Ready(queue.streams[p]) == Ready(old(queue.streams)[p]))
      ensures if Nominal(faults.link) then store.jobs == Exec(old(store.jobs), OutcomeStmt(op, now))
              else Attempted(old(store.jobs), store.jobs, Rows.Record(g.id, g.epoch, op.write), now, faults.link)
      ensures Nominal(faults.link) || res == Reported(true) ==>
                store.jobs == Exec(old(store.jobs), At(ReportedAt(faults.link, now), Rows.Record(g.id, g.epoch, op.write)))
      ensures Settled(old(store.jobs), store.jobs, old(queue.streams), queue.streams, old(queue.delayed), queue.delayed,
                      d, g, op.write, now, faults, res)
      ensures res.Reported? <==> Confirmed(faults.link)
      ensures res == Unconfirmed ==> queue.streams == old(queue.streams) && queue.delayed == old(queue.delayed)
      ensures res.Reported? ==> Fencing.Released(store.jobs, g.id, g.epoch)
      ensures queue.streams == if res.Reported? && !faults.ackLost
                               then old(queue.streams)[d.priority := Acked(old(queue.streams)[d.priority], d.entry)]
                               else old(queue.streams)
      ensures queue.delayed == old(queue.delayed)
              || (op.write.Retry? && OpenClaim(old(store.jobs), g) && RetryHandedOff(store.jobs, old(queue.delayed), queue.delayed, d.env, g)
                  && store.jobs[g.id].scheduledAt == op.write.nextAt)
      ensures NoFault(faults) ==>
                && queue.streams == old(queue.streams)[d.priority := Acked(old(queue.streams)[d.priority], d.entry)]
                && (faults.link.Batched? ==> store.attempts == InsertAttempt(old(store.attempts), op.att))
                && (op.write.Retry? && OpenClaim(old(store.jobs), g) ==>
                    RetryHandedOff(store.jobs, old(queue.delayed), queue.delayed, d.env, g))
    {
      hide Acked, Ready, WasRead, StreamOk, Exec, Fencing.Released, Parked;
      ghost var before := store.jobs;
      res := CallRecorder(store, op, g, now, faults.link);
      AttemptedByRecord(before, store.jobs, op, now, faults.link);
      if res == Reported(true) && op.write.Retry? {
        WroteRetry(before, store.jobs, op, g, ReportedAt(faults.link, now));
        Park(d.env.(attempt := g.attempt + 1), op.write.nextAt, faults.zaddLost);
      }
      if res.Reported? {
        Ack(d, faults.ackLost);
      }
    }

    /** Execute under heartbeats, then finish. */
    method Execute(d: Delivery, g: Grant, ttl: int, now: int, hasHandler: bool, beats: seq<Beat>, done: Finished, faults: Faults)
      returns (cause: Error, ghost beaten: nat, nextAt: int, res: OpResult)
      requires queue.Valid() && queue.Known(d) && policy.Representable() && 0.0 <= done.draw < 1.0
      requires Granted(store.jobs, g) && g.id == d.env.id
      modifies store, queue`streams, queue`delayed
      ensures queue.Valid() && (forall p :: Ready(queue.streams[p]) == Ready(old(queue.streams)[p]))
      ensures forall p, e :: e in queue.streams[p].pel ==> e in old(queue.streams)[p].pel
      ensures forall p, e :: e in old(queue.streams)[p].pel && e !in queue.streams[p].pel ==>
                p == d.priority && e == d.entry && Fencing.Released(store.jobs, g.id, g.epoch)
      ensures queue.delayed == old(queue.delayed) || RetryHandedOff(store.jobs, old(queue.delayed), queue.delayed, d.env, g)
      ensures NoFault(faults) && !Has(cause, LeaseLostMark) ==> d.entry !in queue.streams[d.priority].pel
      ensures res == Unconfirmed ==>
                queue.delayed == old(queue.delayed) && forall p :: SameEntries(old(queue.streams)[p], queue.streams[p])
      ensures (beaten, cause) == if hasHandler then Until(old(store.jobs), g, ttl, beats, |beats|) else (0, None)
      ensures Has(cause, LeaseLostMark) ==> Fencing.Released(Beaten(old(store.jobs), g, ttl, beats, beaten), g.id, g.epoch)
      ensures nextAt == NextDue(policy, g, cause, Handled(hasHandler, done))
      ensures var err := if hasHandler then done.err else Some([NonRetryableMark]);
              && DueByDraw(policy, g.attempt, err, cause, done.now, done.draw, nextAt)
              && var before := Beaten(old(store.jobs), g, ttl, beats, beaten);
              (OpenClaim(before, g) && (Nominal(faults.link) || res == Reported(true)) ==>
                 EndsByMarks(before, store.jobs, g, err, cause, done.result, done.msg, ReportedAt(faults.link, done.now), nextAt))
      ensures res.Reported? <==> Routed(g, cause, Handled(hasHandler, done), nextAt).Some? && Confirmed(faults.link)
      ensures res.Reported? && !faults.ackLost ==> d.entry !in queue.streams[d.priority].pel
      ensures Ended(Beaten(old(store.jobs), g, ttl, beats, beaten), store.jobs, g, cause, Handled(hasHandler, done), nextAt, faults)
      ensures NoFault(faults) && Retries(Beaten(old(store.jobs), g, ttl, beats, beaten), g, cause, Handled(hasHandler, done), nextAt) ==>
                RetryHandedOff(store.jobs, old(queue.delayed), queue.delayed, d.env, g)
    {
      hide Acked, Ready, WasRead, StreamOk, Exec, Backoff.Ceiling, FinishOutcome, Fencing.Released, SameEntries, Ended, Routed, NextDue, EndsByMarks, DueByDraw, Beaten, Until, Retries, RetryHandedOff, Settled;
      cause, beaten := None, 0;
      var handled := Handled(hasHandler, done);
      if hasHandler {
        cause, beaten := Heartbeat(d, g, ttl, beats);
        SameKnown(old(queue.streams)[d.priority], queue.streams[d.priority], d.entry);
      } else {
        NothingBeat(queue.streams);
        NotBeaten(store.jobs, g, ttl, beats);
      }
      ghost var middle := queue.streams;
      nextAt, res := Finish(d, g, cause, now, handled, faults);
      OnlyThisLeft(old(queue.streams), middle, queue.streams, d);
      AckedEntry(middle[d.priority], d.entry);
      OnlyLostLeasesWriteNothing(cause, g, handled, nextAt);
    }

    /** The whole delivery. The result is the claim, if one was won, and what cut the handler
        short, if anything did. An entry leaves the pending list only after a lost arbitration
        or once the won claim is released for good; no other entry moves, nothing becomes
        ready, and nothing parks but a recorded retry. An unconfirmed record leaves everything in
        Redis alone; without faults the entry does leave, unless the lease was lost. */
    method Run(d: Delivery, ttl: int, now: int, claimFate: Fate, hasHandler: bool, beats: seq<Beat>, done: Finished, faults: Faults)
      returns (won: Option<Grant>, cause: Error, ghost beaten: nat, nextAt: int, res: OpResult)
      requires queue.Valid() && queue.Known(d) && policy.Representable() && 0.0 <= done.draw < 1.0
      modifies store, queue`streams, queue`delayed
      ensures queue.Valid() && (forall p :: Ready(queue.streams[p]) == Ready(old(queue.streams)[p]))
      ensures forall p, e :: e in queue.streams[p].pel ==> e in old(queue.streams)[p].pel
      ensures forall p, e :: e in old(queue.streams)[p].pel && e !in queue.streams[p].pel ==>
                && p == d.priority && e == d.entry && claimFate.Committed?
                && (won.Some? ==> Fencing.Released(store.jobs, won.value.id, won.value.epoch))
                && (won.None? ==> store.jobs == old(store.jobs)
                                  && !(d.env.id in store.jobs && Claimable(store.jobs[d.env.id].status)))
      ensures won.None? ==> cause.None? && beaten == 0 && res == Unconfirmed
      ensures won.Some? <==> claimFate.Committed? && d.env.id in old(store.jobs) && Claimable(old(store.jobs)[d.env.id].status)
      ensures won.Some? ==>
                var row := old(store.jobs)[d.env.id];
                won.value == Grant(d.env.id, row.epoch + 1, row.attempts + 1, row.maxAttempts)
      ensures queue.delayed == old(queue.delayed)
              || (won.Some? && RetryHandedOff(store.jobs, old(queue.delayed), queue.delayed, d.env, won.value))
      ensures won.Some? ==>
                var claimed := Exec(old(store.jobs), At(now, Claim(d.env.id, worker, ttl)));
                && (beaten, cause) == (if hasHandler then Until(claimed, won.value, ttl, beats, |beats|) else (0, None))
                && (Has(cause, LeaseLostMark) ==> Fencing.Released(Beaten(claimed, won.value, ttl, beats, beaten), won.value.id, won.value.epoch))
                && nextAt == NextDue(policy, won.value, cause, Handled(hasHandler, done))
                && (res.Reported? <==> Routed(won.value, cause, Handled(hasHandler, done), nextAt).Some? && Confirmed(faults.link))
                && (res.Reported? && !faults.ackLost ==> d.entry !in queue.streams[d.priority].pel)
                && (NoFault(faults) && Retries(Beaten(claimed, won.value, ttl, beats, beaten), won.value, cause, Handled(hasHandler, done), nextAt) ==>
                      RetryHandedOff(store.jobs, old(queue.delayed), queue.delayed, d.env, won.value))
                && Ended(Beaten(claimed, won.value, ttl, beats, beaten), store.jobs, won.value, cause, Handled(hasHandler, done), nextAt, faults)
      ensures won.Some? ==>
                var err := if hasHandler then done.err else Some([NonRetryableMark]);
                && DueByDraw(policy, won.value.attempt, err, cause, done.now, done.draw, nextAt)
                && var before := Beaten(Exec(old(store.jobs), At(now, Claim(d.env.id, worker, ttl))), won.value, ttl, beats, beaten);
                (OpenClaim(before, won.value) && (Nominal(faults.link) || res == Reported(true)) ==>
                   EndsByMarks(before, store.jobs, won.value, err, cause, done.result, done.msg, ReportedAt(faults.link, done.now), nextAt))
      ensures won.Some? && res == Unconfirmed ==>
                queue.delayed == old(queue.delayed) && forall p :: SameEntries(old(queue.streams)[p], queue.streams[p])
      ensures claimFate.Committed? && NoFault(faults) && !Has(cause, LeaseLostMark) ==> d.entry !in queue.streams[d.priority].pel
    {
      hide Acked, Ready, WasRead, StreamOk, Exec, Backoff.Ceiling, FinishOutcome, Fencing.Released, Ended, Routed, NextDue, EndsByMarks, DueByDraw, Until, Beaten, Retries, RetryHandedOff;
      won, cause, beaten, nextAt, res := None, None, 0, now, Unconfirmed;
      if claimFate.RolledBack? {
        return;
      }
      var grant := store.ClaimJob(d.env.id, worker, ttl, now);
      if claimFate.CommitUnseen? {
        return;
      }
      AckedEntry(queue.streams[d.priority], d.entry);
      if grant.None? {
        ClaimRefused(old(store.jobs), d.env.id, worker, ttl, now);
        Ack(d, faults.ackLost);
        return;
      }
      won := grant;
      ClaimKeeps(old(store.jobs), d.env.id, worker, ttl, now);
      cause, beaten, nextAt, res := Execute(d, grant.value, ttl, now, hasHandler, beats, done, faults);
    }
  }

  // ------------------------------------------------------------------ what the steps mean

  /** Heartbeats restart clocks; no entry arrives, moves or leaves. */
  ghost predicate SameEntries(before: Stream, after: Stream) {
    after.entries == before.entries && after.cursor == before.cursor && after.pel.Keys == before.pel.Keys
    && Ready(after) == Ready(before)
  }

  lemma StillSame(st: Stream, c: Consumer, id: int, now: int)
    ensures SameEntries(st, Queues.Renewed(st, c, id, now))
  {
  }

  lemma SameKnown(before: Stream, after: Stream, id: int)
    requires SameEntries(before, after) && WasRead(before, id)
    ensures WasRead(after, id)
  {
  }

  lemma OnlyLostLeasesWriteNothing(cause: Error, g: Grant, done: Finished, nextAt: int)
    ensures Routed(g, cause, done, nextAt).None? <==> done.err.Some? && Has(cause, LeaseLostMark)
  {
  }

  lemma SameAgain(start: map<Priority, Stream>, middle: map<Priority, Stream>, end: map<Priority, Stream>)
    requires forall p: Priority :: p in start && p in middle && p in end
    requires forall p: Priority :: SameEntries(start[p], middle[p]) && SameEntries(middle[p], end[p])
    ensures forall p: Priority :: SameEntries(start[p], end[p])
  {
  }

  lemma NothingBeat(streams: map<Priority, Stream>)
    ensures forall p :: p in streams ==> SameEntries(streams[p], streams[p])
  {
  }

  /** After heartbeats and at most one ack, only the acked entry has left. */
  lemma OnlyThisLeft(start: map<Priority, Stream>, middle: map<Priority, Stream>, end: map<Priority, Stream>, d: Delivery)
    requires forall p: Priority :: p in start && p in middle && p in end && SameEntries(start[p], middle[p])
    requires forall p: Priority :: Ready(end[p]) == Ready(middle[p])
    requires end == middle || end == middle[d.priority := Acked(middle[d.priority], d.entry)]
    ensures forall p: Priority :: Ready(end[p]) == Ready(start[p])
    ensures forall p: Priority, e :: e in end[p].pel ==> e in start[p].pel
    ensures forall p: Priority, e :: e in start[p].pel && e !in end[p].pel ==> p == d.priority && e == d.entry && end != middle
  {
    hide Acked, Ready;
    AckedEntry(middle[d.priority], d.entry);
  }

  lemma AckedEntry(st: Stream, id: int)
    ensures Acked(st, id).pel == st.pel - {id}
  {
  }

  /** A refused renewal changes nothing and means the claim is released. */
  lemma LostMeansReleased(jobs: Jobs, g: Grant, ttl: int, now: int)
    requires Granted(jobs, g)
    ensures Granted(Exec(jobs, At(now, Extend(g.id, g.epoch, ttl))), g)
    ensures !OpenClaim(jobs, g) ==> Fencing.Released(Exec(jobs, At(now, Extend(g.id, g.epoch, ttl))), g.id, g.epoch)
    ensures OpenClaim(jobs, g) ==>
              var jobs' := Exec(jobs, At(now, Extend(g.id, g.epoch, ttl)));
              OpenClaim(jobs', g) && jobs'[g.id].lease == Some(now + ttl)
  {
  }

  lemma ClaimKeeps(jobs: Jobs, id: JobId, worker: WorkerId, ttl: int, now: int)
    ensures Exec(jobs, At(now, Claim(id, worker, ttl))).Keys == jobs.Keys
  {
  }

  lemma ClaimRefused(jobs: Jobs, id: JobId, worker: WorkerId, ttl: int, now: int)
    requires !(id in jobs && Claimable(jobs[id].status))
    ensures Exec(jobs, At(now, Claim(id, worker, ttl))) == jobs
  {
  }

  /** The row of an open claim after its attempt, told by the marks of the error and of what
      cut the attempt short: at most one of six things happened to it, and nothing to any other
      row. */
  ghost predicate EndsByMarks(before: Jobs, after: Jobs, g: Grant, err: Error, cause: Error, result: string, msg: string, at: int,
                              nextAt: int)
  {
    && g.id in before && g.id in after
    && var r, r' := before[g.id], after[g.id];
    var lost := Has(cause, LeaseLostMark);
    var cancelled := Has(err, CancelRequestedMark) || Has(cause, CancelRequestedMark);
    var interrupted := Has(err, InterruptedMark) || Has(cause, InterruptedMark);
    var failed := err.Some? && !lost && !cancelled;
    var again := failed && (interrupted || !Has(err, NonRetryableMark));
    && after == before[g.id := r']
    && (r'.status == Completed <==> err.None?) && (err.None? ==> r'.result == Some(result) && r'.error.None?)
    && (r'.status == Cancelled <==> err.Some? && !lost && cancelled) && (r'.status == Cancelled ==> r'.error == r.error)
    && (r'.status == Failed <==> failed && !interrupted && Has(err, NonRetryableMark)) && (r'.status == Failed ==> r'.error == Some(msg))
    && (r'.status == Retrying <==> again && g.attempt < g.maxAttempts)
    && (r'.status == Retrying ==> r'.error == Some(msg) && r'.scheduledAt == nextAt && r'.worker.None? && r'.completedAt == r.completedAt)
    && (r'.status == DeadLetter <==> again && g.attempt >= g.maxAttempts) && (r'.status == DeadLetter ==> r'.error == Some(msg))
    && (r'.status == Running <==> err.Some? && lost) && (r'.status == Running ==> r' == r)
    && (r'.status != Running ==> r'.lease.None?)
    && (r'.status in {Completed, Cancelled, Failed, DeadLetter} ==> r'.completedAt == Some(at) && r'.scheduledAt == r.scheduledAt)
    && (r'.status != Completed ==> r'.result == r.result)
    && r'.attempts == r.attempts && r'.epoch == r.epoch
  }

  lemma RouteEndsByMarks(before: Jobs, g: Grant, cause: Error, done: Finished, nextAt: int, at: int)
    requires OpenClaim(before, g)
    ensures var w := Routed(g, cause, done, nextAt);
            var after := if w.None? then before else Exec(before, At(at, Rows.Record(g.id, g.epoch, w.value)));
            EndsByMarks(before, after, g, done.err, cause, done.result, done.msg, at, nextAt)
  {
    hide FinishOutcome, Route;
    MarksDecide(done.err, cause, g, done.result, done.msg, nextAt);
  }

  /** ... at whichever moment its link reports. */
  lemma EndsHowItRoutes(before: Jobs, g: Grant, cause: Error, done: Finished, nextAt: int, link: Link)
    ensures var w := Routed(g, cause, done, nextAt);
            var at := ReportedAt(link, done.now);
            var after := if w.None? then before else Exec(before, At(at, Rows.Record(g.id, g.epoch, w.value)));
            OpenClaim(before, g) ==> EndsByMarks(before, after, g, done.err, cause, done.result, done.msg, at, nextAt)
  {
    hide EndsByMarks, Routed;
    if OpenClaim(before, g) {
      RouteEndsByMarks(before, g, cause, done, nextAt, ReportedAt(link, done.now));
    }
  }

  lemma NominalReportsNow(link: Link, now: int)
    requires Nominal(link)
    ensures ReportedAt(link, now) == now
  {
  }

  /** When the next attempt would be due, told by the marks: at once after an interruption,
      otherwise after the draw's share of the window, rounded down. */
  ghost predicate DueByDraw(policy: Backoff.Policy, attempt: int, err: Error, cause: Error, now: int, draw: real, nextAt: int) {
    var interrupted := && err.Some? && !Has(cause, LeaseLostMark)
                       && !Has(err, CancelRequestedMark) && !Has(cause, CancelRequestedMark)
                       && (Has(err, InterruptedMark) || Has(cause, InterruptedMark));
    var delay := (nextAt - now) as real;
    && (interrupted ==> nextAt == now)
    && (!interrupted && policy.Valid() ==> delay <= draw * Backoff.Ceiling(policy, attempt) as real < delay + 1.0)
  }

  lemma NextIsDueByDraw(policy: Backoff.Policy, g: Grant, cause: Error, done: Finished)
    requires policy.Representable() && 0.0 <= done.draw < 1.0
    ensures DueByDraw(policy, g.attempt, done.err, cause, done.now, done.draw, NextDue(policy, g, cause, done))
  {
    hide FinishOutcome, Backoff.Drawn, Backoff.Ceiling, Backoff.Actual;
    MarksName(done.err, cause);
    Backoff.DrawnIsTheShare(policy, g.attempt, done.draw);
  }

  /** How an execution ends on the table: a lost lease writes nothing; anything else attempts
      the write its outcome routes to, and without faults that write did run. */
  ghost predicate Ended(before: Jobs, after: Jobs, g: Grant, cause: Error, done: Finished, nextAt: int, faults: Faults) {
    var w := Route(FinishOutcome(done.err, cause), g, done.result, done.msg, nextAt);
    if w.None? then after == before
    else
      var stmt := Rows.Record(g.id, g.epoch, w.value);
      if Nominal(faults.link) then after == Exec(before, At(done.now, stmt))
      else Attempted(before, after, stmt, done.now, faults.link)
  }

  /** Everything recording and acking did, call by call: the write ran at one of the link's two
      moments or not at all; a report says which; the retry was parked exactly after a reported
      application, and the entry acked exactly after a report. */
  ghost predicate Settled(jobs: Jobs, jobs': Jobs, streams: map<Priority, Stream>, streams': map<Priority, Stream>,
                          delayed: map<Priority, map<Envelope, int>>, delayed': map<Priority, map<Envelope, int>>,
                          d: Delivery, g: Grant, w: Write, now: int, faults: Faults, res: OpResult)
  {
    var stmt := Rows.Record(g.id, g.epoch, w);
    && (res.Reported? <==> Confirmed(faults.link))
    && Attempted(jobs, jobs', stmt, now, faults.link)
    && (Nominal(faults.link) ==> jobs' == Exec(jobs, At(now, stmt)))
    && (res.Reported? ==> Fencing.Released(jobs', g.id, g.epoch))
    && (res == Reported(true) ==> OpenClaim(jobs, g) && jobs' == Exec(jobs, At(ReportedAt(faults.link, now), stmt)))
    && d.priority in streams
    && streams' == (if res.Reported? && !faults.ackLost
                    then streams[d.priority := Acked(streams[d.priority], d.entry)] else streams)
    && delayed' == (if res == Reported(true) && w.Retry? && !faults.zaddLost
                    then Parked(delayed, d.env.(attempt := g.attempt + 1), w.nextAt) else delayed)
  }

  /** What finish did, as its contract says: nothing under a lost lease, and otherwise what
      recording and acking the routed write does. */
  ghost predicate Finishing(jobs: Jobs, jobs': Jobs, w: Held, w': Held, d: Delivery, g: Grant, cause: Error, done: Finished,
                            nextAt: int, faults: Faults, res: OpResult)
  {
    && w'.next == w.next
    && if Routed(g, cause, done, nextAt).None? then jobs' == jobs && w' == w
       else Settled(jobs, jobs', w.streams, w'.streams, w.delayed, w'.delayed, d, g, Routed(g, cause, done, nextAt).value, done.now,
                    faults, res)
  }

  /** The queue after a heartbeat's XCLAIM. */
  function BeatHeld(w: Held, c: Consumer, d: Delivery, beat: Beat): Held
    requires w.Complete()
  {
    if beat.redisDown then w else w.Renew(d.priority, c, d.entry, beat.now)
  }

  /** The write an execution's end routes to; none under a lost lease. */
  function Routed(g: Grant, cause: Error, done: Finished, nextAt: int): Option<Write> {
    Route(FinishOutcome(done.err, cause), g, done.result, done.msg, nextAt)
  }

  /** The claim is open and its execution ends in another attempt. */
  predicate Retries(jobs: Jobs, g: Grant, cause: Error, done: Finished, nextAt: int) {
    && OpenClaim(jobs, g)
    && Routed(g, cause, done, nextAt).Some? && Routed(g, cause, done, nextAt).value.Retry?
  }

  /** When the next attempt would be due: at once after an interruption, else after the
      drawn backoff. */
  function NextDue(policy: Backoff.Policy, g: Grant, cause: Error, done: Finished): int
    requires policy.Representable()
  {
    done.now + if FinishOutcome(done.err, cause).OutcomeInterrupted? then 0 else Backoff.Drawn(policy, g.attempt, done.draw)
  }

  /** What the runner reports of a job it has no handler for. */
  function Handled(hasHandler: bool, done: Finished): Finished {
    if hasHandler then done else done.(err := Some([NonRetryableMark]))
  }

  /** The table is as before, or the write ran at a moment at which the link tried it. */
  ghost predicate Attempted(before: Jobs, after: Jobs, stmt: Stmt, now: int, link: Link) {
    || after == before
    || after == Exec(before, At(now, stmt))
    || (link.Batched? && after == Exec(before, At(link.later, stmt)))
  }

  lemma ParkedByZAdd(delayed: map<Priority, map<Envelope, int>>, env: Envelope, at: int)
    requires env.priority in delayed
    ensures delayed[env.priority := delayed[env.priority][env := at]] == Parked(delayed, env, at)
  {
  }

  lemma AttemptedByRecord(before: Jobs, after: Jobs, op: RecOp, now: int, link: Link)
    requires || after == before
             || Wrote(before, after, op, now)
             || (link.Batched? && Wrote(before, after, op, link.later))
    ensures Attempted(before, after, Rows.Record(op.id, op.epoch, op.write), now, link)
  {
  }

  predicate OpenClaim(jobs: Jobs, g: Grant) {
    g.id in jobs && Open(jobs[g.id], g.epoch)
  }

  /** The claim was open, had attempts left, and its row is now RETRYING, due at nextAt. */
  ghost predicate ParkedRetry(before: Jobs, after: Jobs, g: Grant, nextAt: int) {
    && OpenClaim(before, g) && g.attempt < g.maxAttempts && Fencing.Released(after, g.id, g.epoch)
    && g.id in after && after[g.id].status == Retrying && after[g.id].scheduledAt == nextAt
  }

  /** The delayed set gained exactly the next attempt of this claim, whose row is RETRYING,
      released, and due when the envelope is. */
  ghost predicate RetryHandedOff(jobs: Jobs, before: map<Priority, map<Envelope, int>>,
                                 after: map<Priority, map<Envelope, int>>, env: Envelope, g: Grant)
  {
    && g.attempt < g.maxAttempts && Fencing.Released(jobs, g.id, g.epoch)
    && g.id in jobs && jobs[g.id].status == Retrying
    && after == Parked(before, env.(attempt := g.attempt + 1), jobs[g.id].scheduledAt)
  }

  lemma WroteRetry(before: Jobs, after: Jobs, op: RecOp, g: Grant, at: int)
    requires op.id == g.id && op.epoch == g.epoch && op.write.Retry? && g.attempt < g.maxAttempts
    requires OpenAtStart(before, op) && Wrote(before, after, op, at)
    ensures ParkedRetry(before, after, g, op.write.nextAt)
  {
  }

  predicate NoFault(faults: Faults) {
    !faults.zaddLost && !faults.ackLost && Nominal(faults.link)
  }
}
