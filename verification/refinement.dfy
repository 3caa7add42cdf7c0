/** The classes against the protocol: what a runner's calls do to the store and the queue,
    steps of the protocol do to its state, one by one and in the same order. Between any two
    calls anybody else may take any steps; whatever is proved of every state of every run of
    the protocol is so proved of the store and the queue. */
module Refinement {
  import opened Common
  import opened Job
  import opened Rows
  import opened Outcomes
  import opened BatchLog
  import opened Queues
  import opened Runners
  import opened Wire
  import P = Protocol
  import Delivery
  import Fencing
  import Backoff
  import Recovery
  import Server
  import Stores

  /** The store's table and the queue are what the protocol's state says. */
  ghost predicate Sim(s: P.State, jobs: Jobs, w: Held) {
    s.jobs == jobs && Carries(w, s.redis)
  }

  /** The protocol's runner r is working this delivery and has got this far. */
  ghost predicate On(s: P.State, r: P.ProcId, d: Queues.Delivery, pc: P.RunnerPc) {
    && 0 <= d.entry && d.priority == d.env.priority
    && r in s.fleet.runners && s.fleet.runners[r] == P.Runner(d.entry, d.env, pc)
    && (d.entry in s.redis.stream ==> s.redis.stream[d.entry] == d.env)
  }

  // ------------------------------------------------------------------ the claim

  lemma ClaimRefines(s: P.State, r: P.ProcId, d: Queues.Delivery, worker: WorkerId, ttl: int, jobs: Jobs, w: Held)
    requires Sim(s, jobs, w) && On(s, r, d, P.RunnerPc.Fetched)
    ensures var s' := P.Step(s, P.ClaimJob(r, worker, ttl));
            && Sim(s', Exec(jobs, At(s.now, Claim(d.env.id, worker, ttl))), w) && s'.now == s.now
            && if d.env.id in jobs && Claimable(jobs[d.env.id].status)
               then On(s', r, d, P.Working(Grant(d.env.id, jobs[d.env.id].epoch + 1, jobs[d.env.id].attempts + 1, jobs[d.env.id].maxAttempts)))
               else On(s', r, d, P.Acking(None))
  {
    hide Carries;
    DecideCarries(w, s.redis, d.entry);
  }

  /** Bookkeeping is not on the wire. */
  lemma DecideCarries(w: Held, redis: P.Redis, e: P.EntryId)
    requires Carries(w, redis)
    ensures Carries(w, redis.Decide(e))
  {
    forall p: Priority ensures SameAt(w, redis.Decide(e), p) {
      assert SameAt(w, redis, p);
    }
  }

  // ------------------------------------------------------------------ one heartbeat

  lemma BeatRefines(s: P.State, r: P.ProcId, d: Queues.Delivery, g: Grant, ttl: int, c: Consumer, beat: Beat, jobs: Jobs, w: Held)
    returns (run: seq<P.Action>)
    requires Sim(s, jobs, w) && On(s, r, d, P.Working(g)) && w.Complete()
    requires s.now == beat.now && beat.others == []
    ensures Sim(P.After(s, run), BeatOnce(jobs, g, ttl, beat), BeatHeld(w, c, d, beat)) && On(P.After(s, run), r, d, P.Working(g))
    ensures P.After(s, run).now == s.now && forall a :: a in run ==> a == P.Heartbeat(r) || a == P.ExtendLease(r, ttl)
  {
    hide Carries, Renewed;
    run := [];
    assert P.After(s, run) == s;
    var s1 := s;
    if !beat.redisDown {
      PendingBothWays(w, s.redis, d.entry, d.env);
      if d.entry in s.redis.pel {
        HeldOnStream(w, s.redis, d.entry);
        RenewCarries(w, s.redis, c, d.entry, d.env, beat.now);
        HeartbeatStep(s, r);
        s1 := P.Step(s, P.Heartbeat(r));
        run := Then(s, run, P.Heartbeat(r));
      } else {
        NotRenewed(w.streams[d.priority], c, d.entry, beat.now);
        assert w.streams[d.priority := w.streams[d.priority]] == w.streams;
      }
    }
    if !beat.storeDown {
      ExtendStep(s1, r, ttl);
      run := Then(s, run, P.ExtendLease(r, ttl));
    }
  }

  lemma Then(s: P.State, run: seq<P.Action>, a: P.Action) returns (run': seq<P.Action>)
    ensures run' == run + [a] && P.After(s, run') == P.Step(P.After(s, run), a)
  {
    P.AfterSnoc(s, run, a);
    run' := run + [a];
  }

  lemma HeldOnStream(w: Held, redis: P.Redis, e: P.EntryId)
    requires Carries(w, redis) && e in redis.pel
    ensures e in redis.stream
  {
  }

  lemma NotRenewed(st: Stream, c: Consumer, e: int, now: int)
    requires e !in st.pel
    ensures Renewed(st, c, e, now) == st
  {
  }

  lemma HeartbeatStep(s: P.State, r: P.ProcId)
    requires r in s.fleet.runners && s.fleet.runners[r].pc.Working? && s.fleet.runners[r].entry in s.redis.pel
    ensures P.Step(s, P.Heartbeat(r)) == s.(redis := s.redis.Hold(s.fleet.runners[r].entry, s.now))
  {
  }

  lemma ExtendStep(s: P.State, r: P.ProcId, ttl: int)
    requires r in s.fleet.runners && s.fleet.runners[r].pc.Working?
    ensures var g := s.fleet.runners[r].pc.grant;
            P.Step(s, P.ExtendLease(r, ttl)) == s.(jobs := Exec(s.jobs, At(s.now, Extend(g.id, g.epoch, ttl))))
  {
  }

  // ------------------------------------------------------------------ the end of a delivery

  /** The steps of recording, handing off and acking. */
  predicate FinishingStep(a: P.Action, r: P.ProcId, op: P.Op) {
    || (a.Finish? && a.runner == r) || a == P.Land(op) || a.Tick? || (a.Confirm? && a.runner == r)
    || (a.HandOff? && a.runner == r) || a == P.Action.Ack(r)
  }

  lemma SubmitStep(s: P.State, r: P.ProcId, d: Queues.Delivery, g: Grant, cause: Error, done: Finished, nextAt: int)
    requires On(s, r, d, P.Working(g)) && Routed(g, cause, done, nextAt).Some?
    ensures var op := P.Op(g, Routed(g, cause, done, nextAt).value);
            var s' := P.Step(s, P.Finish(r, done.err, cause, done.result, done.msg, nextAt));
            && s'.jobs == s.jobs && s'.redis == s.redis && s'.now == s.now
            && On(s', r, d, P.Waiting(op)) && op in s'.fleet.ops
  {
  }

  lemma LostStep(s: P.State, r: P.ProcId, d: Queues.Delivery, g: Grant, cause: Error, done: Finished, nextAt: int)
    requires On(s, r, d, P.Working(g)) && Routed(g, cause, done, nextAt).None?
    ensures var s' := P.Step(s, P.Finish(r, done.err, cause, done.result, done.msg, nextAt));
            s'.jobs == s.jobs && s'.redis == s.redis && s'.now == s.now && On(s', r, d, P.RunnerPc.Done)
  {
  }

  lemma WaitStep(s: P.State, r: P.ProcId, d: Queues.Delivery, op: P.Op, elapsed: nat)
    requires On(s, r, d, P.Waiting(op)) && op in s.fleet.ops
    ensures var s' := P.Step(s, P.Tick(elapsed));
            s' == s.(now := s.now + elapsed) && On(s', r, d, P.Waiting(op))
  {
  }

  lemma LandStep(s: P.State, r: P.ProcId, d: Queues.Delivery, op: P.Op)
    requires On(s, r, d, P.Waiting(op)) && op in s.fleet.ops
    ensures var s' := P.Step(s, P.Land(op));
            && s'.jobs == Exec(s.jobs, At(s.now, Record(op.grant.id, op.grant.epoch, op.write)))
            && s'.redis == s.redis && s'.now == s.now && On(s', r, d, P.Waiting(op)) && op in s'.fleet.landed
            && (op.grant.id in s.jobs && Open(s.jobs[op.grant.id], op.grant.epoch) ==> op in s'.fleet.applied)
  {
  }

  lemma ConfirmStep(s: P.State, r: P.ProcId, d: Queues.Delivery, op: P.Op, reported: bool)
    requires On(s, r, d, P.Waiting(op)) && op in s.fleet.landed && (reported ==> op in s.fleet.applied)
    ensures var s' := P.Step(s, P.Confirm(r, reported));
            && s'.jobs == s.jobs && s'.redis == s.redis && s'.now == s.now
            && On(s', r, d, if reported && op.write.Retry?
                            then P.HandingOff(op.grant, d.env.(attempt := op.grant.attempt + 1), op.write.nextAt)
                            else P.Acking(Some(op.grant)))
  {
  }

  lemma HandOffStep(s: P.State, r: P.ProcId, d: Queues.Delivery, g: Grant, env: Envelope, at: int, ok: bool)
    requires On(s, r, d, P.HandingOff(g, env, at))
    ensures var s' := P.Step(s, P.HandOff(r, ok));
            && s'.jobs == s.jobs && s'.redis == (if ok then s.redis.ZAdd(env, at) else s.redis) && s'.now == s.now
            && On(s', r, d, P.Acking(Some(g)))
  {
  }

  lemma AckStep(s: P.State, r: P.ProcId, d: Queues.Delivery, claim: Option<Grant>)
    requires On(s, r, d, P.Acking(claim))
    ensures var s' := P.Step(s, P.Action.Ack(r));
            s'.jobs == s.jobs && s'.redis == s.redis.Ack(d.entry) && s'.now == s.now && On(s', r, d, P.RunnerPc.Done)
  {
  }

  /** The ack of a delivery is the protocol's ack. */
  lemma AckRefines(s: P.State, r: P.ProcId, d: Queues.Delivery, claim: Option<Grant>, jobs: Jobs, w: Held)
    requires Sim(s, jobs, w) && On(s, r, d, P.Acking(claim)) && w.Complete() && WasRead(w.streams[d.priority], d.entry)
    ensures Sim(P.Step(s, P.Action.Ack(r)), jobs, w.Ack(d.priority, d.entry)) && On(P.Step(s, P.Action.Ack(r)), r, d, P.RunnerPc.Done)
  {
    hide Carries, Acked, WasRead;
    AckStep(s, r, d, claim);
    AckCarries(w, s.redis, d.entry, d.env);
  }

  // ------------------------------------------------------------------ the whole of finish

  /** A batched link's retry comes after its first transaction. */
  predicate Ordered(link: Link, now: int) {
    link.Batched? ==> now <= link.later
  }

  /** When the write ran, if it did. */
  ghost predicate RanAt(jobs: Jobs, jobs': Jobs, stmt: Stmt, at: int) {
    jobs' == Exec(jobs, At(at, stmt))
  }

  /** The submitted write lands when the link says it did: by a tick, if it was the retry. */
  lemma LandRefines(s: P.State, r: P.ProcId, d: Queues.Delivery, op: P.Op, at: int, jobs: Jobs, w: Held) returns (run: seq<P.Action>)
    requires Sim(s, jobs, w) && On(s, r, d, P.Waiting(op)) && op in s.fleet.ops && s.now <= at
    ensures var s' := P.After(s, run);
            && Sim(s', Exec(jobs, At(at, Record(op.grant.id, op.grant.epoch, op.write))), w)
            && On(s', r, d, P.Waiting(op)) && op in s'.fleet.landed
            && (op.grant.id in jobs && Open(jobs[op.grant.id], op.grant.epoch) ==> op in s'.fleet.applied)
    ensures forall a :: a in run ==> FinishingStep(a, r, op)
  {
    hide Carries, P.Step;
    run := [];
    assert P.After(s, run) == s;
    if s.now < at {
      WaitStep(s, r, d, op, at - s.now);
      run := Then(s, run, P.Tick(at - s.now));
    }
    var s1 := P.After(s, run);
    LandStep(s1, r, d, op);
    run := Then(s, run, P.Land(op));
  }

  /** After a report: the hand-off of an applied retry, then the ack, as far as they got. */
  lemma ReportRefines(s: P.State, r: P.ProcId, d: Queues.Delivery, op: P.Op, applied: bool, faults: Faults, jobs: Jobs, w: Held)
    returns (run: seq<P.Action>)
    requires Sim(s, jobs, w) && On(s, r, d, P.Waiting(op)) && op in s.fleet.landed && (applied ==> op in s.fleet.applied)
    requires w.Complete() && WasRead(w.streams[d.priority], d.entry)
    ensures var parked := if applied && op.write.Retry? && !faults.zaddLost
                          then w.Park(d.env.(attempt := op.grant.attempt + 1), op.write.nextAt) else w;
            Sim(P.After(s, run), jobs, if faults.ackLost then parked else parked.Ack(d.priority, d.entry))
    ensures forall a :: a in run ==> FinishingStep(a, r, op)
  {
    hide Carries, Acked, WasRead, Queues.Parked, P.Step;
    run := [];
    assert P.After(s, run) == s;
    ConfirmStep(s, r, d, op, applied);
    run := Then(s, run, P.Confirm(r, applied));
    var s1 := P.After(s, run);
    var w1 := w;
    if applied && op.write.Retry? {
      var env := d.env.(attempt := op.grant.attempt + 1);
      HandOffStep(s1, r, d, op.grant, env, op.write.nextAt, !faults.zaddLost);
      run := Then(s, run, P.HandOff(r, !faults.zaddLost));
      if !faults.zaddLost {
        ParkCarries(w, s1.redis, env, op.write.nextAt);
        w1 := w.Park(env, op.write.nextAt);
      }
      s1 := P.After(s, run);
    }
    if !faults.ackLost {
      AckRefines(s1, r, d, Some(op.grant), jobs, w1);
      run := Then(s, run, P.Action.Ack(r));
    }
  }

  /** The end of a delivery is a run of the protocol: submit, land if and when the link's write
      ran, confirm if there was a report, hand off, ack; and nobody's steps but the runner's, its
      recorder's and the clock's. */
  lemma FinishRefines(s: P.State, r: P.ProcId, d: Queues.Delivery, g: Grant, cause: Error, done: Finished, nextAt: int, faults: Faults,
                      res: OpResult, jobs: Jobs, jobs': Jobs, w: Held, w': Held) returns (run: seq<P.Action>)
    requires Sim(s, jobs, w) && On(s, r, d, P.Working(g)) && s.now == done.now && Ordered(faults.link, done.now)
    requires w.Complete() && WasRead(w.streams[d.priority], d.entry)
    requires Finishing(jobs, jobs', w, w', d, g, cause, done, nextAt, faults, res)
    ensures Sim(P.After(s, run), jobs', w')
    ensures forall a :: a in run ==> a.Finish? || exists op: P.Op :: op.grant == g && FinishingStep(a, r, op)
  {
    hide Carries, Acked, WasRead, Queues.Parked, P.Step, Exec, Fencing.Released;
    run := [];
    assert P.After(s, run) == s;
    var finish := P.Finish(r, done.err, cause, done.result, done.msg, nextAt);
    if Routed(g, cause, done, nextAt).None? {
      LostStep(s, r, d, g, cause, done, nextAt);
      run := Then(s, run, finish);
      return;
    }
    var op := P.Op(g, Routed(g, cause, done, nextAt).value);
    SubmitStep(s, r, d, g, cause, done, nextAt);
    run := Then(s, run, finish);
    var s1 := P.After(s, run);
    if res == Unconfirmed && jobs' == jobs {
      return;
    }
    var at := RanWhen(jobs, jobs', g, op.write, done.now, faults, res);
    var more := LandRefines(s1, r, d, op, at, jobs, w);
    run := Joined(s, run, more);
    var s2 := P.After(s, run);
    if res.Reported? {
      var last := ReportRefines(s2, r, d, op, res.applied, faults, jobs', w);
      run := Joined(s, run, last);
    }
  }

  lemma Joined(s: P.State, run: seq<P.Action>, more: seq<P.Action>) returns (run': seq<P.Action>)
    ensures run' == run + more && P.After(s, run') == P.After(P.After(s, run), more)
  {
    run' := run + more;
    P.AfterConcat(s, run, more, |more|);
  }

  /** The moment the write ran. */
  lemma RanWhen(jobs: Jobs, jobs': Jobs, g: Grant, write: Write, now: int, faults: Faults, res: OpResult) returns (at: int)
    requires Ordered(faults.link, now)
    requires Attempted(jobs, jobs', Record(g.id, g.epoch, write), now, faults.link)
    requires res.Reported? ==> Fencing.Released(jobs', g.id, g.epoch)
    requires res == Reported(true) ==> OpenClaim(jobs, g) && jobs' == Exec(jobs, At(ReportedAt(faults.link, now), Record(g.id, g.epoch, write)))
    requires res.Reported? || jobs' != jobs
    ensures now <= at && jobs' == Exec(jobs, At(at, Record(g.id, g.epoch, write)))
    ensures res == Reported(true) ==> g.id in jobs && Open(jobs[g.id], g.epoch)
  {
    var stmt := Record(g.id, g.epoch, write);
    at := now;
    if jobs' != Exec(jobs, At(now, stmt)) {
      at := faults.link.later;
    }
  }

  // ------------------------------------------------------------------ an abandoned delivery

  /** The protocol's leader task t has this delivery and has got this far. */
  ghost predicate TaskOn(s: P.State, t: P.ProcId, d: Queues.Delivery, pc: P.TaskPc) {
    && 0 <= d.entry && d.priority == d.env.priority
    && t in s.chores.tasks && s.chores.tasks[t] == P.Task(d.entry, d.env, pc)
    && (d.entry in s.redis.stream ==> s.redis.stream[d.entry] == d.env)
  }

  predicate TaskStep(a: P.Action, t: P.ProcId) {
    || (a.ReapJob? && a.task == t) || a == P.Classify(t) || a == P.Reenqueue(t) || (a.TaskHandOff? && a.task == t) || a == P.TaskAck(t)
  }

  lemma ReapStep(s: P.State, t: P.ProcId, d: Queues.Delivery, delay: int, retryAt: int)
    requires TaskOn(s, t, d, P.Taken)
    ensures var s' := P.Step(s, P.ReapJob(t, delay, retryAt));
            var stmt := At(s.now, Reap(d.env.id, delay, 0));
            && s'.jobs == Exec(s.jobs, stmt) && s'.now == s.now && (s'.redis == s.redis || s'.redis == s.redis.Decide(d.entry))
            && if !Applies(s.jobs, stmt) then TaskOn(s', t, d, P.Unreaped)
               else d.env.id in s'.jobs
                    && TaskOn(s', t, d, if s'.jobs[d.env.id].status == Retrying
                                        then P.TaskHandingOff(d.env.(attempt := s'.jobs[d.env.id].attempts + 1), retryAt) else P.TaskAcking)
  {
  }

  lemma ClassifyStep(s: P.State, t: P.ProcId, d: Queues.Delivery)
    requires TaskOn(s, t, d, P.Unreaped)
    ensures var s' := P.Step(s, P.Classify(t));
            && s'.jobs == s.jobs && s'.now == s.now && (s'.redis == s.redis || s'.redis == s.redis.Decide(d.entry))
            && TaskOn(s', t, d, if d.env.id !in s.jobs then P.TaskDone
                                else if s.jobs[d.env.id].status == Pending then P.Reenqueueing(s.jobs[d.env.id].attempts + 1) else P.TaskAcking)
  {
  }

  lemma ReenqueueStep(s: P.State, t: P.ProcId, d: Queues.Delivery, attempt: int)
    requires TaskOn(s, t, d, P.Reenqueueing(attempt)) && d.entry < s.redis.next
    ensures var s' := P.Step(s, P.Reenqueue(t));
            && s'.jobs == s.jobs && s'.now == s.now
            && s'.redis == s.redis.XAdd(d.env.(attempt := attempt, enqueuedAt := s.now)).Decide(d.entry)
            && TaskOn(s', t, d, P.TaskAcking)
  {
  }

  lemma TaskHandOffStep(s: P.State, t: P.ProcId, d: Queues.Delivery, env: Envelope, at: int, ok: bool)
    requires TaskOn(s, t, d, P.TaskHandingOff(env, at))
    ensures var s' := P.Step(s, P.TaskHandOff(t, ok));
            && s'.jobs == s.jobs && s'.now == s.now && s'.redis == (if ok then s.redis.ZAdd(env, at) else s.redis)
            && TaskOn(s', t, d, P.TaskAcking)
  {
  }

  lemma TaskAckStep(s: P.State, t: P.ProcId, d: Queues.Delivery)
    requires TaskOn(s, t, d, P.TaskAcking)
    ensures var s' := P.Step(s, P.TaskAck(t));
            s'.jobs == s.jobs && s'.now == s.now && s'.redis == s.redis.Ack(d.entry)
  {
  }

  /** The ack, unless it was lost. */
  lemma TaskAckRefines(s: P.State, t: P.ProcId, d: Queues.Delivery, lost: bool, jobs: Jobs, w: Held) returns (run: seq<P.Action>)
    requires Sim(s, jobs, w) && TaskOn(s, t, d, P.TaskAcking) && w.Complete() && WasRead(w.streams[d.priority], d.entry)
    ensures Sim(P.After(s, run), jobs, Recovery.AckedUnless(lost, w, d)) && forall a :: a in run ==> TaskStep(a, t)
  {
    hide Carries, Acked, WasRead, P.Step;
    run := [];
    assert P.After(s, run) == s;
    if !lost {
      TaskAckStep(s, t, d);
      AckCarries(w, s.redis, d.entry, d.env);
      run := Then(s, run, P.TaskAck(t));
    }
  }

  lemma StillReadAfterPut(w: Held, env: Envelope, p: Priority, e: int)
    requires w.Complete() && WasRead(w.streams[p], e) && e < w.next && StreamOk(w.streams[p], w.next)
    ensures WasRead(w.Put(env).streams[p], e)
  {
    if p == env.priority {
      AddKeeps(w.streams[p], Msg(w.next, Some(env)), w.next);
    }
  }

  lemma SoundStream(w: Held, redis: P.Redis, p: Priority)
    requires Carries(w, redis)
    ensures p in w.streams && StreamOk(w.streams[p], w.next)
  {
    assert SameAt(w, redis, p);
  }

  /** Disposing of an unreaped delivery is classifying it, putting a copy of a PENDING row on
      the wire, and acking, as far as they got. */
  lemma UnreapedRefines(s: P.State, t: P.ProcId, d: Queues.Delivery, f: Recovery.Faults, jobs: Jobs, w: Held) returns (run: seq<P.Action>)
    requires Sim(s, jobs, w) && TaskOn(s, t, d, P.Unreaped) && w.Complete()
    requires WasRead(w.streams[d.priority], d.entry) && d.entry < w.next
    ensures Sim(P.After(s, run), jobs, Recovery.Unreaped(jobs, w, d, s.now, f)) && forall a :: a in run ==> TaskStep(a, t)
  {
    hide Carries, Acked, Added, WasRead, P.Step;
    run := [];
    assert P.After(s, run) == s;
    if f.readLost {
      return;
    }
    ClassifyStep(s, t, d);
    DecideCarries(w, s.redis, d.entry);
    run := Then(s, run, P.Classify(t));
    var s1 := P.After(s, run);
    if d.env.id !in jobs {
      return;
    }
    var w1 := w;
    if jobs[d.env.id].status == Pending {
      if f.xadd.RolledBack? {
        return;
      }
      var env := Recovery.CopyOf(jobs, d, s.now);
      SameNext(w, s1.redis);
      ReenqueueStep(s1, t, d, jobs[d.env.id].attempts + 1);
      AddCarries(w, s1.redis, env);
      DecideCarries(w.Put(env), s1.redis.XAdd(env), d.entry);
      run := Then(s, run, P.Reenqueue(t));
      SoundStream(w, s.redis, d.priority);
      StillReadAfterPut(w, env, d.priority, d.entry);
      w1 := w.Put(env);
      if f.xadd.CommitUnseen? {
        return;
      }
    }
    var last := TaskAckRefines(P.After(s, run), t, d, f.ackLost, jobs, w1);
    run := Joined(s, run, last);
  }

  lemma SameNext(w: Held, redis: P.Redis)
    requires Carries(w, redis)
    ensures redis.next == w.next
  {
  }

  /** Handling one abandoned delivery, from the database's decision to the ack, is a run of the
      protocol's leader task. */
  lemma ReapRefines(s: P.State, t: P.ProcId, d: Queues.Delivery, delay: int, policy: Backoff.Policy, draws: Recovery.Draws, f: Recovery.Faults,
                    jobs: Jobs, w: Held) returns (run: seq<P.Action>)
    requires Sim(s, jobs, w) && TaskOn(s, t, d, P.Taken) && w.Complete() && policy.Representable()
    requires WasRead(w.streams[d.priority], d.entry) && d.entry < w.next
    ensures var jobs' := Recovery.ReapedJobs(jobs, d, delay, s.now, f);
            Sim(P.After(s, run), jobs', Recovery.ReapedHeld(jobs, jobs', w, d, delay, policy, draws, s.now, f))
    ensures forall a :: a in run ==> TaskStep(a, t)
  {
    hide Carries, Acked, WasRead, Exec, Applies, P.Step, Queues.Parked, Backoff.Drawn, Recovery.Unreaped;
    run := [];
    assert P.After(s, run) == s;
    if f.reap.RolledBack? {
      return;
    }
    var stmt := At(s.now, Reap(d.env.id, delay, 0));
    var jobs' := Exec(jobs, stmt);
    var at := if d.env.id in jobs' then s.now + Backoff.Drawn(policy, jobs'[d.env.id].attempts, draws.parked) else s.now;
    ReapStep(s, t, d, delay, at);
    DecideCarries(w, s.redis, d.entry);
    run := Then(s, run, P.ReapJob(t, delay, at));
    var s1 := P.After(s, run);
    if f.reap.CommitUnseen? {
      return;
    }
    if !Applies(jobs, stmt) {
      var rest := UnreapedRefines(s1, t, d, f, jobs', w);
      run := Joined(s, run, rest);
      return;
    }
    var w1 := w;
    if jobs'[d.env.id].status == Retrying {
      var env := d.env.(attempt := jobs'[d.env.id].attempts + 1);
      TaskHandOffStep(s1, t, d, env, at, !f.zaddLost);
      if !f.zaddLost {
        ParkCarries(w, s1.redis, env, at);
        w1 := w.Park(env, at);
      }
      run := Then(s, run, P.TaskHandOff(t, !f.zaddLost));
    }
    var last := TaskAckRefines(P.After(s, run), t, d, f.ackLost, jobs', w1);
    run := Joined(s, run, last);
  }

  // ------------------------------------------------------------------ enqueues and their receipts

  lemma EnqueueStep(s: P.State, todo: P.Todo)
    requires todo in s.chores.todos
    ensures var s' := P.Step(s, P.Action.Enqueue(todo));
            var later := todo.at.Some? && todo.at.value > s.now;
            && s'.jobs == s.jobs && s'.now == s.now
            && s'.redis == (if later then s.redis.ZAdd(todo.env, todo.at.value) else s.redis.XAdd(todo.env))
            && (later ==> P.Receipt(todo.env.id, InDelayedSet) in s'.chores.receipts)
            && (!later && !todo.flips ==> P.Receipt(todo.env.id, InStream(s.redis.next)) in s'.chores.receipts)
            && (!later && todo.flips ==> P.Flip(todo.env.id, s.redis.next) in s'.chores.flips)
  {
  }

  lemma ReceiptStep(s: P.State, receipt: P.Receipt)
    requires receipt in s.chores.receipts
    ensures var s' := P.Step(s, P.SetEnqueued(receipt));
            s'.jobs == Exec(s.jobs, At(s.now, MarkEnqueued(receipt.id, receipt.ref))) && s'.redis == s.redis && s'.now == s.now
  {
  }

  lemma FlipStep(s: P.State, flip: P.Flip)
    requires flip in s.chores.flips
    ensures var s' := P.Step(s, P.MarkPromoted(flip));
            s'.jobs == Exec(s.jobs, At(s.now, Promote(flip.id))) && s'.redis == s.redis && s'.now == s.now
  {
  }

  /** The API's hand-off is the enqueue somebody had to make, and the receipt of a confirmed
      one. */
  lemma HandOffRefines(s: P.State, env: Envelope, at: Option<int>, f: Server.Faults, jobs: Jobs, w: Held) returns (run: seq<P.Action>)
    requires Sim(s, jobs, w) && w.Complete() && P.Todo(env, at, false) in s.chores.todos
    ensures Sim(P.After(s, run), Server.HandedJobs(jobs, w, env, at, s.now, f), Server.HandedHeld(w, env, at, s.now, f))
    ensures forall a :: a in run ==> a.Enqueue? || a.SetEnqueued?
  {
    hide Carries, Added, Queues.Parked, Exec, P.Step;
    run := [];
    assert P.After(s, run) == s;
    if f.enqueue.RolledBack? {
      return;
    }
    var todo := P.Todo(env, at, false);
    SameNext(w, s.redis);
    EnqueueStep(s, todo);
    if Server.Future(at, s.now) {
      ParkCarries(w, s.redis, env, at.value);
    } else {
      AddCarries(w, s.redis, env);
    }
    run := Then(s, run, P.Action.Enqueue(todo));
    if f.enqueue.Committed? && !f.receiptLost {
      var receipt := P.Receipt(env.id, if Server.Future(at, s.now) then InDelayedSet else InStream(w.next));
      ReceiptStep(P.After(s, run), receipt);
      run := Then(s, run, P.SetEnqueued(receipt));
    }
  }

  // ------------------------------------------------------------------ the sweeps, row by row

  /** A row as the sweep listed it. */
  ghost predicate Listed(jobs: Jobs, r: Stores.Requeueable) {
    r.id in jobs && r == Stores.Requeueable(r.id, jobs[r.id].spec, jobs[r.id].attempts)
  }

  lemma ListOrphanStep(s: P.State, r: Stores.Requeueable)
    requires Listed(s.jobs, r) && Orphaned(s.jobs[r.id], s.cfg.orphanAge, s.now)
    ensures var s' := P.Step(s, P.ListUnenqueued(r.id));
            && s'.jobs == s.jobs && s'.redis == s.redis && s'.now == s.now
            && P.Todo(NewEnvelope(r.id, r.spec, r.attempt + 1, s.now), None, false) in s'.chores.todos
  {
  }

  lemma ListStuckStep(s: P.State, r: Stores.Requeueable)
    requires Listed(s.jobs, r) && Stuck(s.jobs[r.id], s.cfg.orphanAge, s.now)
    ensures var s' := P.Step(s, P.ListStuckRetrying(r.id));
            && s'.jobs == s.jobs && s'.redis == s.redis && s'.now == s.now
            && P.Todo(NewEnvelope(r.id, r.spec, r.attempt + 1, s.now), None, true) in s'.chores.todos
  {
  }

  /** Repairing an orphan: list, enqueue, receipt, as far as it got. */
  lemma RepairRefines(s: P.State, r: Stores.Requeueable, f: Recovery.Faults, jobs: Jobs, w: Held) returns (run: seq<P.Action>)
    requires Sim(s, jobs, w) && w.Complete() && Listed(jobs, r) && Orphaned(jobs[r.id], s.cfg.orphanAge, s.now)
    ensures Sim(P.After(s, run), Recovery.RepairedJobs(jobs, r, w.next, s.now, f), Recovery.Rewired(w, r, s.now, f))
    ensures forall a :: a in run ==> a.ListUnenqueued? || a.Enqueue? || a.SetEnqueued?
  {
    hide Carries, Added, Exec, P.Step;
    run := [];
    assert P.After(s, run) == s;
    ListOrphanStep(s, r);
    run := Then(s, run, P.ListUnenqueued(r.id));
    var s1 := P.After(s, run);
    if f.xadd.RolledBack? {
      return;
    }
    var env := NewEnvelope(r.id, r.spec, r.attempt + 1, s.now);
    SameNext(w, s1.redis);
    EnqueueStep(s1, P.Todo(env, None, false));
    AddCarries(w, s1.redis, env);
    run := Then(s, run, P.Action.Enqueue(P.Todo(env, None, false)));
    if f.xadd.Committed? && !f.markLost {
      ReceiptStep(P.After(s, run), P.Receipt(r.id, InStream(w.next)));
      run := Then(s, run, P.SetEnqueued(P.Receipt(r.id, InStream(w.next))));
    }
  }

  /** Unsticking a retry: list, enqueue, flip, as far as it got. */
  lemma UnstickRefines(s: P.State, r: Stores.Requeueable, f: Recovery.Faults, jobs: Jobs, w: Held) returns (run: seq<P.Action>)
    requires Sim(s, jobs, w) && w.Complete() && Listed(jobs, r) && Stuck(jobs[r.id], s.cfg.orphanAge, s.now)
    ensures Sim(P.After(s, run), Recovery.UnstuckJobs(jobs, r, s.now, f), Recovery.Rewired(w, r, s.now, f))
    ensures forall a :: a in run ==> a.ListStuckRetrying? || a.Enqueue? || a.MarkPromoted?
  {
    hide Carries, Added, Exec, P.Step;
    run := [];
    assert P.After(s, run) == s;
    ListStuckStep(s, r);
    run := Then(s, run, P.ListStuckRetrying(r.id));
    var s1 := P.After(s, run);
    if f.xadd.RolledBack? {
      return;
    }
    var env := NewEnvelope(r.id, r.spec, r.attempt + 1, s.now);
    SameNext(w, s1.redis);
    EnqueueStep(s1, P.Todo(env, None, true));
    AddCarries(w, s1.redis, env);
    run := Then(s, run, P.Action.Enqueue(P.Todo(env, None, true)));
    if f.xadd.Committed? && !f.markLost {
      FlipStep(P.After(s, run), P.Flip(r.id, w.next));
      run := Then(s, run, P.MarkPromoted(P.Flip(r.id, w.next)));
    }
  }

  lemma SweepStep(s: P.State, id: JobId, delay: int)
    ensures var s' := P.Step(s, P.SweepStale(id, delay));
            var stmt := At(s.now, Reap(id, delay, s.cfg.sweepGrace));
            && s'.jobs == Exec(s.jobs, stmt) && s'.redis == s.redis && s'.now == s.now
            && (Applies(s.jobs, stmt) ==> id in s.jobs && id in s'.jobs && s'.jobs[id].spec == s.jobs[id].spec)
            && (Applies(s.jobs, stmt) && s'.jobs[id].status == Retrying ==>
                  NewEnvelope(id, s'.jobs[id].spec, s'.jobs[id].attempts + 1, s.now) in s'.chores.handoffs)
  {
  }

  lemma SweepHandOffStep(s: P.State, env: Envelope, at: int)
    requires env in s.chores.handoffs
    ensures var s' := P.Step(s, P.SweepHandOff(env, at));
            s'.jobs == s.jobs && s'.redis == s.redis.ZAdd(env, at) && s'.now == s.now
  {
  }

  /** Sweeping a stale row: the reap, then the parking of what it sends back. */
  lemma SweepRefines(s: P.State, r: Stores.Requeueable, delay: int, policy: Backoff.Policy, draws: Recovery.Draws, f: Recovery.Faults,
                     jobs: Jobs, w: Held) returns (run: seq<P.Action>)
    requires Sim(s, jobs, w) && Listed(jobs, r) && policy.Representable()
    ensures var jobs' := Recovery.SweptJobs(jobs, r, delay, s.cfg.sweepGrace, s.now, f);
            Sim(P.After(s, run), jobs', Recovery.SweptHeld(jobs, jobs', w, r, delay, s.cfg.sweepGrace, policy, draws, s.now, f))
    ensures forall a :: a in run ==> a.SweepStale? || a.SweepHandOff?
  {
    hide Carries, Queues.Parked, Exec, Applies, P.Step, Backoff.Drawn;
    run := [];
    assert P.After(s, run) == s;
    if f.reap.RolledBack? {
      return;
    }
    SweepStep(s, r.id, delay);
    run := Then(s, run, P.SweepStale(r.id, delay));
    var s1 := P.After(s, run);
    var stmt := At(s.now, Reap(r.id, delay, s.cfg.sweepGrace));
    if f.reap.Committed? && !f.zaddLost && Applies(jobs, stmt) && s1.jobs[r.id].status == Retrying {
      var env := NewEnvelope(r.id, r.spec, s1.jobs[r.id].attempts + 1, s.now);
      var at := s.now + Backoff.Drawn(policy, s1.jobs[r.id].attempts, draws.parked);
      SweepHandOffStep(s1, env, at);
      ParkCarries(w, s1.redis, env, at);
      run := Then(s, run, P.SweepHandOff(env, at));
    }
  }

  // ------------------------------------------------------------------ what carries over

  /** A copy of the job is in a stream or parked. */
  ghost predicate Present(w: Held, id: JobId) {
    || (exists p, m :: p in w.streams && m in w.streams[p].entries && m.env.Some? && m.env.value.id == id)
    || (exists p, env :: p in w.delayed && env in w.delayed[p] && env.id == id)
  }

  lemma LiveIsPresent(w: Held, redis: P.Redis, id: JobId)
    requires Carries(w, redis) && Delivery.Live(redis, id)
    ensures Present(w, id)
  {
    if e :| e in redis.stream && e !in redis.spent && redis.stream[e].id == id {
      var p := redis.stream[e].priority;
      assert SameAt(w, redis, p);
      assert Msg(e, Some(redis.stream[e])) in w.streams[p].entries;
    } else {
      var env :| env in redis.delayed && env.id == id;
      assert SameAt(w, redis, env.priority);
      assert env in w.delayed[env.priority];
    }
  }

  /** No job is stranded in the store and the queue: whenever they are what a timely run of the
      protocol says, a PENDING row with a receipt has a copy in a stream or parked. */
  lemma NothingStranded(cfg: P.Config, now: int, run: seq<P.Action>, jobs: Jobs, w: Held, id: JobId)
    requires Delivery.TimelyRun(P.Init(cfg, now), run, |run|) && Sim(P.After(P.Init(cfg, now), run), jobs, w)
    requires id in jobs && jobs[id].status == Pending && jobs[id].enqueued.Some?
    ensures Present(w, id)
  {
    hide Carries, P.Step, Delivery.Live;
    Delivery.NoJobStranded(cfg, now, run, |run|, id);
    LiveIsPresent(w, P.After(P.Init(cfg, now), run).redis, id);
  }

  /** A runner's end of a delivery strands nothing: after it the store and the queue are again
      what a timely run says. */
  lemma FinishStrandsNothing(cfg: P.Config, now: int, before: seq<P.Action>, r: P.ProcId, d: Queues.Delivery, g: Grant, cause: Error,
                             done: Finished, nextAt: int, faults: Faults, res: OpResult, jobs: Jobs, jobs': Jobs, w: Held, w': Held, id: JobId)
    requires Delivery.TimelyRun(P.Init(cfg, now), before, |before|)
    requires var s := P.After(P.Init(cfg, now), before);
             Sim(s, jobs, w) && On(s, r, d, P.Working(g)) && s.now == done.now
    requires Ordered(faults.link, done.now) && w.Complete() && WasRead(w.streams[d.priority], d.entry)
    requires Finishing(jobs, jobs', w, w', d, g, cause, done, nextAt, faults, res)
    requires id in jobs' && jobs'[id].status == Pending && jobs'[id].enqueued.Some?
    ensures Present(w', id)
  {
    hide Carries, Acked, WasRead, Queues.Parked, P.Step, Finishing, On, Present, Delivery.Timely, Delivery.TimelyRun;
    var s0 := P.Init(cfg, now);
    var run := FinishRefines(P.After(s0, before), r, d, g, cause, done, nextAt, faults, res, jobs, jobs', w, w');
    TimelyTogether(s0, before, run);
    var all := Joined(s0, before, run);
    NothingStranded(cfg, now, all, jobs', w', id);
  }

  /** Only late receipts and flips can be untimely. */
  lemma TimelyTogether(s0: P.State, before: seq<P.Action>, run: seq<P.Action>)
    requires Delivery.TimelyRun(s0, before, |before|) && forall a :: a in run ==> !a.SetEnqueuedLate? && !a.MarkPromoted?
    ensures Delivery.TimelyRun(s0, before + run, |before + run|)
  {
    hide P.Step;
    var all := before + run;
    forall j | 0 <= j < |all| ensures Delivery.Timely(P.StateAt(s0, all, j), all[j]) {
      if j < |before| {
        P.AfterPrefix(s0, before, run, j);
        assert Delivery.Timely(P.StateAt(s0, before, j), before[j]);
      } else {
        assert all[j] == run[j - |before|] && all[j] in run;
      }
    }
  }
}
