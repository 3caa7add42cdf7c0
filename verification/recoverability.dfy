/** Recoverability: from every state a timely run reaches, with every worker and every API
    process dead, leader duties alone bring every unfinished job back: to a terminal status,
    or to a claimable row with a ready stream entry. */
module Recoverability {
  import opened Common
  import opened Job
  import opened Rows
  import opened Protocol
  import opened Delivery
  import Budget

  // ------------------------------------------------------------------ the property

  /** An entry the next fetch of any worker would return. */
  ghost predicate Ready(redis: Redis, id: JobId) {
    exists e :: e in redis.stream && e !in redis.pel && e !in redis.spent && redis.stream[e].id == id
  }

  ghost predicate Recovered(s: State, id: JobId) {
    id in s.jobs && (Terminal(s.jobs[id].status) || (Claimable(s.jobs[id].status) && Ready(s.redis, id)))
  }

  /** The steps recovery uses: the passing of time and the duties of a leader. */
  predicate LeaderDuty(a: Action) {
    || a.Tick? || a.PromoteDue? || a.AutoClaim? || a.ReapJob? || a.Classify? || a.Reenqueue?
    || a.SweepStale? || a.ListUnenqueued? || a.ListStuckRetrying? || (a.Enqueue? && a.todo.at.None?)
  }

  predicate LeaderRun(run: seq<Action>) {
    forall i :: 0 <= i < |run| ==> LeaderDuty(run[i])
  }

  ghost predicate Good(s: State) {
    Inv(s) && forall id :: id in s.jobs && s.jobs[id].status == Running ==> s.jobs[id].lease.Some?
  }

  /** What working on one job leaves alone. */
  ghost predicate Spares(s: State, s': State, id: JobId) {
    && s'.jobs.Keys == s.jobs.Keys && s'.cfg == s.cfg
    && (forall other :: other != id && Recovered(s, other) ==> Recovered(s', other))
  }

  // ------------------------------------------------------------- one duty on one job

  predicate About(s: State, a: Action, id: JobId) {
    match a
    case Tick(_) => true
    case ListUnenqueued(i) => i == id
    case ListStuckRetrying(i) => i == id
    case SweepStale(i, _) => i == id
    case Enqueue(todo) => todo.env.id == id && todo.at.None?
    case PromoteDue(env) => env.id == id
    case AutoClaim(_, e) => e in s.redis.pel && e in s.redis.stream && s.redis.stream[e].id == id
    case ReapJob(t, _, _) => t in s.chores.tasks && s.chores.tasks[t].env.id == id
    case Classify(t) => t in s.chores.tasks && s.chores.tasks[t].env.id == id
    case Reenqueue(t) => t in s.chores.tasks && s.chores.tasks[t].env.id == id
    case _ => false
  }

  lemma DutySpares(s: State, a: Action, id: JobId)
    requires Good(s) && Enabled(s, a) && About(s, a, id)
    ensures Spares(s, Step(s, a), id) && LeaderDuty(a)
  {
    hide Recovered;
    forall other | other != id && Recovered(s, other) ensures Recovered(Step(s, a), other) {
      DutySparesOther(s, a, id, other);
    }
  }

  lemma DutySparesOther(s: State, a: Action, id: JobId, other: JobId)
    requires Good(s) && Enabled(s, a) && About(s, a, id) && other != id && Recovered(s, other)
    ensures Recovered(Step(s, a), other)
  {
    hide FleetAfter, ChoresAfter;
    DutyKeepsRow(s, a, id, other);
    if !Terminal(s.jobs[other].status) {
      var e :| e in s.redis.stream && e !in s.redis.pel && e !in s.redis.spent && s.redis.stream[e].id == other;
      DutyKeepsEntry(s, a, id, e);
    }
  }

  lemma DutyKeepsRow(s: State, a: Action, id: JobId, other: JobId)
    requires Enabled(s, a) && About(s, a, id) && other != id && other in s.jobs
    ensures other in JobsAfter(s, a) && JobsAfter(s, a)[other] == s.jobs[other]
  {
  }

  /** A ready entry of another job stays ready. */
  lemma DutyKeepsEntry(s: State, a: Action, id: JobId, e: EntryId)
    requires Good(s) && Enabled(s, a) && About(s, a, id)
    requires e in s.redis.stream && e !in s.redis.pel && e !in s.redis.spent && s.redis.stream[e].id != id
    ensures var redis' := RedisAfter(s, a);
            e in redis'.stream && redis'.stream[e] == s.redis.stream[e] && e !in redis'.pel && e !in redis'.spent
  {
    hide JobsAfter, Hits;
    assert e < s.redis.next;
  }

  lemma DutyGood(s: State, a: Action, id: JobId)
    requires Good(s) && Enabled(s, a) && About(s, a, id)
    ensures Good(Step(s, a))
  {
    InvStep(s, a);
  }

  /** A run of duties about one job that has brought the state this far. */
  ghost predicate Reaches(s0: State, run: seq<Action>, s: State, id: JobId) {
    LeaderRun(run) && After(s0, run) == s && Good(s) && Spares(s0, s, id)
  }

  lemma Then(s0: State, run: seq<Action>, s: State, a: Action, id: JobId)
    requires Reaches(s0, run, s, id) && Enabled(s, a) && About(s, a, id)
    ensures Reaches(s0, run + [a], Step(s, a), id)
  {
    hide Step, Inv;
    DutySpares(s, a, id);
    DutyGood(s, a, id);
    AfterSnoc(s0, run, a);
  }

  // --------------------------------------------------------- each unfinished shape

  function Wait(s: State, until: int): nat {
    if until > s.now then until - s.now else 0
  }

  lemma WaitStep(s: State, elapsed: nat)
    ensures Step(s, Tick(elapsed)) == s.(now := s.now + elapsed)
  {
  }

  function Repair(s: State, id: JobId, flips: bool): Todo
    requires id in s.jobs
  {
    Todo(NewEnvelope(id, s.jobs[id].spec, s.jobs[id].attempts + 1, s.now), None, flips)
  }

  lemma ListStep(s: State, a: Action)
    requires (a.ListUnenqueued? || a.ListStuckRetrying?) && Enabled(s, a)
    ensures Step(s, a).jobs == s.jobs && Repair(s, a.id, a.ListStuckRetrying?) in Step(s, a).chores.todos
  {
  }

  lemma EnqueueStep(s: State, todo: Todo)
    requires Inv(s) && todo in s.chores.todos && todo.at.None?
    ensures Step(s, Enqueue(todo)).jobs == s.jobs && Ready(Step(s, Enqueue(todo)).redis, todo.env.id)
  {
    assert s.redis.next in Step(s, Enqueue(todo)).redis.stream;
  }

  /** Wait until the sweep's clause holds, list the job, enqueue it. */
  lemma SweepJob(s0: State, run: seq<Action>, s: State, id: JobId, wait: nat, list: Action)
    returns (run': seq<Action>, s': State)
    requires Reaches(s0, run, s, id) && id in s.jobs && Claimable(s.jobs[id].status)
    requires list == ListUnenqueued(id) || list == ListStuckRetrying(id)
    requires Enabled(s.(now := s.now + wait), list)
    ensures Reaches(s0, run', s', id) && Recovered(s', id) && |run'| == |run| + 3
  {
    hide Step, Inv;
    WaitStep(s, wait);
    var s1 := s.(now := s.now + wait);
    Then(s0, run, s, Tick(wait), id);
    ListStep(s1, list);
    var s2 := Step(s1, list);
    Then(s0, run + [Tick(wait)], s1, list, id);
    var todo := Repair(s1, id, list.ListStuckRetrying?);
    EnqueueStep(s2, todo);
    run', s' := run + [Tick(wait)] + [list] + [Enqueue(todo)], Step(s2, Enqueue(todo));
    Then(s0, run + [Tick(wait)] + [list], s2, Enqueue(todo), id);
  }

  /** RETRYING: the stuck-retry sweep. */
  lemma RecoverRetrying(s0: State, run: seq<Action>, s: State, id: JobId) returns (run': seq<Action>, s': State)
    requires Reaches(s0, run, s, id) && id in s.jobs && s.jobs[id].status == Retrying
    ensures Reaches(s0, run', s', id) && Recovered(s', id) && |run'| == |run| + 3
  {
    var wait := Wait(s, s.jobs[id].scheduledAt + s.cfg.orphanAge + 1);
    run', s' := SweepJob(s0, run, s, id, wait, ListStuckRetrying(id));
  }

  /** PENDING and never marked as handed over: the orphan sweep. */
  lemma RecoverOrphan(s: State, id: JobId) returns (run': seq<Action>, s': State)
    requires Good(s) && id in s.jobs && s.jobs[id].status == Pending && s.jobs[id].enqueued.None?
    ensures Reaches(s, run', s', id) && Recovered(s', id) && |run'| <= 5
  {
    var wait := Wait(s, Max(s.jobs[id].scheduledAt, s.jobs[id].createdAt + s.cfg.orphanAge + 1));
    run', s' := SweepJob(s, [], s, id, wait, ListUnenqueued(id));
  }

  lemma SweepStep(s: State, id: JobId, delay: int)
    requires id in s.jobs && s.jobs[id].status == Running && s.jobs[id].lease.Some?
    requires s.jobs[id].lease.value + s.cfg.sweepGrace < s.now
    ensures var s' := Step(s, SweepStale(id, delay));
            id in s'.jobs && (s'.jobs[id].status == Retrying || s'.jobs[id].status == DeadLetter)
  {
    assert Hits(s, SweepStale(id, delay));
  }

  /** RUNNING, the stale sweep: the expired lease is reaped into a retry or the dead letters. */
  lemma RecoverRunning(s: State, id: JobId, delay: int) returns (run': seq<Action>, s': State)
    requires Good(s) && id in s.jobs && s.jobs[id].status == Running
    ensures Reaches(s, run', s', id) && Recovered(s', id) && |run'| <= 5
  {
    hide Step, Inv;
    var wait := Wait(s, s.jobs[id].lease.value + s.cfg.sweepGrace + 1);
    WaitStep(s, wait);
    var s1 := s.(now := s.now + wait);
    Then(s, [], s, Tick(wait), id);
    SweepStep(s1, id, delay);
    run', s' := [] + [Tick(wait)] + [SweepStale(id, delay)], Step(s1, SweepStale(id, delay));
    Then(s, [] + [Tick(wait)], s1, SweepStale(id, delay), id);
    if s'.jobs[id].status == Retrying {
      run', s' := RecoverRetrying(s, run', s', id);
    }
  }

  lemma PromoteStep(s: State, env: Envelope)
    requires Inv(s) && env in s.redis.delayed && s.redis.delayed[env] <= s.now
    ensures Step(s, PromoteDue(env)).jobs == s.jobs && Ready(Step(s, PromoteDue(env)).redis, env.id)
  {
    assert s.redis.next in Step(s, PromoteDue(env)).redis.stream;
  }

  /** PENDING with its delivery parked in the delayed set: the promoter. */
  lemma RecoverDelayed(s: State, id: JobId, env: Envelope) returns (run': seq<Action>, s': State)
    requires Good(s) && id in s.jobs && s.jobs[id].status == Pending && env in s.redis.delayed && env.id == id
    ensures Reaches(s, run', s', id) && Recovered(s', id) && |run'| <= 5
  {
    hide Step, Inv;
    var wait := Wait(s, s.redis.delayed[env]);
    WaitStep(s, wait);
    var s1 := s.(now := s.now + wait);
    Then(s, [], s, Tick(wait), id);
    PromoteStep(s1, env);
    run', s' := [] + [Tick(wait)] + [PromoteDue(env)], Step(s1, PromoteDue(env));
    Then(s, [] + [Tick(wait)], s1, PromoteDue(env), id);
  }

  lemma FreshProc(used: set<ProcId>) returns (t: ProcId)
    ensures forall u :: u in used ==> u < t
  {
    t := 0;
    if u :| u in used {
      var t' := FreshProc(used - {u});
      t := Max(t', u + 1);
      assert forall v :: v in used ==> v == u || v in used - {u};
    }
  }

  lemma AutoClaimStep(s: State, t: ProcId, e: EntryId)
    requires Enabled(s, AutoClaim(t, e))
    ensures var s' := Step(s, AutoClaim(t, e));
            s'.jobs == s.jobs && t in s'.chores.tasks && s'.chores.tasks[t] == Task(e, s.redis.stream[e], Taken)
  {
  }

  /** The reaper's decision on a row that is not an expired RUNNING one. */
  lemma UnreapedStep(s: State, t: ProcId, delay: int)
    requires t in s.chores.tasks && s.chores.tasks[t].pc == Taken
    requires s.chores.tasks[t].env.id in s.jobs && s.jobs[s.chores.tasks[t].env.id].status == Pending
    ensures var s' := Step(s, ReapJob(t, delay, delay));
            s'.jobs == s.jobs && t in s'.chores.tasks && s'.chores.tasks[t] == s.chores.tasks[t].(pc := Unreaped)
  {
    assert !Hits(s, ReapJob(t, delay, delay));
  }

  lemma ClassifyStep(s: State, t: ProcId)
    requires t in s.chores.tasks && s.chores.tasks[t].pc == Unreaped
    requires s.chores.tasks[t].env.id in s.jobs && s.jobs[s.chores.tasks[t].env.id].status == Pending
    ensures var s' := Step(s, Classify(t));
            && s'.jobs == s.jobs && t in s'.chores.tasks
            && s'.chores.tasks[t].pc.Reenqueueing? && s'.chores.tasks[t].env == s.chores.tasks[t].env
  {
  }

  lemma ReenqueueStep(s: State, t: ProcId)
    requires Inv(s) && t in s.chores.tasks && s.chores.tasks[t].pc.Reenqueueing?
    ensures Step(s, Reenqueue(t)).jobs == s.jobs
    ensures Ready(Step(s, Reenqueue(t)).redis, s.chores.tasks[t].env.id)
  {
    assert s.chores.tasks[t].entry < s.redis.next;
    assert s.redis.next in Step(s, Reenqueue(t)).redis.stream;
  }

  /** PENDING with its delivery undecided in a pending list, the worker that fetched it dead
      before its claim: the reaper takes the entry over and re-enqueues before it acks. */
  lemma RecoverAbandoned(s: State, id: JobId, e: EntryId, delay: int) returns (run': seq<Action>, s': State)
    requires Good(s) && id in s.jobs && s.jobs[id].status == Pending
    requires e in s.redis.stream && e in s.redis.pel && s.redis.stream[e].id == id
    ensures Reaches(s, run', s', id) && Recovered(s', id) && |run'| <= 5
  {
    hide Step, Inv;
    var t := FreshProc(s.chores.tasks.Keys);
    var wait := Wait(s, s.redis.pel[e] + s.cfg.minIdle);
    WaitStep(s, wait);
    var s1 := s.(now := s.now + wait);
    Then(s, [], s, Tick(wait), id);
    AutoClaimStep(s1, t, e);
    var s2 := Step(s1, AutoClaim(t, e));
    Then(s, [] + [Tick(wait)], s1, AutoClaim(t, e), id);
    UnreapedStep(s2, t, delay);
    var s3 := Step(s2, ReapJob(t, delay, delay));
    Then(s, [] + [Tick(wait)] + [AutoClaim(t, e)], s2, ReapJob(t, delay, delay), id);
    run', s' := FinishAbandoned(s, [] + [Tick(wait)] + [AutoClaim(t, e)] + [ReapJob(t, delay, delay)], s3, id, t);
  }

  lemma FinishAbandoned(s0: State, run: seq<Action>, s: State, id: JobId, t: ProcId)
    returns (run': seq<Action>, s': State)
    requires Reaches(s0, run, s, id) && id in s.jobs && s.jobs[id].status == Pending
    requires t in s.chores.tasks && s.chores.tasks[t].pc == Unreaped && s.chores.tasks[t].env.id == id
    ensures Reaches(s0, run', s', id) && Recovered(s', id) && |run'| == |run| + 2
  {
    hide Step, Inv;
    ClassifyStep(s, t);
    var s1 := Step(s, Classify(t));
    Then(s0, run, s, Classify(t), id);
    ReenqueueStep(s1, t);
    run', s' := run + [Classify(t)] + [Reenqueue(t)], Step(s1, Reenqueue(t));
    Then(s0, run + [Classify(t)], s1, Reenqueue(t), id);
  }

  // ------------------------------------------------------------------ the main results

  /** Five leader duties suffice for any one job, and undo no other job's recovery. */
  lemma RecoverJob(s: State, id: JobId, delay: int) returns (run: seq<Action>, s': State)
    requires Good(s) && id in s.jobs
    ensures Reaches(s, run, s', id) && Recovered(s', id) && |run| <= 5
  {
    run, s' := [], s;
    var row := s.jobs[id];
    if row.status == Running {
      run, s' := RecoverRunning(s, id, delay);
    } else if row.status == Retrying {
      run, s' := RecoverRetrying(s, [], s, id);
    } else if row.status == Pending && row.enqueued.None? {
      run, s' := RecoverOrphan(s, id);
    } else if row.status == Pending {
      assert Live(s.redis, id);
      if e :| e in s.redis.stream && e !in s.redis.spent && s.redis.stream[e].id == id {
        if e in s.redis.pel {
          run, s' := RecoverAbandoned(s, id, e, delay);
        }
      } else {
        var env :| env in s.redis.delayed && env.id == id;
        run, s' := RecoverDelayed(s, id, env);
      }
    }
  }

  /** Recovering a set of jobs one after the other recovers all of them. */
  lemma RecoverJobs(s: State, ids: set<JobId>, delay: int) returns (run: seq<Action>, s': State)
    requires Good(s) && ids <= s.jobs.Keys
    ensures LeaderRun(run) && After(s, run) == s' && Good(s') && |run| <= 5 * |ids|
    ensures s'.jobs.Keys == s.jobs.Keys
    ensures forall id :: id in s.jobs && (id in ids || Recovered(s, id)) ==> Recovered(s', id)
    decreases |ids|
  {
    hide Inv, Recovered, Live;
    run, s' := [], s;
    if id :| id in ids {
      var run1, s1 := RecoverJob(s, id, delay);
      var rest := ids - {id};
      var run2, s2 := RecoverJobs(s1, rest, delay);
      run, s' := run1 + run2, s2;
      AfterConcat(s, run1, run2, |run2|);
    }
  }

  /** From every state a timely run reaches, a finite run of leader duties, at most five per
      job, leaves every job terminal or claimable with a ready entry, whatever backoff the
      duties draw. */
  lemma EveryJobRecovers(cfg: Config, now: int, run: seq<Action>, k: nat, delay: int)
    returns (duties: seq<Action>)
    requires k <= |run| && TimelyRun(Init(cfg, now), run, k)
    ensures var s := StateAt(Init(cfg, now), run, k);
            && LeaderRun(duties) && |duties| <= 5 * |s.jobs|
            && forall id :: id in s.jobs ==> Recovered(After(s, duties), id)
  {
    var s := StateAt(Init(cfg, now), run, k);
    InvAt(cfg, now, run, k);
    Budget.InvAt(cfg, now, run, k);
    var s';
    duties, s' := RecoverJobs(s, s.jobs.Keys, delay);
  }
}
