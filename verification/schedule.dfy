/** When an enqueue is due. Whoever comes to owe one, a submission, an operator's requeue or a
    repair sweep, owes it for the time its job is scheduled at, and no sweep owes one early. */
module Schedule {
  import opened Common
  import opened Job
  import opened Rows
  import opened Outcomes
  import opened Protocol
  import opened Stranding

  /** The step makes somebody owe this enqueue, once more. */
  ghost predicate Owes(s: State, a: Action, todo: Todo) {
    Step(s, a).chores.todos[todo] > s.chores.todos[todo]
  }

  /** The enqueue is for the time the row says: parked until then, or due by now. */
  predicate OnTime(todo: Todo, r: Row, now: int) {
    if todo.at.Some? then todo.at.value == r.scheduledAt else r.scheduledAt <= now
  }

  /** What comes to be owed is the next attempt of a claimable job, on time; a flip is owed for a
      RETRYING job alone. */
  lemma OwedOnTime(s: State, a: Action, todo: Todo)
    requires Owes(s, a, todo) && s.cfg.orphanAge >= 0
    ensures var s' := Step(s, a);
            && todo.env.id in s'.jobs && s'.now == s.now
            && var r := s'.jobs[todo.env.id];
            && r.status == (if todo.flips then Retrying else Pending)
            && OnTime(todo, r, s.now) && todo.env == NewEnvelope(todo.env.id, r.spec, r.attempts + 1, s.now)
  {
    hide RedisAfter, FleetAfter, ChoresAfter, Owes;
    WhatIsOwed(s, a, todo);
  }

  /** Who comes to owe what. */
  lemma WhatIsOwed(s: State, a: Action, todo: Todo)
    requires Owes(s, a, todo)
    ensures Enabled(s, a)
    ensures match a
            case Submit(id, spec, _, _) => Hits(s, a) && todo == Todo(NewEnvelope(id, spec, 1, s.now), Some(JobsAfter(s, a)[id].scheduledAt), false)
            case RequeueDead(id) => Hits(s, a) && todo == Todo(NewEnvelope(id, s.jobs[id].spec, 1, s.now), None, false)
            case ListUnenqueued(id) => todo == Todo(NewEnvelope(id, s.jobs[id].spec, s.jobs[id].attempts + 1, s.now), None, false)
            case ListStuckRetrying(id) => todo == Todo(NewEnvelope(id, s.jobs[id].spec, s.jobs[id].attempts + 1, s.now), None, true)
            case _ => false
  {
    hide RedisAfter, FleetAfter, JobsAfter, Hits, ChoresAfter, Enabled;
    TodoAdded(s, a, todo);
  }

  predicate AddsTodo(a: Action) {
    a.Submit? || a.RequeueDead? || a.ListUnenqueued? || a.ListStuckRetrying?
  }

  lemma OthersAddNothing(s: State, a: Action, todo: Todo)
    requires Enabled(s, a) && !AddsTodo(a)
    ensures ChoresAfter(s, a).todos[todo] <= s.chores.todos[todo]
  {
    hide RedisAfter, FleetAfter, JobsAfter, Hits, Statement, NewEnvelope, Enabled;
  }

  lemma TodoAdded(s: State, a: Action, todo: Todo)
    requires Enabled(s, a) && ChoresAfter(s, a).todos[todo] > s.chores.todos[todo]
    ensures match a
            case Submit(id, spec, _, _) => Hits(s, a) && todo == Todo(NewEnvelope(id, spec, 1, s.now), Some(JobsAfter(s, a)[id].scheduledAt), false)
            case RequeueDead(id) => Hits(s, a) && todo == Todo(NewEnvelope(id, s.jobs[id].spec, 1, s.now), None, false)
            case ListUnenqueued(id) => todo == Todo(NewEnvelope(id, s.jobs[id].spec, s.jobs[id].attempts + 1, s.now), None, false)
            case ListStuckRetrying(id) => todo == Todo(NewEnvelope(id, s.jobs[id].spec, s.jobs[id].attempts + 1, s.now), None, true)
            case _ => false
  {
    hide RedisAfter, FleetAfter, JobsAfter, Hits, Statement, NewEnvelope;
    if !AddsTodo(a) {
      hide ChoresAfter, Enabled;
      OthersAddNothing(s, a, todo);
      assert false;
    }
  }

  /** One step leaves a job that could be claimed as it was, but for its status and its marker,
      or starts a new epoch. */
  lemma UnlessClaimed(s: State, a: Action, id: JobId)
    requires id in s.jobs && Claimable(s.jobs[id].status)
    ensures var s' := Step(s, a);
            && id in s'.jobs && s.now <= s'.now && s'.cfg == s.cfg
            && var r, r' := s.jobs[id], s'.jobs[id];
            && r.epoch <= r'.epoch
            && (r'.epoch == r.epoch ==> Claimable(r'.status) && r'.scheduledAt == r.scheduledAt && r'.attempts == r.attempts)
  {
    hide RedisAfter, FleetAfter, ChoresAfter;
  }

  lemma EpochStays(s: State, a: Action, id: JobId)
    requires id in s.jobs
    ensures id in Step(s, a).jobs && s.jobs[id].epoch <= Step(s, a).jobs[id].epoch && s.now <= Step(s, a).now
  {
    hide RedisAfter, FleetAfter, ChoresAfter;
  }

  lemma {:induction false} UntilClaimed(s0: State, run: seq<Action>, id: JobId, i: nat, j: nat)
    requires i <= j <= |run| && id in StateAt(s0, run, i).jobs && Claimable(StateAt(s0, run, i).jobs[id].status)
    ensures var s, s' := StateAt(s0, run, i), StateAt(s0, run, j);
            && id in s'.jobs && s.now <= s'.now
            && var r, r' := s.jobs[id], s'.jobs[id];
            && r.epoch <= r'.epoch
            && (r'.epoch == r.epoch ==> Claimable(r'.status) && r'.scheduledAt == r.scheduledAt && r'.attempts == r.attempts)
    decreases j
  {
    hide Step;
    if i < j {
      UntilClaimed(s0, run, id, i, j - 1);
      var before := StateAt(s0, run, j - 1);
      EpochStays(before, run[j - 1], id);
      if Claimable(before.jobs[id].status) {
        UnlessClaimed(before, run[j - 1], id);
      }
    }
  }

  /** Over any run: from the step on at which an enqueue comes to be owed, it is the next
      attempt of its job and on time for it, until a claim, a cancellation or a requeue starts a
      new epoch. */
  lemma OnTimeUntilClaimed(s0: State, run: seq<Action>, todo: Todo, i: nat, j: nat)
    requires i < j <= |run| && s0.cfg.orphanAge >= 0 && Owes(StateAt(s0, run, i), run[i], todo)
    ensures var owed, s := StateAt(s0, run, i + 1), StateAt(s0, run, j);
            && todo.env.id in owed.jobs && todo.env.id in s.jobs
            && var epoch, r := owed.jobs[todo.env.id].epoch, s.jobs[todo.env.id];
            && epoch <= r.epoch
            && (epoch == r.epoch ==> OnTime(todo, r, s.now) && Claimable(r.status) && todo.env.attempt == r.attempts + 1)
  {
    hide Step, Owes;
    ConfigStays(s0, run, i);
    assert StateAt(s0, run, i + 1) == Step(StateAt(s0, run, i), run[i]);
    OwedOnTime(StateAt(s0, run, i), run[i], todo);
    UntilClaimed(s0, run, todo.env.id, i + 1, j);
  }

  // ------------------------------------------------------------------ waiting

  /** Nothing parked is promoted before its time, and what leaves the delayed set is on the
      stream. */
  lemma ParkedUntilDue(s: State, a: Action, env: Envelope)
    requires env in s.redis.delayed && env !in Step(s, a).redis.delayed
    ensures s.redis.delayed[env] <= s.now
    ensures var redis := Step(s, a).redis; s.redis.next in redis.stream && redis.stream[s.redis.next] == env
  {
    hide JobsAfter, FleetAfter, ChoresAfter;
  }

  /** Identifiers are not reused, and no clock of a pending entry is ahead of time. */
  ghost predicate ClocksOk(s: State) {
    && (forall e :: e in s.redis.stream ==> e < s.redis.next)
    && s.redis.pel.Keys <= s.redis.stream.Keys
    && (forall e :: e in s.redis.pel ==> s.redis.pel[e] <= s.now)
  }

  lemma ClocksStep(s: State, a: Action)
    requires ClocksOk(s)
    ensures ClocksOk(Step(s, a))
  {
    hide JobsAfter, FleetAfter, ChoresAfter, Hits, Statement;
  }

  lemma {:induction false} ClocksAt(cfg: Config, now: int, run: seq<Action>, k: nat)
    requires k <= |run|
    ensures ClocksOk(StateAt(Init(cfg, now), run, k))
  {
    hide Step;
    if k > 0 {
      ClocksAt(cfg, now, run, k - 1);
      ClocksStep(StateAt(Init(cfg, now), run, k - 1), run[k - 1]);
    }
  }

  lemma NotBack(s: State, a: Action, e: EntryId)
    requires Enabled(s, a) && e < s.redis.next
    ensures e < RedisAfter(s, a).next && (e in RedisAfter(s, a).stream ==> e in s.redis.stream)
  {
    hide Hits, Statement, Enabled, JobsAfter;
  }

  lemma ClockKept(s: State, a: Action, e: EntryId)
    requires Enabled(s, a) && e in s.redis.pel && e in RedisAfter(s, a).stream
    ensures e in RedisAfter(s, a).pel && RedisAfter(s, a).pel[e] in {s.redis.pel[e], s.now}
  {
    hide Hits, Statement, Enabled, JobsAfter;
  }

  /** An entry that is held stays held, with a clock that never runs back, until it is gone; and
      then it never comes back. */
  lemma HeldUntilGone(s: State, a: Action, e: EntryId, since: int)
    requires e < s.redis.next && since <= s.now
    requires e in s.redis.stream ==> e in s.redis.pel && s.redis.pel[e] >= since
    ensures var s' := Step(s, a);
            && e < s'.redis.next && since <= s'.now
            && (e in s'.redis.stream ==> e in s'.redis.pel && s'.redis.pel[e] >= since)
  {
    hide Enabled, JobsAfter, RedisAfter, FleetAfter, ChoresAfter;
    if Enabled(s, a) {
      NotBack(s, a, e);
      if e in RedisAfter(s, a).stream {
        ClockKept(s, a, e);
      }
    }
  }

  lemma {:induction false} HeldSince(cfg: Config, now: int, run: seq<Action>, e: EntryId, i: nat, j: nat)
    requires i <= j <= |run| && e in StateAt(Init(cfg, now), run, i).redis.pel
    ensures var since, s := StateAt(Init(cfg, now), run, i).redis.pel[e], StateAt(Init(cfg, now), run, j);
            && e < s.redis.next && since <= s.now
            && (e in s.redis.stream ==> e in s.redis.pel && s.redis.pel[e] >= since)
    decreases j
  {
    hide Step;
    ClocksAt(cfg, now, run, i);
    if i < j {
      HeldSince(cfg, now, run, e, i, j - 1);
      HeldUntilGone(StateAt(Init(cfg, now), run, j - 1), run[j - 1], e, StateAt(Init(cfg, now), run, i).redis.pel[e]);
    }
  }

  /** A leader waits for silence: over any run, whoever held an entry at some moment, no leader
      takes it before the minimum idle time has passed since. */
  lemma LeaderWaits(cfg: Config, now: int, run: seq<Action>, t: ProcId, e: EntryId, i: nat, j: nat)
    requires i <= j < |run| && e in StateAt(Init(cfg, now), run, i).redis.pel
    requires run[j] == AutoClaim(t, e) && t !in StateAt(Init(cfg, now), run, j).chores.tasks
    requires t in StateAt(Init(cfg, now), run, j + 1).chores.tasks
    ensures StateAt(Init(cfg, now), run, i).redis.pel[e] + cfg.minIdle <= StateAt(Init(cfg, now), run, j).now
  {
    hide RedisAfter, FleetAfter, JobsAfter;
    HeldSince(cfg, now, run, e, i, j);
    ConfigStays(Init(cfg, now), run, j);
  }

  // ------------------------------------------------------------------ overtaken

  // An enqueue that is owed does not know of a claim that comes before it: then it can be early.
  const RETRY := Op(Grant(1, 1, 1, 3), Retry("down", 1000))
  const AGAIN := Todo(NewEnvelope(1, SPEC, 1, 31), None, false)

  /** A submission's receipt is late, so the sweep lists the job; before the sweep enqueues it,
      a worker runs it, fails, and is to retry at 1000. */
  function OvertakenRun(): seq<Action> {
    [Submit(1, SPEC, 3, None), Enqueue(Todo(FIRST, Some(0), false)), Tick(31), ListUnenqueued(1), Fetch(0, 0), ClaimJob(0, 7, 30),
     Finish(0, BROKEN, None, "null", "down", 1000), Land(RETRY), Enqueue(AGAIN), Fetch(1, 1), ClaimJob(1, 7, 30)]
  }

  lemma ListStep(s: State)
    requires s.now == 31 && s.cfg == CFG && s.jobs == map[1 := Fresh(SPEC, 3, 0, 0)] && s.chores.todos == multiset{}
    ensures var s' := Step(s, ListUnenqueued(1));
            s'.now == 31 && s'.jobs == s.jobs && s'.redis == s.redis && s'.fleet == s.fleet && s'.chores.todos == multiset{AGAIN}
  {
  }

  lemma FailStep(s: State)
    requires 0 in s.fleet.runners && s.fleet.runners[0].pc == Working(RETRY.grant)
    ensures var s' := Step(s, Finish(0, BROKEN, None, "null", "down", 1000));
            && s'.now == s.now && s'.jobs == s.jobs && s'.redis == s.redis && s'.chores == s.chores
            && RETRY in s'.fleet.ops && s'.fleet.runners.Keys == s.fleet.runners.Keys
  {
    assert FinishOutcome(BROKEN, None) == OutcomeRetryable;
  }

  lemma AgainStep(s: State)
    requires AGAIN in s.chores.todos && s.redis.next == 1 && s.redis.pel.Keys == {0}
    ensures var s' := Step(s, Enqueue(AGAIN));
            && s'.now == s.now && s'.jobs == s.jobs && s'.fleet == s.fleet
            && 1 in s'.redis.stream && s'.redis.stream[1] == AGAIN.env && s'.redis.pel.Keys == {0}
  {
  }

  /** The job was listed when it was due; the worker has failed it since, and it is to wait. */
  lemma Overtaken()
    ensures var s := StateAt(Init(CFG, 0), OvertakenRun(), 8);
            && s.now == 31 && AGAIN in s.chores.todos && s.redis.next == 1 && s.redis.pel.Keys == {0} && s.fleet.runners.Keys == {0}
            && 1 in s.jobs && s.jobs[1].status == Retrying && s.jobs[1].scheduledAt == 1000
            && s.jobs[1].attempts == 1 && s.jobs[1].epoch == 1
  {
    hide Step;
    var s0, run := Init(CFG, 0), OvertakenRun();
    Opening(3);
    var s2 := StateAt(s0, run, 2);
    assert s2 == Step(Step(s0, run[0]), run[1]);
    ConfigStays(s0, run, 3);
    var s3 := StateAt(s0, run, 3);
    assert s3 == Step(s2, run[2]);
    TickStep(s2, 31);
    var s4 := StateAt(s0, run, 4);
    assert s4 == Step(s3, run[3]);
    ListStep(s3);
    var s6 := StateAt(s0, run, 6);
    assert s6 == Step(Step(s4, run[4]), run[5]);
    ClaimSteps(s4, 0, 0);
    var s7 := StateAt(s0, run, 7);
    assert s7 == Step(s6, run[6]);
    FailStep(s6);
    assert StateAt(s0, run, 8) == Step(s7, run[7]);
    Stranding.LandStep(s7, RETRY);
  }

  /** The enqueue comes all the same, and nothing about a claim asks for the time: the retry
      starts 969 early. */
  lemma OvertakenIsEarly()
    ensures var s := StateAt(Init(CFG, 0), OvertakenRun(), 11);
            && 1 in s.jobs && s.jobs[1].status == Running && s.jobs[1].attempts == 2
            && s.now == 31 && s.jobs[1].scheduledAt == 1000
  {
    hide Step;
    var s0, run := Init(CFG, 0), OvertakenRun();
    Overtaken();
    var s8, s9 := StateAt(s0, run, 8), StateAt(s0, run, 9);
    assert s9 == Step(s8, run[8]);
    AgainStep(s8);
    assert StateAt(s0, run, 11) == Step(Step(s9, run[9]), run[10]);
    ClaimSteps(s9, 1, 1);
  }
}
