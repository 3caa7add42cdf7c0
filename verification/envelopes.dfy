/** The message on the wire is self-contained: in every state of every run whatever, each
    envelope anywhere describes its job exactly as it was submitted. */
module Envelopes {
  import opened Job
  import opened Rows
  import opened Protocol

  /** Everything a worker needs is in the envelope, and it is what the row says. */
  predicate Describes(jobs: Jobs, env: Envelope) {
    && env.id in jobs
    && env.kind == jobs[env.id].spec.kind && env.queue == jobs[env.id].spec.queue
    && env.priority == jobs[env.id].spec.priority && env.payload == jobs[env.id].spec.payload
  }

  ghost predicate OnTheWire(s: State) {
    && (forall e :: e in s.redis.stream ==> Describes(s.jobs, s.redis.stream[e]))
    && (forall env :: env in s.redis.delayed ==> Describes(s.jobs, env))
  }

  ghost predicate InHand(s: State) {
    forall r :: r in s.fleet.runners ==>
      && Describes(s.jobs, s.fleet.runners[r].env)
      && (s.fleet.runners[r].pc.HandingOff? ==> Describes(s.jobs, s.fleet.runners[r].pc.retry))
  }

  ghost predicate AtTheLeader(s: State) {
    forall t :: t in s.chores.tasks ==>
      && Describes(s.jobs, s.chores.tasks[t].env)
      && (s.chores.tasks[t].pc.TaskHandingOff? ==> Describes(s.jobs, s.chores.tasks[t].pc.next))
  }

  ghost predicate StillOwed(s: State) {
    && (forall todo :: todo in s.chores.todos ==> Describes(s.jobs, todo.env))
    && (forall env :: env in s.chores.handoffs ==> Describes(s.jobs, env))
  }

  ghost predicate SelfContained(s: State) {
    OnTheWire(s) && InHand(s) && AtTheLeader(s) && StillOwed(s)
  }

  // ------------------------------------------------------------- what one step keeps

  /** No step changes what was submitted. */
  lemma StillDescribes(s: State, a: Action)
    requires Enabled(s, a)
    ensures forall env :: Describes(s.jobs, env) ==> Describes(JobsAfter(s, a), env)
  {
  }

  lemma NewDescribes(jobs: Jobs, id: JobId, attempt: int, now: int)
    requires id in jobs
    ensures Describes(jobs, NewEnvelope(id, jobs[id].spec, attempt, now))
  {
  }

  /** The next attempt of a job is described by its previous one. */
  lemma NextDescribes(jobs: Jobs, env: Envelope, attempt: int, now: int)
    requires Describes(jobs, env)
    ensures Describes(jobs, env.(attempt := attempt)) && Describes(jobs, env.(attempt := attempt, enqueuedAt := now))
  {
  }

  lemma WireStep(s: State, a: Action)
    requires SelfContained(s) && Enabled(s, a)
    ensures forall e :: e in RedisAfter(s, a).stream ==> Describes(s.jobs, RedisAfter(s, a).stream[e])
    ensures forall env :: env in RedisAfter(s, a).delayed ==> Describes(s.jobs, env)
  {
    hide Describes, Hits;
    if a.Reenqueue? {
      var task := s.chores.tasks[a.task];
      NextDescribes(s.jobs, task.env, task.pc.attempt, s.now);
    }
  }

  lemma RunnersStep(s: State, a: Action, r: ProcId)
    requires SelfContained(s) && Enabled(s, a) && r in FleetAfter(s, a).runners
    ensures Describes(s.jobs, FleetAfter(s, a).runners[r].env)
    ensures FleetAfter(s, a).runners[r].pc.HandingOff? ==> Describes(s.jobs, FleetAfter(s, a).runners[r].pc.retry)
  {
    hide Describes, Hits, JobsAfter;
    if a.Confirm? {
      var runner := s.fleet.runners[a.runner];
      NextDescribes(s.jobs, runner.env, runner.pc.op.grant.attempt + 1, 0);
    }
  }

  /** A leader's task keeps its delivery; a new one takes it from the stream. */
  lemma TaskEnvelope(s: State, a: Action, t: ProcId)
    requires Enabled(s, a) && t in ChoresAfter(s, a).tasks
    ensures || (t in s.chores.tasks && ChoresAfter(s, a).tasks[t].env == s.chores.tasks[t].env)
            || (a.AutoClaim? && a.entry in s.redis.stream && ChoresAfter(s, a).tasks[t].env == s.redis.stream[a.entry])
  {
    hide JobsAfter, Hits;
  }

  /** It parks the next attempt of its own delivery. */
  lemma TaskParks(s: State, a: Action, t: ProcId)
    requires Enabled(s, a) && t in ChoresAfter(s, a).tasks && ChoresAfter(s, a).tasks[t].pc.TaskHandingOff?
    ensures t in s.chores.tasks
    ensures var pc := ChoresAfter(s, a).tasks[t].pc;
            pc == s.chores.tasks[t].pc || pc.next == s.chores.tasks[t].env.(attempt := pc.next.attempt)
  {
    hide JobsAfter, Hits;
  }

  lemma TasksStep(s: State, a: Action, t: ProcId)
    requires SelfContained(s) && Enabled(s, a) && t in ChoresAfter(s, a).tasks
    ensures Describes(s.jobs, ChoresAfter(s, a).tasks[t].env)
    ensures ChoresAfter(s, a).tasks[t].pc.TaskHandingOff? ==> Describes(s.jobs, ChoresAfter(s, a).tasks[t].pc.next)
  {
    hide Describes, ChoresAfter, Enabled;
    TaskEnvelope(s, a, t);
    if ChoresAfter(s, a).tasks[t].pc.TaskHandingOff? {
      TaskParks(s, a, t);
      NextDescribes(s.jobs, s.chores.tasks[t].env, ChoresAfter(s, a).tasks[t].pc.next.attempt, 0);
    }
  }

  /** What comes to be owed is made from the row of its job. */
  lemma TodosMade(s: State, a: Action, todo: Todo)
    requires Enabled(s, a) && todo in ChoresAfter(s, a).todos && todo !in s.chores.todos
    ensures var jobs := JobsAfter(s, a);
            todo.env.id in jobs && todo.env == NewEnvelope(todo.env.id, jobs[todo.env.id].spec, todo.env.attempt, s.now)
  {
    hide RedisAfter, FleetAfter;
  }

  lemma HandoffsMade(s: State, a: Action, env: Envelope)
    requires Enabled(s, a) && env in ChoresAfter(s, a).handoffs && env !in s.chores.handoffs
    ensures var jobs := JobsAfter(s, a);
            env.id in jobs && env == NewEnvelope(env.id, jobs[env.id].spec, env.attempt, s.now)
  {
    hide RedisAfter, FleetAfter;
  }

  lemma OwedStep(s: State, a: Action)
    requires SelfContained(s) && Enabled(s, a)
    ensures forall todo :: todo in ChoresAfter(s, a).todos ==> Describes(JobsAfter(s, a), todo.env)
    ensures forall env :: env in ChoresAfter(s, a).handoffs ==> Describes(JobsAfter(s, a), env)
  {
    hide Describes, ChoresAfter, JobsAfter, Enabled;
    StillDescribes(s, a);
    var jobs := JobsAfter(s, a);
    forall todo | todo in ChoresAfter(s, a).todos ensures Describes(jobs, todo.env) {
      if todo !in s.chores.todos {
        TodosMade(s, a, todo);
        NewDescribes(jobs, todo.env.id, todo.env.attempt, s.now);
      }
    }
    forall env | env in ChoresAfter(s, a).handoffs ensures Describes(jobs, env) {
      if env !in s.chores.handoffs {
        HandoffsMade(s, a, env);
        NewDescribes(jobs, env.id, env.attempt, s.now);
      }
    }
  }

  lemma StepParts(s: State, a: Action)
    requires Enabled(s, a)
    ensures var s' := Step(s, a);
            s'.jobs == JobsAfter(s, a) && s'.redis == RedisAfter(s, a) && s'.fleet == FleetAfter(s, a) && s'.chores == ChoresAfter(s, a)
  {
  }

  lemma WireContained(s: State, a: Action)
    requires SelfContained(s) && Enabled(s, a)
    ensures OnTheWire(Step(s, a)) && StillOwed(Step(s, a))
  {
    hide Describes, JobsAfter, RedisAfter, FleetAfter, ChoresAfter, Enabled, SelfContained, Step;
    StepParts(s, a);
    StillDescribes(s, a);
    WireStep(s, a);
    OwedStep(s, a);
  }

  lemma HandsContained(s: State, a: Action)
    requires SelfContained(s) && Enabled(s, a)
    ensures InHand(Step(s, a))
  {
    hide Describes, JobsAfter, RedisAfter, FleetAfter, ChoresAfter, Enabled, SelfContained, Step;
    StepParts(s, a);
    StillDescribes(s, a);
    var s' := Step(s, a);
    forall r | r in s'.fleet.runners
      ensures Describes(s'.jobs, s'.fleet.runners[r].env)
      ensures s'.fleet.runners[r].pc.HandingOff? ==> Describes(s'.jobs, s'.fleet.runners[r].pc.retry)
    {
      RunnersStep(s, a, r);
    }
  }

  lemma LeaderContained(s: State, a: Action)
    requires SelfContained(s) && Enabled(s, a)
    ensures AtTheLeader(Step(s, a))
  {
    hide Describes, JobsAfter, RedisAfter, FleetAfter, ChoresAfter, Enabled, SelfContained, Step;
    StepParts(s, a);
    StillDescribes(s, a);
    var s' := Step(s, a);
    forall t | t in s'.chores.tasks
      ensures Describes(s'.jobs, s'.chores.tasks[t].env)
      ensures s'.chores.tasks[t].pc.TaskHandingOff? ==> Describes(s'.jobs, s'.chores.tasks[t].pc.next)
    {
      TasksStep(s, a, t);
    }
  }

  lemma ContainedStep(s: State, a: Action)
    requires SelfContained(s)
    ensures SelfContained(Step(s, a))
  {
    if Enabled(s, a) {
      hide OnTheWire, InHand, AtTheLeader, StillOwed, Step;
      WireContained(s, a);
      HandsContained(s, a);
      LeaderContained(s, a);
    }
  }

  /** In every state of every run, every envelope in a stream, in the delayed set, in a
      worker's or a leader's hands or about to be sent describes its job as submitted. */
  lemma {:induction false} AlwaysSelfContained(cfg: Config, now: int, run: seq<Action>, k: nat)
    requires k <= |run|
    ensures SelfContained(StateAt(Init(cfg, now), run, k))
  {
    hide Step;
    if k > 0 {
      AlwaysSelfContained(cfg, now, run, k - 1);
      ContainedStep(StateAt(Init(cfg, now), run, k - 1), run[k - 1]);
    }
  }
}
