/** No job is ever stranded: whatever crashes, a PENDING row still has a delivery on its
    way, or is one the orphan sweep looks for. */
module Delivery {
  import opened Job
  import opened Rows
  import opened Protocol

  // ------------------------------------------------------------------ the property

  /** A live delivery: an entry of the job's stream nobody has decided yet (ready, or in the
      pending list of a worker that may well be dead), or a member of the delayed set. */
  ghost predicate Live(redis: Redis, id: JobId) {
    || (exists e :: e in redis.stream && e !in redis.spent && redis.stream[e].id == id)
    || (exists env :: env in redis.delayed && env.id == id)
  }

  /** PENDING, marked as handed to Redis, and nothing on its way: no sweep would find it. */
  ghost predicate Stranded(s: State, id: JobId) {
    id in s.jobs && s.jobs[id].status == Pending && s.jobs[id].enqueued.Some? && !Live(s.redis, id)
  }

  // ----------------------------------------------------------- the timing assumption

  /** The two writes the code sends unfenced must not be arbitrarily late. A promotion flip
      may not land on a RETRYING row after the entry it followed has been decided, and a
      receipt may not land after a dead-letter requeue of its job. */
  predicate Timely(s: State, a: Action) {
    match a
    case SetEnqueuedLate(_) => false
    case MarkPromoted(flip) =>
      flip.id in s.jobs && s.jobs[flip.id].status == Retrying ==>
        flip.entry in s.redis.stream && flip.entry !in s.redis.spent && s.redis.stream[flip.entry].id == flip.id
    case _ => true
  }

  ghost predicate TimelyRun(s0: State, run: seq<Action>, k: nat)
    requires k <= |run|
  {
    forall j :: 0 <= j < k ==> Timely(StateAt(s0, run, j), run[j])
  }

  // ------------------------------------------------------------------ the invariant

  ghost predicate EntriesOk(s: State) {
    && (forall e :: e in s.redis.stream || e in s.redis.spent ==> e < s.redis.next)
    && s.redis.pel.Keys <= s.redis.stream.Keys
  }

  /** A holder knows the envelope of the entry it holds. */
  predicate Holds(redis: Redis, entry: EntryId, env: Envelope) {
    entry < redis.next && (entry in redis.stream ==> redis.stream[entry] == env)
  }

  /** Whoever is past its decision on a delivery has decided it. */
  ghost predicate RunnersHold(s: State) {
    forall r :: r in s.fleet.runners ==>
      && Holds(s.redis, s.fleet.runners[r].entry, s.fleet.runners[r].env)
      && (s.fleet.runners[r].pc.Fetched? || s.fleet.runners[r].entry in s.redis.spent)
  }

  ghost predicate TasksHold(s: State) {
    forall t :: t in s.chores.tasks ==>
      && Holds(s.redis, s.chores.tasks[t].entry, s.chores.tasks[t].env)
      && (PastDecision(s.chores.tasks[t].pc) ==> s.chores.tasks[t].entry in s.redis.spent)
  }

  /** Every envelope anywhere is of a job that exists. */
  ghost predicate Known(s: State) {
    && s.redis.handed <= s.jobs.Keys
    && (forall e :: e in s.redis.stream ==> s.redis.stream[e].id in s.jobs)
    && (forall env :: env in s.redis.delayed ==> env.id in s.jobs)
    && (forall r :: r in s.fleet.runners ==>
          && s.fleet.runners[r].env.id in s.jobs
          && (s.fleet.runners[r].pc.HandingOff? ==> s.fleet.runners[r].pc.retry.id in s.jobs))
    && (forall t :: t in s.chores.tasks ==>
          && s.chores.tasks[t].env.id in s.jobs
          && (s.chores.tasks[t].pc.TaskHandingOff? ==> s.chores.tasks[t].pc.next.id in s.jobs))
    && (forall todo :: todo in s.chores.todos ==> todo.env.id in s.jobs)
    && (forall env :: env in s.chores.handoffs ==> env.id in s.jobs)
  }

  ghost predicate HandedOk(s: State) {
    && (forall receipt :: receipt in s.chores.receipts ==> receipt.id in s.redis.handed)
    && (forall id :: id in s.jobs && s.jobs[id].enqueued.Some? ==> id in s.redis.handed)
    && (forall id :: id in s.jobs && s.jobs[id].status == Pending && id in s.redis.handed ==> Live(s.redis, id))
  }

  /** What holds of every run, timely or not. */
  ghost predicate Base(s: State) {
    EntriesOk(s) && RunnersHold(s) && TasksHold(s) && Known(s)
  }

  ghost predicate Inv(s: State) {
    Base(s) && HandedOk(s)
  }

  // ------------------------------------------------------------- what one step keeps

  lemma RedisStep(s: State, a: Action)
    requires Base(s) && Enabled(s, a)
    ensures EntriesOk(Step(s, a))
    ensures s.redis.next <= RedisAfter(s, a).next && s.redis.spent <= RedisAfter(s, a).spent
  {
    hide Known, JobsAfter, FleetAfter, ChoresAfter;
  }

  lemma HoldsStep(s: State, a: Action)
    requires Base(s) && Enabled(s, a)
    ensures forall entry, env :: Holds(s.redis, entry, env) ==> Holds(RedisAfter(s, a), entry, env)
  {
    hide RunnersHold, TasksHold, Known, JobsAfter, FleetAfter, ChoresAfter;
  }

  lemma RunnersStep(s: State, a: Action)
    requires Base(s) && Enabled(s, a)
    ensures RunnersHold(Step(s, a))
  {
    RedisStep(s, a);
    HoldsStep(s, a);
  }

  predicate PastDecision(pc: TaskPc) {
    pc.TaskHandingOff? || pc.TaskAcking?
  }

  lemma TaskDecides(s: State, a: Action, t: ProcId)
    requires Base(s) && Enabled(s, a) && t in s.chores.tasks && PastDecision(ChoresAfter(s, a).tasks[t].pc)
    ensures s.chores.tasks[t].entry in RedisAfter(s, a).spent
  {
    hide RunnersHold, Known, FleetAfter;
  }

  lemma TaskKeepsDelivery(s: State, a: Action, t: ProcId)
    requires Enabled(s, a) && t in ChoresAfter(s, a).tasks
    ensures var task := ChoresAfter(s, a).tasks[t];
            if t in s.chores.tasks then task.entry == s.chores.tasks[t].entry && task.env == s.chores.tasks[t].env
            else task.entry in s.redis.stream && task.env == s.redis.stream[task.entry] && !PastDecision(task.pc)
  {
    hide JobsAfter, Hits;
  }

  lemma TasksStep(s: State, a: Action)
    requires Base(s) && Enabled(s, a)
    ensures TasksHold(Step(s, a))
  {
    hide RedisAfter, ChoresAfter, RunnersHold, Known, Enabled;
    RedisStep(s, a);
    HoldsStep(s, a);
    var redis', tasks' := RedisAfter(s, a), ChoresAfter(s, a).tasks;
    forall t | t in tasks'
      ensures Holds(redis', tasks'[t].entry, tasks'[t].env) && (PastDecision(tasks'[t].pc) ==> tasks'[t].entry in redis'.spent)
    {
      TaskKeepsDelivery(s, a, t);
      assert Holds(s.redis, tasks'[t].entry, tasks'[t].env);
      if t in s.chores.tasks && PastDecision(tasks'[t].pc) {
        TaskDecides(s, a, t);
      }
    }
  }

  /** The ack of this very entry, by whoever is past its decision on it. */
  predicate Acks(s: State, a: Action, e: EntryId)
    requires Enabled(s, a)
  {
    || (a.Ack? && s.fleet.runners[a.runner].entry == e && s.fleet.runners[a.runner].pc.Acking?)
    || (a.TaskAck? && s.chores.tasks[a.task].entry == e && s.chores.tasks[a.task].pc.TaskAcking?)
  }

  lemma EntryStep(s: State, a: Action, e: EntryId)
    requires Enabled(s, a) && e in s.redis.stream && e < s.redis.next
    ensures Acks(s, a, e) || (e in RedisAfter(s, a).stream && RedisAfter(s, a).stream[e] == s.redis.stream[e])
  {
    hide JobsAfter, Hits;
  }

  /** An undecided entry is never acked. */
  lemma UndecidedStays(s: State, a: Action, e: EntryId)
    requires Base(s) && Enabled(s, a) && e in s.redis.stream && e !in s.redis.spent
    ensures e in RedisAfter(s, a).stream && RedisAfter(s, a).stream[e] == s.redis.stream[e]
  {
    hide RedisAfter, Known;
    EntryStep(s, a, e);
  }

  /** An entry is only decided away from a PENDING row after a fresh copy went on the wire. */
  lemma DecidedAway(s: State, a: Action, e: EntryId)
    requires Base(s) && Enabled(s, a) && e in s.redis.stream && e !in s.redis.spent && e in RedisAfter(s, a).spent
    requires var id := s.redis.stream[e].id; id in JobsAfter(s, a) && JobsAfter(s, a)[id].status == Pending
    ensures a.Reenqueue? && s.chores.tasks[a.task].env == s.redis.stream[e]
  {
    hide Known;
  }

  lemma DelayedStays(s: State, a: Action, env: Envelope)
    requires Enabled(s, a) && env in s.redis.delayed
    ensures env in RedisAfter(s, a).delayed
            || (a.PromoteDue? && a.env == env && s.redis.next in RedisAfter(s, a).stream
                && RedisAfter(s, a).stream[s.redis.next] == env && RedisAfter(s, a).spent == s.redis.spent)
  {
  }

  /** A live delivery of a job whose row ends a step PENDING is still there, or replaced:
      only spent entries are acked, and an entry is only decided away from a PENDING row,
      or after a fresh copy of it went on the wire. */
  lemma LiveKept(s: State, a: Action, id: JobId)
    requires Base(s) && Enabled(s, a) && Live(s.redis, id)
    requires id in JobsAfter(s, a) && JobsAfter(s, a)[id].status == Pending
    ensures Live(RedisAfter(s, a), id)
  {
    hide RedisAfter, JobsAfter, Enabled, RunnersHold, TasksHold, Known;
    var redis, redis' := s.redis, RedisAfter(s, a);
    if e :| e in redis.stream && e !in redis.spent && redis.stream[e].id == id {
      UndecidedStays(s, a, e);
      if e in redis'.spent {
        DecidedAway(s, a, e);
        ReenqueueIsLive(s, a);
      }
    } else {
      var env :| env in redis.delayed && env.id == id;
      DelayedStays(s, a, env);
    }
  }

  lemma ReenqueueIsLive(s: State, a: Action)
    requires Base(s) && Enabled(s, a) && a.Reenqueue?
    ensures Live(RedisAfter(s, a), s.chores.tasks[a.task].env.id)
  {
    var redis' := RedisAfter(s, a);
    assert redis'.stream[s.redis.next].id == s.chores.tasks[a.task].env.id;
  }

  lemma KnownRedis(s: State, a: Action)
    requires Base(s) && Enabled(s, a)
    ensures RedisAfter(s, a).handed <= JobsAfter(s, a).Keys
    ensures forall e :: e in RedisAfter(s, a).stream ==> RedisAfter(s, a).stream[e].id in JobsAfter(s, a)
    ensures forall env :: env in RedisAfter(s, a).delayed ==> env.id in JobsAfter(s, a)
  {
    assert forall id :: id in s.jobs ==> id in JobsAfter(s, a);
  }

  lemma KnownRunners(s: State, a: Action, r: ProcId)
    requires Base(s) && Enabled(s, a) && r in FleetAfter(s, a).runners
    ensures FleetAfter(s, a).runners[r].env.id in JobsAfter(s, a)
    ensures var pc := FleetAfter(s, a).runners[r].pc; pc.HandingOff? ==> pc.retry.id in JobsAfter(s, a)
  {
    assert forall id :: id in s.jobs ==> id in JobsAfter(s, a);
  }

  lemma RowsRemain(s: State, a: Action)
    requires Enabled(s, a)
    ensures s.jobs.Keys <= JobsAfter(s, a).Keys
  {
  }

  lemma KnownTasks(s: State, a: Action, t: ProcId)
    requires Base(s) && Enabled(s, a) && t in ChoresAfter(s, a).tasks
    ensures ChoresAfter(s, a).tasks[t].env.id in JobsAfter(s, a)
    ensures var pc := ChoresAfter(s, a).tasks[t].pc; pc.TaskHandingOff? ==> pc.next.id in JobsAfter(s, a)
  {
    RowsRemain(s, a);
    TasksKnown(s, a, t);
  }

  lemma TasksKnown(s: State, a: Action, t: ProcId)
    requires Base(s) && Enabled(s, a) && t in ChoresAfter(s, a).tasks
    ensures ChoresAfter(s, a).tasks[t].env.id in s.jobs
    ensures var pc := ChoresAfter(s, a).tasks[t].pc; pc.TaskHandingOff? ==> pc.next.id in s.jobs
  {
    hide ChoresAfter, RedisAfter, FleetAfter, EntriesOk, RunnersHold, TasksHold, Enabled;
    TaskKeepsDelivery(s, a, t);
    if ChoresAfter(s, a).tasks[t].pc.TaskHandingOff? {
      TaskParksOwn(s, a, t);
    }
  }

  /** A task only ever parks the next attempt of its own job. */
  lemma TaskParksOwn(s: State, a: Action, t: ProcId)
    requires Enabled(s, a) && t in ChoresAfter(s, a).tasks && ChoresAfter(s, a).tasks[t].pc.TaskHandingOff?
    ensures t in s.chores.tasks
    ensures var pc := ChoresAfter(s, a).tasks[t].pc;
            pc == s.chores.tasks[t].pc || pc.next.id == s.chores.tasks[t].env.id
  {
    hide JobsAfter, Hits;
  }

  lemma KnownChores(s: State, a: Action)
    requires Base(s) && Enabled(s, a)
    ensures forall todo :: todo in ChoresAfter(s, a).todos ==> todo.env.id in JobsAfter(s, a)
    ensures forall env :: env in ChoresAfter(s, a).handoffs ==> env.id in JobsAfter(s, a)
  {
    RowsRemain(s, a);
    TodosKnown(s, a);
    HandoffsKnown(s, a);
  }

  lemma TodosKnown(s: State, a: Action)
    requires Base(s) && Enabled(s, a)
    ensures forall todo :: todo in ChoresAfter(s, a).todos ==> todo.env.id in JobsAfter(s, a)
  {
    hide RedisAfter, FleetAfter, EntriesOk, RunnersHold, TasksHold;
    RowsRemain(s, a);
  }

  lemma HandoffsKnown(s: State, a: Action)
    requires Base(s) && Enabled(s, a)
    ensures forall env :: env in ChoresAfter(s, a).handoffs ==> env.id in s.jobs
  {
    hide RedisAfter, FleetAfter, EntriesOk, RunnersHold, TasksHold, JobsAfter;
  }

  lemma KnownStep(s: State, a: Action)
    requires Base(s) && Enabled(s, a)
    ensures Known(Step(s, a))
  {
    KnownRedis(s, a);
    KnownChores(s, a);
    var s' := Step(s, a);
    forall r | r in s'.fleet.runners
      ensures s'.fleet.runners[r].env.id in s'.jobs
      ensures s'.fleet.runners[r].pc.HandingOff? ==> s'.fleet.runners[r].pc.retry.id in s'.jobs
    {
      KnownRunners(s, a, r);
    }
    forall t | t in s'.chores.tasks
      ensures s'.chores.tasks[t].env.id in s'.jobs
      ensures s'.chores.tasks[t].pc.TaskHandingOff? ==> s'.chores.tasks[t].pc.next.id in s'.jobs
    {
      KnownTasks(s, a, t);
    }
  }

  /** A row that a timely step leaves PENDING, its job handed before and after, was live. */
  lemma WasLive(s: State, a: Action, id: JobId)
    requires Inv(s) && Enabled(s, a) && Timely(s, a) && id in s.redis.handed && id in RedisAfter(s, a).handed
    requires id in JobsAfter(s, a) && JobsAfter(s, a)[id].status == Pending
    ensures Live(s.redis, id)
  {
    hide RunnersHold, TasksHold, FleetAfter, ChoresAfter;
  }

  /** A job that a step hands to Redis has a live delivery from it. */
  lemma NewlyHanded(s: State, a: Action, id: JobId)
    requires Base(s) && Enabled(s, a) && id !in s.redis.handed && id in RedisAfter(s, a).handed
    ensures Live(RedisAfter(s, a), id)
  {
    hide RunnersHold, FleetAfter, ChoresAfter, JobsAfter, Known;
    var redis, redis' := s.redis, RedisAfter(s, a);
    if redis'.next == redis.next {
      assert exists env :: env in redis'.delayed && env.id == id;
    } else {
      assert redis'.stream[redis.next].id == id;
    }
  }

  /** This step requeues the job, so what was handed to Redis before no longer counts. */
  predicate Requeues(s: State, a: Action, id: JobId)
    requires Enabled(s, a)
  {
    a.RequeueDead? && a.id == id && Hits(s, a)
  }

  lemma ReceiptsMade(s: State, a: Action, receipt: Receipt)
    requires Enabled(s, a) && receipt in ChoresAfter(s, a).receipts
    ensures || (receipt in s.chores.receipts && !Requeues(s, a, receipt.id))
            || (a.Enqueue? && receipt.id == a.todo.env.id)
  {
    hide JobsAfter, RedisAfter, FleetAfter, Hits;
  }

  lemma HandedStays(s: State, a: Action, id: JobId)
    requires Enabled(s, a)
    requires (id in s.redis.handed && !Requeues(s, a, id)) || (a.Enqueue? && id == a.todo.env.id)
    ensures id in RedisAfter(s, a).handed
  {
    hide JobsAfter, FleetAfter, ChoresAfter, Hits;
  }

  lemma ReceiptsStep(s: State, a: Action)
    requires Inv(s) && Enabled(s, a)
    ensures forall receipt :: receipt in ChoresAfter(s, a).receipts ==> receipt.id in RedisAfter(s, a).handed
  {
    hide RunnersHold, TasksHold, Known, EntriesOk, JobsAfter, RedisAfter, ChoresAfter, Requeues, Enabled;
    forall receipt | receipt in ChoresAfter(s, a).receipts ensures receipt.id in RedisAfter(s, a).handed {
      ReceiptsMade(s, a, receipt);
      HandedStays(s, a, receipt.id);
    }
  }

  lemma MarkersStep(s: State, a: Action)
    requires Inv(s) && Enabled(s, a) && !a.SetEnqueuedLate?
    ensures forall id :: id in JobsAfter(s, a) && JobsAfter(s, a)[id].enqueued.Some? ==> id in RedisAfter(s, a).handed
  {
    hide RunnersHold, TasksHold, Known, EntriesOk;
  }

  lemma HandedStep(s: State, a: Action)
    requires Inv(s) && Enabled(s, a) && Timely(s, a)
    ensures HandedOk(Step(s, a))
  {
    ReceiptsStep(s, a);
    MarkersStep(s, a);
    var jobs', redis' := JobsAfter(s, a), RedisAfter(s, a);
    forall id | id in jobs' && jobs'[id].status == Pending && id in redis'.handed
      ensures Live(redis', id)
    {
      if id in s.redis.handed {
        WasLive(s, a, id);
        LiveKept(s, a, id);
      } else {
        NewlyHanded(s, a, id);
      }
    }
  }

  lemma BaseStep(s: State, a: Action)
    requires Base(s)
    ensures Base(Step(s, a))
  {
    if Enabled(s, a) {
      RedisStep(s, a);
      RunnersStep(s, a);
      TasksStep(s, a);
      KnownStep(s, a);
    }
  }

  lemma {:induction false} BaseAt(cfg: Config, now: int, run: seq<Action>, k: nat)
    requires k <= |run|
    ensures Base(StateAt(Init(cfg, now), run, k))
  {
    if k > 0 {
      hide Step, Base;
      BaseAt(cfg, now, run, k - 1);
      BaseStep(StateAt(Init(cfg, now), run, k - 1), run[k - 1]);
    }
  }

  lemma InvStep(s: State, a: Action)
    requires Inv(s) && Timely(s, a)
    ensures Inv(Step(s, a))
  {
    BaseStep(s, a);
    if Enabled(s, a) {
      HandedStep(s, a);
    }
  }

  lemma {:induction false} InvAt(cfg: Config, now: int, run: seq<Action>, k: nat)
    requires k <= |run| && TimelyRun(Init(cfg, now), run, k)
    ensures Inv(StateAt(Init(cfg, now), run, k))
  {
    if k > 0 {
      hide Step, Inv, Timely;
      InvAt(cfg, now, run, k - 1);
      InvStep(StateAt(Init(cfg, now), run, k - 1), run[k - 1]);
    }
  }

  // ------------------------------------------------------------- the main results

  /** No job is stranded in any state of any timely run: a PENDING row that was handed to
      Redis has a live delivery, and every other PENDING row has the NULL marker the orphan
      sweep looks for. */
  lemma NoJobStranded(cfg: Config, now: int, run: seq<Action>, k: nat, id: JobId)
    requires k <= |run| && TimelyRun(Init(cfg, now), run, k)
    requires id in StateAt(Init(cfg, now), run, k).jobs
    ensures var s := StateAt(Init(cfg, now), run, k);
            && !Stranded(s, id)
            && (s.jobs[id].status == Pending ==>
                  if id in s.redis.handed then Live(s.redis, id) else s.jobs[id].enqueued.None?)
  {
    InvAt(cfg, now, run, k);
  }

  /** The two unfenced writes at their worst: with nothing of the job on its way, a receipt
      marks a PENDING row that has no mark, or a promotion flips a RETRYING row that has one. */
  ghost predicate Strands(s: State, a: Action, id: JobId) {
    && Enabled(s, a) && id in s.jobs && !Live(s.redis, id)
    && (|| ((a.SetEnqueued? || a.SetEnqueuedLate?) && a.receipt.id == id
            && s.jobs[id].status == Pending && s.jobs[id].enqueued.None?)
        || (a.MarkPromoted? && a.flip.id == id
            && s.jobs[id].status == Retrying && s.jobs[id].enqueued.Some?))
  }

  /** The row of a job with nothing on its way ends a step PENDING and marked only by one of
      the two writes, if it did not begin so. */
  lemma RowStrands(s: State, a: Action, id: JobId)
    requires Enabled(s, a) && !Live(s.redis, id) && !Stranded(s, id)
    ensures (id in JobsAfter(s, a) && JobsAfter(s, a)[id].status == Pending && JobsAfter(s, a)[id].enqueued.Some?)
            <==> Strands(s, a, id)
  {
    hide RedisAfter, FleetAfter, ChoresAfter, Live;
  }

  /** In any state whatever, exactly: a step strands a job that was not stranded if and only
      if it is one of the two unfenced writes, with nothing of the job on its way. */
  lemma StrandingSteps(s: State, a: Action, id: JobId)
    requires Base(s) && Enabled(s, a) && !Stranded(s, id)
    ensures Stranded(Step(s, a), id) <==> Strands(s, a, id)
  {
    hide JobsAfter, RedisAfter, FleetAfter, ChoresAfter, Live, EntriesOk, RunnersHold, TasksHold, Known, Enabled;
    if Live(s.redis, id) {
      if id in JobsAfter(s, a) && JobsAfter(s, a)[id].status == Pending {
        LiveKept(s, a, id);
      }
    } else if Live(RedisAfter(s, a), id) {
      NoLifeFromStrands(s, a, id);
    } else {
      RowStrands(s, a, id);
    }
  }

  lemma NoLifeFromStrands(s: State, a: Action, id: JobId)
    requires Enabled(s, a)
    ensures Strands(s, a, id) ==> !Live(RedisAfter(s, a), id)
  {
    hide JobsAfter, Live;
    if Strands(s, a, id) {
      assert RedisAfter(s, a) == s.redis;
    }
  }

  ghost predicate EverStranded(s0: State, run: seq<Action>, k: nat, id: JobId)
    requires k <= |run|
  {
    exists j :: 0 <= j <= k && Stranded(StateAt(s0, run, j), id)
  }

  ghost predicate EverStrands(s0: State, run: seq<Action>, k: nat, id: JobId)
    requires k <= |run|
  {
    exists j :: 0 <= j < k && Strands(StateAt(s0, run, j), run[j], id)
  }

  /** Over whole runs, exactly: a job is ever stranded if and only if at some step one of the
      two writes landed with nothing of it on its way. */
  lemma {:induction false} StrandedExactly(cfg: Config, now: int, run: seq<Action>, k: nat, id: JobId)
    requires k <= |run|
    ensures EverStranded(Init(cfg, now), run, k, id) <==> EverStrands(Init(cfg, now), run, k, id)
  {
    hide EverStranded, EverStrands, Stranded, Strands, Base, Enabled;
    var s0 := Init(cfg, now);
    if k == 0 {
      NeverYet(cfg, now, run, id);
    } else {
      var s, a := StateAt(s0, run, k - 1), run[k - 1];
      StrandedExactly(cfg, now, run, k - 1, id);
      BaseAt(cfg, now, run, k - 1);
      OneMoreState(s0, run, k, id);
      StrandsIsFresh(s, a, id);
      if !Enabled(s, a) {
        DisabledStep(s, a);
      } else if !Stranded(s, id) {
        StrandingSteps(s, a, id);
      }
    }
  }

  lemma NeverYet(cfg: Config, now: int, run: seq<Action>, id: JobId)
    ensures !EverStranded(Init(cfg, now), run, 0, id) && !EverStrands(Init(cfg, now), run, 0, id)
  {
  }

  lemma OneMoreState(s0: State, run: seq<Action>, k: nat, id: JobId)
    requires 0 < k <= |run|
    ensures EverStranded(s0, run, k, id) <==> EverStranded(s0, run, k - 1, id) || Stranded(Step(StateAt(s0, run, k - 1), run[k - 1]), id)
    ensures Stranded(StateAt(s0, run, k - 1), id) ==> EverStranded(s0, run, k - 1, id)
    ensures EverStrands(s0, run, k, id) <==> EverStrands(s0, run, k - 1, id) || Strands(StateAt(s0, run, k - 1), run[k - 1], id)
  {
    hide Stranded, Strands, Step;
    assert StateAt(s0, run, k) == Step(StateAt(s0, run, k - 1), run[k - 1]);
  }

  lemma StrandsIsFresh(s: State, a: Action, id: JobId)
    ensures Strands(s, a, id) ==> Enabled(s, a) && !Stranded(s, id)
  {
  }

  lemma DisabledStep(s: State, a: Action)
    requires !Enabled(s, a)
    ensures Step(s, a) == s
  {
  }

  /** Entries leave a stream only by an ack of whoever decided them. */
  lemma OnlyDecidedEntriesAreAcked(s: State, a: Action, e: EntryId)
    requires Base(s) && e in s.redis.stream && e !in Step(s, a).redis.stream
    ensures e in s.redis.spent
    ensures Enabled(s, a) && Acks(s, a, e)
  {
    hide RedisAfter, Known;
    EntryStep(s, a, e);
  }
}
