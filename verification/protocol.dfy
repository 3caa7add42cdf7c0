/** The job lifecycle protocol: one global state over Postgres, Redis and the processes
    between them, and the atomic steps they take. A run is any sequence of actions; an
    action that is not enabled changes nothing. A participant that crashes is one whose
    remaining steps never occur, so every crash point of every participant is a run, and
    so is every delay, every duplicate delivery and every leader overlapping another. */
module Protocol {
  import opened Common
  import opened Job
  import opened Rows
  import opened Outcomes

  type EntryId = nat
  type ProcId = int

  // ------------------------------------------------------------------ the state

  /** The streams, the pending-entries list with its idle clock, and the delayed set. The
      last two fields are bookkeeping that no step reads: the entries whose holder has
      decided them, and the jobs handed to Redis since creation or the last requeue. */
  datatype Redis = Redis(stream: map<EntryId, Envelope>, pel: map<EntryId, int>, delayed: map<Envelope, int>,
                         next: EntryId, spent: set<EntryId>, handed: set<JobId>)
  {
    /** XADD of a fresh entry. */
    function XAdd(env: Envelope): Redis {
      this.(stream := stream[next := env], next := next + 1, handed := handed + {env.id})
    }

    /** ZADD: an identical member only changes its score. */
    function ZAdd(env: Envelope, at: int): Redis {
      this.(delayed := delayed[env := at], handed := handed + {env.id})
    }

    /** ZREM and XADD in one script. */
    function Move(env: Envelope): Redis {
      XAdd(env).(delayed := delayed - {env})
    }

    /** XACK and XDEL. */
    function Ack(e: EntryId): Redis {
      this.(stream := stream - {e}, pel := pel - {e})
    }

    /** XREADGROUP, XCLAIM or XAUTOCLAIM: the idle clock restarts. */
    function Hold(e: EntryId, now: int): Redis {
      this.(pel := pel[e := now])
    }

    function Decide(e: EntryId): Redis {
      this.(spent := spent + {e})
    }
  }

  /** An outcome write a runner has submitted to its recorder. */
  datatype Op = Op(grant: Grant, write: Write)

  /** A worker's progress through one delivery (Runner.Run and finish). */
  datatype RunnerPc =
    | Fetched
    | Working(grant: Grant)
    | Waiting(op: Op)
    | HandingOff(won: Grant, retry: Envelope, at: int)
    | Acking(claim: Option<Grant>)
    | Done

  datatype Runner = Runner(entry: EntryId, env: Envelope, pc: RunnerPc)

  /** The worker fleet and its recorders: the claims ever granted, the outcome writes ever
      submitted, those that ran against the table at least once, those that matched. */
  datatype Fleet = Fleet(runners: map<ProcId, Runner>, grants: set<Grant>, ops: set<Op>, landed: set<Op>,
                         applied: set<Op>)
  {
    function At(r: ProcId, pc: RunnerPc): Fleet
      requires r in runners
    {
      this.(runners := runners[r := runners[r].(pc := pc)])
    }
  }

  /** A leader's progress through one abandoned delivery (reapOne and ackUnreaped). */
  datatype TaskPc =
    | Taken
    | Unreaped
    | Reenqueueing(attempt: int)
    | TaskHandingOff(next: Envelope, at: int)
    | TaskAcking
    | TaskDone

  datatype Task = Task(entry: EntryId, env: Envelope, pc: TaskPc)

  /** An enqueue somebody is about to make: a submit, a requeue or a repair sweep. The
      stuck-retry sweep follows it with a promotion flip, the others with a receipt. */
  datatype Todo = Todo(env: Envelope, at: Option<int>, flips: bool)

  datatype Receipt = Receipt(id: JobId, ref: StreamRef)
  datatype Flip = Flip(id: JobId, entry: EntryId)

  /** What the API and the leaders still have to do. */
  datatype Chores = Chores(tasks: map<ProcId, Task>, todos: multiset<Todo>, handoffs: multiset<Envelope>,
                           receipts: set<Receipt>, lateReceipts: set<Receipt>, flips: set<Flip>)
  {
    /** One more enqueue to make; the same one may be made several times. */
    function Will(todo: Todo): (c: Chores)
      ensures forall other :: other in c.todos <==> other in todos || other == todo
    {
      this.(todos := todos + multiset{todo})
    }

    function Doing(todo: Todo): (c: Chores)
      ensures forall other :: other in c.todos ==> other in todos
    {
      this.(todos := todos - multiset{todo})
    }

    function WillPark(env: Envelope): (c: Chores)
      ensures forall other :: other in c.handoffs <==> other in handoffs || other == env
    {
      this.(handoffs := handoffs + multiset{env})
    }

    function Parking(env: Envelope): (c: Chores)
      ensures forall other :: other in c.handoffs ==> other in handoffs
    {
      this.(handoffs := handoffs - multiset{env})
    }

    function At(t: ProcId, pc: TaskPc): Chores
      requires t in tasks
    {
      this.(tasks := tasks[t := tasks[t].(pc := pc)])
    }
  }

  datatype Config = Config(minIdle: int, sweepGrace: int, orphanAge: int)

  datatype State = State(cfg: Config, now: int, jobs: Jobs, redis: Redis, fleet: Fleet, chores: Chores)

  function Init(cfg: Config, now: int): State {
    State(cfg, now, map[], Redis(map[], map[], map[], 0, {}, {}), Fleet(map[], {}, {}, {}, {}),
          Chores(map[], multiset{}, multiset{}, {}, {}, {}))
  }

  // ------------------------------------------------------------------ the actions

  datatype Action =
    | Tick(elapsed: nat)
    // API
    | Submit(id: JobId, spec: Spec, maxAttempts: int, scheduledAt: Option<int>)
    | Enqueue(todo: Todo)
    | SetEnqueued(receipt: Receipt)
    | SetEnqueuedLate(receipt: Receipt)
    | CancelIdle(id: JobId)
    | RequeueDead(id: JobId)
    // worker
    | Fetch(runner: ProcId, entry: EntryId)
    | ClaimJob(runner: ProcId, worker: WorkerId, ttl: int)
    | Heartbeat(runner: ProcId)
    | ExtendLease(runner: ProcId, ttl: int)
    | Finish(runner: ProcId, err: Error, cause: Error, result: string, msg: string, nextAt: int)
    | Land(op: Op)
    | Confirm(runner: ProcId, reported: bool)
    | HandOff(runner: ProcId, ok: bool)
    | Ack(runner: ProcId)
    // leader
    | PromoteDue(env: Envelope)
    | MarkPromoted(flip: Flip)
    | AutoClaim(task: ProcId, entry: EntryId)
    | ReapJob(task: ProcId, delay: int, retryAt: int)
    | Classify(task: ProcId)
    | Reenqueue(task: ProcId)
    | TaskHandOff(task: ProcId, ok: bool)
    | TaskAck(task: ProcId)
    | SweepStale(id: JobId, delay: int)
    | SweepHandOff(env: Envelope, at: int)
    | ListUnenqueued(id: JobId)
    | ListStuckRetrying(id: JobId)

  /** Whether a participant is in a position to take this step. */
  predicate Enabled(s: State, a: Action) {
    match a
    case Tick(_) => true
    case Submit(_, _, requested, _) => AdmitAttempts(requested).Some?
    case Enqueue(todo) => todo in s.chores.todos
    case SetEnqueued(receipt) => receipt in s.chores.receipts
    case SetEnqueuedLate(receipt) => receipt in s.chores.lateReceipts
    case CancelIdle(_) => true
    case RequeueDead(_) => true
    case Fetch(r, e) => r !in s.fleet.runners && e in s.redis.stream && e !in s.redis.pel
    case ClaimJob(r, _, _) => r in s.fleet.runners && s.fleet.runners[r].pc.Fetched?
    case Heartbeat(r) => r in s.fleet.runners && s.fleet.runners[r].pc.Working? && s.fleet.runners[r].entry in s.redis.pel
    case ExtendLease(r, _) => r in s.fleet.runners && s.fleet.runners[r].pc.Working?
    case Finish(r, _, _, _, _, _) => r in s.fleet.runners && s.fleet.runners[r].pc.Working?
    case Land(op) => op in s.fleet.ops
    case Confirm(r, reported) =>
      && r in s.fleet.runners && s.fleet.runners[r].pc.Waiting?
      && s.fleet.runners[r].pc.op in s.fleet.landed
      && (reported ==> s.fleet.runners[r].pc.op in s.fleet.applied)
    case HandOff(r, _) => r in s.fleet.runners && s.fleet.runners[r].pc.HandingOff?
    case Ack(r) => r in s.fleet.runners && s.fleet.runners[r].pc.Acking?
    case PromoteDue(env) => env in s.redis.delayed && s.redis.delayed[env] <= s.now
    case MarkPromoted(flip) => flip in s.chores.flips
    case AutoClaim(t, e) =>
      && t !in s.chores.tasks
      && e in s.redis.pel && e in s.redis.stream && s.redis.pel[e] + s.cfg.minIdle <= s.now
    case ReapJob(t, _, _) => t in s.chores.tasks && s.chores.tasks[t].pc.Taken?
    case Classify(t) => t in s.chores.tasks && s.chores.tasks[t].pc.Unreaped?
    case Reenqueue(t) => t in s.chores.tasks && s.chores.tasks[t].pc.Reenqueueing?
    case TaskHandOff(t, _) => t in s.chores.tasks && s.chores.tasks[t].pc.TaskHandingOff?
    case TaskAck(t) => t in s.chores.tasks && s.chores.tasks[t].pc.TaskAcking?
    case SweepStale(_, _) => true
    case SweepHandOff(env, _) => env in s.chores.handoffs
    case ListUnenqueued(id) => id in s.jobs && Orphaned(s.jobs[id], s.cfg.orphanAge, s.now)
    case ListStuckRetrying(id) => id in s.jobs && Stuck(s.jobs[id], s.cfg.orphanAge, s.now)
  }

  // ------------------------------------------------------------------ Postgres

  /** The one statement, if any, a step sends to Postgres. */
  function Statement(s: State, a: Action): Option<Stmt>
    requires Enabled(s, a)
  {
    match a
    case Submit(id, spec, requested, at) =>
      Some(Insert(id, spec, AdmitAttempts(requested).value, if at.Some? then at.value else s.now))
    case SetEnqueued(receipt) => Some(MarkEnqueued(receipt.id, receipt.ref))
    case SetEnqueuedLate(receipt) => Some(MarkEnqueued(receipt.id, receipt.ref))
    case CancelIdle(id) => Some(Cancel(id))
    case RequeueDead(id) => Some(Requeue(id))
    case ClaimJob(r, worker, ttl) => Some(Claim(s.fleet.runners[r].env.id, worker, ttl))
    case ExtendLease(r, ttl) =>
      var g := s.fleet.runners[r].pc.grant;
      Some(Extend(g.id, g.epoch, ttl))
    case Land(op) => Some(Record(op.grant.id, op.grant.epoch, op.write))
    case MarkPromoted(flip) => Some(Promote(flip.id))
    case ReapJob(t, delay, _) => Some(Reap(s.chores.tasks[t].env.id, delay, 0))
    case SweepStale(id, delay) => Some(Reap(id, delay, s.cfg.sweepGrace))
    case _ => None
  }

  /** The statement affected a row. */
  predicate Hits(s: State, a: Action)
    requires Enabled(s, a)
  {
    Statement(s, a).Some? && Applies(s.jobs, At(s.now, Statement(s, a).value))
  }

  function JobsAfter(s: State, a: Action): Jobs
    requires Enabled(s, a)
  {
    if Statement(s, a).None? then s.jobs else Exec(s.jobs, At(s.now, Statement(s, a).value))
  }

  // ------------------------------------------------------------------ Redis

  function RedisAfter(s: State, a: Action): Redis
    requires Enabled(s, a)
  {
    var redis := s.redis;
    match a
    case Enqueue(todo) =>
      if todo.at.Some? && todo.at.value > s.now then redis.ZAdd(todo.env, todo.at.value) else redis.XAdd(todo.env)
    case RequeueDead(id) => if Hits(s, a) then redis.(handed := redis.handed - {id}) else redis
    case Fetch(_, e) => redis.Hold(e, s.now)
    case ClaimJob(r, _, _) => redis.Decide(s.fleet.runners[r].entry)
    case Heartbeat(r) => redis.Hold(s.fleet.runners[r].entry, s.now)
    case HandOff(r, ok) =>
      var pc := s.fleet.runners[r].pc;
      if ok then redis.ZAdd(pc.retry, pc.at) else redis
    case Ack(r) => redis.Ack(s.fleet.runners[r].entry)
    case PromoteDue(env) => redis.Move(env)
    case AutoClaim(_, e) => redis.Hold(e, s.now)
    case ReapJob(t, _, _) => if Hits(s, a) then redis.Decide(s.chores.tasks[t].entry) else redis
    case Classify(t) =>
      var task := s.chores.tasks[t];
      if task.env.id in s.jobs && s.jobs[task.env.id].status != Pending then redis.Decide(task.entry) else redis
    case Reenqueue(t) =>
      var task := s.chores.tasks[t];
      redis.XAdd(task.env.(attempt := task.pc.attempt, enqueuedAt := s.now)).Decide(task.entry)
    case TaskHandOff(t, ok) =>
      var pc := s.chores.tasks[t].pc;
      if ok then redis.ZAdd(pc.next, pc.at) else redis
    case TaskAck(t) => redis.Ack(s.chores.tasks[t].entry)
    case SweepHandOff(env, at) => redis.ZAdd(env, at)
    case _ => redis
  }

  // ------------------------------------------------------------------ the workers

  function FleetAfter(s: State, a: Action): Fleet
    requires Enabled(s, a)
  {
    var fleet := s.fleet;
    match a
    case Fetch(r, e) => fleet.(runners := fleet.runners[r := Runner(e, s.redis.stream[e], Fetched)])
    case ClaimJob(r, _, _) =>
      if Hits(s, a) then
        var id := fleet.runners[r].env.id;
        var row := JobsAfter(s, a)[id];
        var g := Grant(id, row.epoch, row.attempts, row.maxAttempts);
        fleet.At(r, Working(g)).(grants := fleet.grants + {g})
      else fleet.At(r, Acking(None))
    case Finish(r, err, cause, result, msg, nextAt) =>
      var g := fleet.runners[r].pc.grant;
      var w := Route(FinishOutcome(err, cause), g, result, msg, nextAt);
      if w.None? then fleet.At(r, Done)
      else fleet.At(r, Waiting(Op(g, w.value))).(ops := fleet.ops + {Op(g, w.value)})
    case Land(op) =>
      fleet.(landed := fleet.landed + {op}, applied := fleet.applied + if Hits(s, a) then {op} else {})
    case Confirm(r, reported) =>
      var op := fleet.runners[r].pc.op;
      if reported && op.write.Retry? then
        var retry := fleet.runners[r].env.(attempt := op.grant.attempt + 1);
        fleet.At(r, HandingOff(op.grant, retry, op.write.nextAt))
      else fleet.At(r, Acking(Some(op.grant)))
    case HandOff(r, _) => fleet.At(r, Acking(Some(fleet.runners[r].pc.won)))
    case Ack(r) => fleet.At(r, Done)
    case _ => fleet
  }

  // ------------------------------------------------------------------ API and leaders

  function ChoresAfter(s: State, a: Action): Chores
    requires Enabled(s, a)
  {
    var chores := s.chores;
    match a
    case Submit(id, spec, _, _) =>
      if !Hits(s, a) then chores
      else chores.Will(Todo(NewEnvelope(id, spec, 1, s.now), Some(JobsAfter(s, a)[id].scheduledAt), false))
    case Enqueue(todo) =>
      var rest := chores.Doing(todo);
      if todo.at.Some? && todo.at.value > s.now then
        rest.(receipts := chores.receipts + {Receipt(todo.env.id, InDelayedSet)})
      else if todo.flips then
        rest.(flips := chores.flips + {Flip(todo.env.id, s.redis.next)})
      else
        rest.(receipts := chores.receipts + {Receipt(todo.env.id, InStream(s.redis.next))})
    case SetEnqueued(receipt) => chores.(receipts := chores.receipts - {receipt})
    case SetEnqueuedLate(receipt) => chores.(lateReceipts := chores.lateReceipts - {receipt})
    case RequeueDead(id) =>
      if !Hits(s, a) then chores
      else
        var own := set r | r in chores.receipts && r.id == id;
        chores.Will(Todo(NewEnvelope(id, s.jobs[id].spec, 1, s.now), None, false))
              .(receipts := chores.receipts - own, lateReceipts := chores.lateReceipts + own)
    case PromoteDue(env) => chores.(flips := chores.flips + {Flip(env.id, s.redis.next)})
    case MarkPromoted(flip) => chores.(flips := chores.flips - {flip})
    case AutoClaim(t, e) => chores.(tasks := chores.tasks[t := Task(e, s.redis.stream[e], Taken)])
    case ReapJob(t, _, retryAt) =>
      if !Hits(s, a) then chores.At(t, Unreaped)
      else
        var row := JobsAfter(s, a)[chores.tasks[t].env.id];
        if row.status == Retrying
        then chores.At(t, TaskHandingOff(chores.tasks[t].env.(attempt := row.attempts + 1), retryAt))
        else chores.At(t, TaskAcking)
    case Classify(t) =>
      var id := chores.tasks[t].env.id;
      if id !in s.jobs then chores.At(t, TaskDone)
      else if s.jobs[id].status == Pending then chores.At(t, Reenqueueing(s.jobs[id].attempts + 1))
      else chores.At(t, TaskAcking)
    case Reenqueue(t) => chores.At(t, TaskAcking)
    case TaskHandOff(t, _) => chores.At(t, TaskAcking)
    case TaskAck(t) => chores.At(t, TaskDone)
    case SweepStale(id, _) =>
      if Hits(s, a) && JobsAfter(s, a)[id].status == Retrying then
        var row := JobsAfter(s, a)[id];
        chores.WillPark(NewEnvelope(id, row.spec, row.attempts + 1, s.now))
      else chores
    case SweepHandOff(env, _) => chores.Parking(env)
    case ListUnenqueued(id) =>
      var row := s.jobs[id];
      chores.Will(Todo(NewEnvelope(id, row.spec, row.attempts + 1, s.now), None, false))
    case ListStuckRetrying(id) =>
      var row := s.jobs[id];
      chores.Will(Todo(NewEnvelope(id, row.spec, row.attempts + 1, s.now), None, true))
    case _ => chores
  }

  // ------------------------------------------------------------------ steps and runs

  /** One atomic step. */
  function Step(s: State, a: Action): State {
    if !Enabled(s, a) then s
    else State(s.cfg, if a.Tick? then s.now + a.elapsed else s.now,
               JobsAfter(s, a), RedisAfter(s, a), FleetAfter(s, a), ChoresAfter(s, a))
  }

  /** The state after the first k actions of a run. */
  function StateAt(s0: State, run: seq<Action>, k: nat): State
    requires k <= |run|
  {
    if k == 0 then s0 else Step(StateAt(s0, run, k - 1), run[k - 1])
  }

  function After(s0: State, run: seq<Action>): State {
    StateAt(s0, run, |run|)
  }

  lemma {:induction false} StateAtAppend(s0: State, run: seq<Action>, a: Action, k: nat)
    requires k <= |run|
    ensures StateAt(s0, run + [a], k) == StateAt(s0, run, k)
  {
    if k > 0 {
      StateAtAppend(s0, run, a, k - 1);
    }
  }

  lemma AfterSnoc(s0: State, run: seq<Action>, a: Action)
    ensures After(s0, run + [a]) == Step(After(s0, run), a)
  {
    StateAtAppend(s0, run, a, |run|);
  }

  lemma {:induction false} AfterConcat(s0: State, run: seq<Action>, more: seq<Action>, k: nat)
    requires k <= |more|
    ensures StateAt(s0, run + more, |run| + k) == StateAt(After(s0, run), more, k)
  {
    hide Step;
    if k > 0 {
      AfterConcat(s0, run, more, k - 1);
    } else {
      AfterPrefix(s0, run, more, |run|);
    }
  }

  lemma {:induction false} AfterPrefix(s0: State, run: seq<Action>, more: seq<Action>, k: nat)
    requires k <= |run|
    ensures StateAt(s0, run + more, k) == StateAt(s0, run, k)
  {
    hide Step;
    if k > 0 {
      AfterPrefix(s0, run, more, k - 1);
    }
  }

  lemma {:induction false} ConfigStays(s0: State, run: seq<Action>, k: nat)
    requires k <= |run|
    ensures StateAt(s0, run, k).cfg == s0.cfg
  {
    if k > 0 {
      ConfigStays(s0, run, k - 1);
    }
  }

  lemma TickStep(s: State, elapsed: nat)
    ensures Step(s, Tick(elapsed)) == s.(now := s.now + elapsed)
  {
  }

  /** The statement a step sends, with its clock. */
  function Sent(s: State, a: Action): seq<Timed> {
    if Enabled(s, a) && Statement(s, a).Some? then [At(s.now, Statement(s, a).value)] else []
  }

  /** The statements a run sent to Postgres, in order. */
  function History(s0: State, run: seq<Action>, k: nat): seq<Timed>
    requires k <= |run|
  {
    if k == 0 then [] else History(s0, run, k - 1) + Sent(StateAt(s0, run, k - 1), run[k - 1])
  }

  lemma StepSends(s: State, a: Action)
    ensures |Sent(s, a)| <= 1
    ensures Step(s, a).jobs == if Sent(s, a) == [] then s.jobs else Exec(s.jobs, Sent(s, a)[0])
  {
    hide Statement, RedisAfter, FleetAfter, ChoresAfter, Enabled;
  }

  /** The jobs table of a run is the table its statement history leaves, so every theorem
      about statement histories holds of every run. */
  lemma {:induction false} RunIsHistory(cfg: Config, now: int, run: seq<Action>, k: nat)
    requires k <= |run|
    ensures var h := History(Init(cfg, now), run, k);
            StateAt(Init(cfg, now), run, k).jobs == TableAt(h, |h|)
  {
    hide Step, Sent, Exec;
    if k > 0 {
      var s := StateAt(Init(cfg, now), run, k - 1);
      var h := History(Init(cfg, now), run, k - 1);
      var sent := Sent(s, run[k - 1]);
      RunIsHistory(cfg, now, run, k - 1);
      StepSends(s, run[k - 1]);
      if sent == [] {
        assert h + [] == h;
      } else {
        assert sent == [sent[0]];
        TableAtPrefix(h, sent[0], |h|);
      }
    }
  }
}
