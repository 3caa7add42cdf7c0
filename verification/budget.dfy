/** The attempt budget, durable-before-ack and the termination measure, in every state of
    every run of the protocol. ClaimJob checks no budget: the bound rests on finish
    deciding from the attempt captured at claim, and on the epoch fence keeping that
    attempt current. */
module Budget {
  import opened Job
  import opened Rows
  import opened Outcomes
  import opened Protocol
  import Fencing

  // ---------------------------------------------------------------- the invariant

  predicate RowOk(r: Row) {
    && 0 <= r.epoch && 1 <= r.maxAttempts <= MAX_ATTEMPTS_CEILING
    && 0 <= r.attempts <= r.maxAttempts
    && (Claimable(r.status) ==> r.attempts < r.maxAttempts)
    && (r.status == Running ==> 1 <= r.attempts)
    && (r.status == Running <==> r.lease.Some?)
  }

  ghost predicate RowsOk(s: State) {
    forall id :: id in s.jobs ==> RowOk(s.jobs[id])
  }

  /** A granted claim knows the budget of its row, and while its fence is open also the
      current attempt. */
  predicate GrantOk(jobs: Jobs, g: Grant) {
    && g.id in jobs
    && 1 <= g.epoch <= jobs[g.id].epoch
    && g.maxAttempts == jobs[g.id].maxAttempts
    && (Open(jobs[g.id], g.epoch) ==> g.attempt == jobs[g.id].attempts)
  }

  ghost predicate GrantsOk(s: State) {
    && (forall g :: g in s.fleet.grants ==> GrantOk(s.jobs, g))
    && (forall g, g' :: g in s.fleet.grants && g' in s.fleet.grants && g.id == g'.id && g.epoch == g'.epoch ==> g == g')
    && (forall id :: id in s.jobs && s.jobs[id].status == Running ==>
          Grant(id, s.jobs[id].epoch, s.jobs[id].attempts, s.jobs[id].maxAttempts) in s.fleet.grants)
  }

  ghost predicate OpsOk(s: State) {
    && (forall op :: op in s.fleet.ops ==> op.grant in s.fleet.grants && WithinBudget(op.grant, op.write))
    && s.fleet.applied <= s.fleet.landed <= s.fleet.ops
    && (forall op :: op in s.fleet.landed ==> Fencing.Released(s.jobs, op.grant.id, op.grant.epoch))
  }

  /** The outcome of a won claim is on record: its write ran, and its epoch is released. */
  ghost predicate Settled(s: State, r: Runner, g: Grant) {
    && g in s.fleet.grants && g.id == r.env.id
    && (exists op :: op in s.fleet.landed && op.grant == g)
    && Fencing.Released(s.jobs, g.id, g.epoch)
  }

  ghost predicate RunnerOk(s: State, r: Runner) {
    match r.pc
    case Working(g) => g in s.fleet.grants && g.id == r.env.id
    case Waiting(op) => op in s.fleet.ops && op.grant.id == r.env.id
    case HandingOff(g, env, _) => env.id == r.env.id && Settled(s, r, g)
    case Acking(claim) => claim.Some? ==> Settled(s, r, claim.value)
    case _ => true
  }

  ghost predicate RunnersOk(s: State) {
    forall r :: r in s.fleet.runners ==> RunnerOk(s, s.fleet.runners[r])
  }

  ghost predicate Inv(s: State) {
    RowsOk(s) && GrantsOk(s) && OpsOk(s) && RunnersOk(s)
  }

  // ------------------------------------------------------------- what one step keeps

  /** What a step does to one row: nothing, or the update of the statement it sent. */
  lemma RowMove(s: State, a: Action, id: JobId)
    requires Enabled(s, a) && id in s.jobs
    ensures id in JobsAfter(s, a)
    ensures JobsAfter(s, a)[id] == s.jobs[id]
         || (Hits(s, a) && Statement(s, a).value.id == id && !Statement(s, a).value.Insert?
             && Matches(s.jobs[id], At(s.now, Statement(s, a).value))
             && JobsAfter(s, a)[id] == Updated(s.jobs[id], At(s.now, Statement(s, a).value)))
  {
  }

  /** A statement that obeys the budget rule keeps its row within budget. */
  lemma UpdateKeepsRowOk(r: Row, t: Timed)
    requires RowOk(r) && Matches(r, t)
    requires t.stmt.Record? && t.stmt.write.Retry? ==> r.attempts < r.maxAttempts
    ensures RowOk(Updated(r, t))
  {
  }

  lemma RowsStep(s: State, a: Action)
    requires Inv(s) && Enabled(s, a)
    ensures forall id :: id in JobsAfter(s, a) ==> RowOk(JobsAfter(s, a)[id])
  {
    forall id | id in JobsAfter(s, a) ensures RowOk(JobsAfter(s, a)[id]) {
      if id in s.jobs {
        RowMove(s, a, id);
        if JobsAfter(s, a)[id] != s.jobs[id] {
          UpdateKeepsRowOk(s.jobs[id], At(s.now, Statement(s, a).value));
        }
      } else {
        assert a.Submit?;
      }
    }
  }

  /** Released claims stay released, and grants keep describing their rows. */
  lemma GrantKept(s: State, a: Action, g: Grant)
    requires Enabled(s, a) && GrantOk(s.jobs, g)
    ensures GrantOk(JobsAfter(s, a), g)
    ensures Fencing.Released(s.jobs, g.id, g.epoch) ==> Fencing.Released(JobsAfter(s, a), g.id, g.epoch)
  {
    RowMove(s, a, g.id);
  }

  /** A claim that wins adds one grant: its row as it now is, under an epoch nobody holds. */
  lemma GrantsAdded(s: State, a: Action)
    requires Inv(s) && Enabled(s, a)
    ensures s.fleet.grants <= FleetAfter(s, a).grants
    ensures forall g :: g in FleetAfter(s, a).grants && g !in s.fleet.grants ==>
              && a.ClaimJob? && Hits(s, a) && g.id in JobsAfter(s, a) && g.id in s.jobs
              && g == Grant(g.id, JobsAfter(s, a)[g.id].epoch, JobsAfter(s, a)[g.id].attempts, JobsAfter(s, a)[g.id].maxAttempts)
              && g.epoch == s.jobs[g.id].epoch + 1
  {
    hide GrantsOk, OpsOk, RunnersOk, ChoresAfter, RedisAfter;
  }

  lemma RunningIsGranted(s: State, a: Action, id: JobId)
    requires Inv(s) && Enabled(s, a) && id in JobsAfter(s, a) && JobsAfter(s, a)[id].status == Running
    ensures var r := JobsAfter(s, a)[id];
            Grant(id, r.epoch, r.attempts, r.maxAttempts) in FleetAfter(s, a).grants
  {
    hide OpsOk, RunnersOk, ChoresAfter, RedisAfter;
    if id in s.jobs {
      RowMove(s, a, id);
    }
  }

  lemma GrantsStep(s: State, a: Action)
    requires Inv(s) && Enabled(s, a)
    ensures GrantsOk(Step(s, a)) && s.fleet.grants <= FleetAfter(s, a).grants
  {
    hide JobsAfter, FleetAfter, ChoresAfter, RedisAfter, OpsOk, RunnersOk, Enabled, Hits;
    GrantsAdded(s, a);
    var s' := Step(s, a);
    forall g | g in s'.fleet.grants ensures GrantOk(s'.jobs, g) {
      if g in s.fleet.grants {
        GrantKept(s, a, g);
      }
    }
    forall id | id in s'.jobs && s'.jobs[id].status == Running
      ensures Grant(id, s'.jobs[id].epoch, s'.jobs[id].attempts, s'.jobs[id].maxAttempts) in s'.fleet.grants
    {
      RunningIsGranted(s, a, id);
    }
  }

  /** Whatever is submitted was granted and routed within its budget; whatever lands was
      submitted; whatever applies landed. */
  lemma OpsAdded(s: State, a: Action)
    requires Inv(s) && Enabled(s, a)
    ensures s.fleet.ops <= FleetAfter(s, a).ops
    ensures FleetAfter(s, a).applied <= FleetAfter(s, a).landed <= FleetAfter(s, a).ops
    ensures forall op :: op in FleetAfter(s, a).ops && op !in s.fleet.ops ==> op.grant in s.fleet.grants && WithinBudget(op.grant, op.write)
    ensures forall op :: op in FleetAfter(s, a).landed && op !in s.fleet.landed ==> a == Land(op) && op in s.fleet.ops
  {
    hide JobsAfter, ChoresAfter, RedisAfter, RowsOk, GrantsOk, Hits, FinishOutcome;
    if a.Finish? {
      assert RunnerOk(s, s.fleet.runners[a.runner]);
    }
  }

  /** A write that has run leaves its claim released, applied or not. */
  lemma LandReleases(s: State, op: Op)
    requires Inv(s) && Enabled(s, Land(op))
    ensures Fencing.Released(JobsAfter(s, Land(op)), op.grant.id, op.grant.epoch)
  {
    hide RunnersOk, ChoresAfter, RedisAfter, FleetAfter;
    assert GrantOk(s.jobs, op.grant);
  }

  lemma OpsStep(s: State, a: Action)
    requires Inv(s) && Enabled(s, a)
    ensures OpsOk(Step(s, a)) && s.fleet.ops <= FleetAfter(s, a).ops
  {
    hide JobsAfter, FleetAfter, ChoresAfter, RedisAfter, RunnersOk, RowsOk, Enabled, Fencing.Released, WithinBudget;
    OpsAdded(s, a);
    GrantsAdded(s, a);
    var s' := Step(s, a);
    forall op | op in s'.fleet.landed ensures Fencing.Released(s'.jobs, op.grant.id, op.grant.epoch) {
      if op in s.fleet.landed {
        assert op in s.fleet.ops;
        GrantKept(s, a, op.grant);
      } else {
        LandReleases(s, op);
      }
    }
  }

  lemma RunnerUntouched(s: State, a: Action, r: Runner)
    requires Inv(s) && Enabled(s, a) && RunnerOk(s, r)
    ensures RunnerOk(Step(s, a), r)
  {
    GrantsStep(s, a);
    OpsStep(s, a);
    if r.pc.HandingOff? {
      GrantKept(s, a, r.pc.won);
    } else if r.pc.Acking? && r.pc.claim.Some? {
      GrantKept(s, a, r.pc.claim.value);
    }
  }

  lemma RunnerMoved(s: State, a: Action, r: ProcId)
    requires Inv(s) && Enabled(s, a) && r in s.fleet.runners
    requires FleetAfter(s, a).runners[r] != s.fleet.runners[r]
    ensures RunnerOk(Step(s, a), FleetAfter(s, a).runners[r])
  {
    OpsStep(s, a);
    var runner := s.fleet.runners[r];
    assert RunnerOk(s, runner);
    if a.HandOff? {
      RunnerUntouched(s, a, runner);
    }
  }

  lemma RunnersStep(s: State, a: Action)
    requires Inv(s) && Enabled(s, a)
    ensures RunnersOk(Step(s, a))
  {
    forall r | r in FleetAfter(s, a).runners ensures RunnerOk(Step(s, a), FleetAfter(s, a).runners[r]) {
      if r in s.fleet.runners {
        if FleetAfter(s, a).runners[r] != s.fleet.runners[r] {
          RunnerMoved(s, a, r);
        } else {
          RunnerUntouched(s, a, s.fleet.runners[r]);
        }
      }
    }
  }

  /** Every step of every participant keeps the invariant. */
  lemma InvStep(s: State, a: Action)
    requires Inv(s)
    ensures Inv(Step(s, a))
  {
    if Enabled(s, a) {
      RowsStep(s, a);
      GrantsStep(s, a);
      OpsStep(s, a);
      RunnersStep(s, a);
    }
  }

  lemma {:induction false} InvAt(cfg: Config, now: int, run: seq<Action>, k: nat)
    requires k <= |run|
    ensures Inv(StateAt(Init(cfg, now), run, k))
  {
    if k > 0 {
      InvAt(cfg, now, run, k - 1);
      InvStep(StateAt(Init(cfg, now), run, k - 1), run[k - 1]);
    }
  }

  // ------------------------------------------------------------- the main results

  /** No run ever exceeds the budget: PENDING and RETRYING rows have an attempt left, and a
      RUNNING row is in one of its allowed attempts. */
  lemma AttemptBudget(cfg: Config, now: int, run: seq<Action>, k: nat, id: JobId)
    requires k <= |run| && id in StateAt(Init(cfg, now), run, k).jobs
    ensures var r := StateAt(Init(cfg, now), run, k).jobs[id];
            && 0 <= r.attempts <= r.maxAttempts <= MAX_ATTEMPTS_CEILING
            && (r.status == Pending || r.status == Retrying ==> r.attempts < r.maxAttempts)
            && (r.status == Running ==> 1 <= r.attempts && r.lease.Some?)
  {
    InvAt(cfg, now, run, k);
  }

  lemma {:induction false} ReleasedForever(s0: State, run: seq<Action>, id: JobId, epoch: int, i: nat, j: nat)
    requires i <= j <= |run| && Fencing.Released(StateAt(s0, run, i).jobs, id, epoch)
    ensures Fencing.Released(StateAt(s0, run, j).jobs, id, epoch)
    decreases j
  {
    if i < j {
      ReleasedForever(s0, run, id, epoch, i, j - 1);
      var s := StateAt(s0, run, j - 1);
      if Enabled(s, run[j - 1]) {
        RowMove(s, run[j - 1], id);
      }
    }
  }

  /** Durable record first, ack second: whenever a runner acks the delivery of a claim it
      won, an outcome write of that claim has already run, the row is no longer RUNNING at
      the claim's epoch, and it never is again in the rest of the run. */
  lemma DurableBeforeAck(cfg: Config, now: int, run: seq<Action>, k: nat, j: nat)
    requires k < j <= |run| && run[k].Ack? && Enabled(StateAt(Init(cfg, now), run, k), run[k])
    requires StateAt(Init(cfg, now), run, k).fleet.runners[run[k].runner].pc.claim.Some?
    ensures var s := StateAt(Init(cfg, now), run, k);
            var g := s.fleet.runners[run[k].runner].pc.claim.value;
            && (exists op :: op in s.fleet.landed && op.grant == g)
            && g.id in s.jobs && !Open(s.jobs[g.id], g.epoch)
            && g.id in StateAt(Init(cfg, now), run, j).jobs
            && !Open(StateAt(Init(cfg, now), run, j).jobs[g.id], g.epoch)
  {
    var s := StateAt(Init(cfg, now), run, k);
    InvAt(cfg, now, run, k);
    assert RunnerOk(s, s.fleet.runners[run[k].runner]);
    var g := s.fleet.runners[run[k].runner].pc.claim.value;
    ReleasedForever(Init(cfg, now), run, g.id, g.epoch, k, j);
  }

  /** The ownership ledger and exactly-once results, in every state of every run. */
  lemma RunLedger(cfg: Config, now: int, run: seq<Action>, k: nat, id: JobId)
    requires k <= |run|
    ensures var h := History(Init(cfg, now), run, k);
            var n := |h|;
            var jobs := StateAt(Init(cfg, now), run, k).jobs;
            && Fencing.EpochOf(jobs, id)
               == Fencing.Count(h, n, id, Fencing.Claims) + Fencing.Count(h, n, id, Fencing.Reaps)
                  + Fencing.Count(h, n, id, Fencing.Cancels) + Fencing.Count(h, n, id, Fencing.Requeues)
            && Fencing.Count(h, n, id, Fencing.Claims)
               == Fencing.Count(h, n, id, Fencing.Outcomes) + Fencing.Count(h, n, id, Fencing.Reaps)
                  + (if Fencing.InStatus(jobs, id, Running) then 1 else 0)
            && Fencing.Count(h, n, id, Fencing.Completes) == (if Fencing.InStatus(jobs, id, Completed) then 1 else 0)
  {
    var h := History(Init(cfg, now), run, k);
    RunIsHistory(cfg, now, run, k);
    Fencing.OwnershipLedger(h, |h|, id);
    Fencing.CompletedOnce(h, |h|, id);
  }

  // ------------------------------------------------------------- the termination measure

  function Rank(r: Row): int {
    match r.status
    case Running => 2
    case Retrying => 1
    case Pending => 0
    case _ => if r.attempts == r.maxAttempts then 1 else -1
  }

  /** Attempts left, weighted by the longest chain of statuses one attempt can pass. */
  function Measure(r: Row): int {
    3 * (r.maxAttempts - r.attempts) + Rank(r)
  }

  /** Every update that is not an operator requeue either leaves the status and the measure
      alone, or follows a legal edge and lowers the measure. */
  lemma MeasureDrops(r: Row, t: Timed)
    requires RowOk(r) && Matches(r, t) && !t.stmt.Requeue?
    requires t.stmt.Record? && t.stmt.write.Retry? ==> r.attempts < r.maxAttempts
    ensures var r' := Updated(r, t);
            && r'.maxAttempts == r.maxAttempts && 1 <= Measure(r')
            && (if r'.status == r.status then Measure(r') == Measure(r)
                else CanTransition(r.status, r'.status) && Measure(r') < Measure(r))
  {
  }

  /** How often a job changed status in steps i to k of a run. */
  function StatusChanges(s0: State, run: seq<Action>, i: nat, k: nat, id: JobId): nat
    requires i <= k <= |run|
  {
    if i == k then 0
    else
      var before, after := StateAt(s0, run, k - 1).jobs, StateAt(s0, run, k).jobs;
      StatusChanges(s0, run, i, k - 1, id)
      + if id in before && id in after && before[id].status != after[id].status then 1 else 0
  }

  /** Whether step k of the run is an operator requeue of the job. */
  predicate RequeuedAt(s0: State, run: seq<Action>, k: nat, id: JobId)
    requires k < |run|
  {
    run[k] == RequeueDead(id) && Hits(StateAt(s0, run, k), run[k])
  }

  lemma {:induction false} MeasureSpent(cfg: Config, now: int, run: seq<Action>, i: nat, k: nat, id: JobId)
    requires i <= k <= |run| && id in StateAt(Init(cfg, now), run, i).jobs
    requires forall j :: i <= j < k ==> !RequeuedAt(Init(cfg, now), run, j, id)
    ensures var s0 := Init(cfg, now);
            && id in StateAt(s0, run, k).jobs
            && StateAt(s0, run, k).jobs[id].maxAttempts == StateAt(s0, run, i).jobs[id].maxAttempts
            && StatusChanges(s0, run, i, k, id) + Measure(StateAt(s0, run, k).jobs[id])
               <= Measure(StateAt(s0, run, i).jobs[id])
    decreases k
  {
    if i < k {
      var s0 := Init(cfg, now);
      MeasureSpent(cfg, now, run, i, k - 1, id);
      InvAt(cfg, now, run, k - 1);
      assert !RequeuedAt(s0, run, k - 1, id);
      StepSpends(StateAt(s0, run, k - 1), run[k - 1], id);
    }
  }

  /** A step that is not an operator requeue of the job pays for a status change. */
  lemma StepSpends(s: State, a: Action, id: JobId)
    requires Inv(s) && id in s.jobs && !(a == RequeueDead(id) && Enabled(s, a) && Hits(s, a))
    ensures id in Step(s, a).jobs && Step(s, a).jobs[id].maxAttempts == s.jobs[id].maxAttempts
    ensures Measure(Step(s, a).jobs[id]) + (if Step(s, a).jobs[id].status != s.jobs[id].status then 1 else 0) <= Measure(s.jobs[id])
  {
    hide FleetAfter, ChoresAfter, RedisAfter, Measure;
    if Enabled(s, a) {
      RowMove(s, a, id);
      if JobsAfter(s, a)[id] != s.jobs[id] {
        var t := At(s.now, Statement(s, a).value);
        if t.stmt.Record? {
          assert GrantOk(s.jobs, a.op.grant);
        }
        MeasureDrops(s.jobs[id], t);
      }
    }
  }

  /** Between operator requeues a job changes status fewer than 3 * max_attempts times, so
      at most 74 times: there is no silent retry loop. */
  lemma BoundedStatusChanges(cfg: Config, now: int, run: seq<Action>, i: nat, k: nat, id: JobId)
    requires i <= k <= |run| && id in StateAt(Init(cfg, now), run, i).jobs
    requires StateAt(Init(cfg, now), run, i).jobs[id].status == Pending
    requires forall j :: i <= j < k ==> !RequeuedAt(Init(cfg, now), run, j, id)
    ensures StatusChanges(Init(cfg, now), run, i, k, id)
            < 3 * StateAt(Init(cfg, now), run, i).jobs[id].maxAttempts <= 3 * MAX_ATTEMPTS_CEILING
  {
    MeasureSpent(cfg, now, run, i, k, id);
    InvAt(cfg, now, run, i);
    InvAt(cfg, now, run, k);
  }
}
