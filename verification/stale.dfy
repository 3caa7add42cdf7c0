/** A reachable batch on which the batched flags and the simple recorder disagree: a worker
    loses its lease, the job is reaped and claimed again, and then both workers complete. */
module StaleCompletion {
  import opened Common
  import opened Job
  import opened Rows
  import opened Outcomes
  import opened Tables
  import opened Protocol
  import opened Stranding
  import Batch

  const ZOMBIE := Grant(1, 1, 1, 3)
  const OWNER := Grant(1, 3, 2, 3)
  const STALE_OP := Op(ZOMBIE, Complete("old"))
  const LIVE_OP := Op(OWNER, Complete("new"))

  function Run(): seq<Action> {
    [Submit(1, SPEC, 3, None), Enqueue(Todo(FIRST, Some(0), false)), Fetch(0, 0), ClaimJob(0, 7, 30), Tick(100),
     AutoClaim(0, 0), ReapJob(0, 0, 100), TaskHandOff(0, true), PromoteDue(SECOND), Fetch(1, 1), ClaimJob(1, 7, 30),
     Finish(0, None, None, "old", "", 0), Finish(1, None, None, "new", "", 0)]
  }

  /** The first worker holds the job, and then goes silent for longer than its lease. */
  ghost predicate Silent(s: State) {
    && s.now == 100 && s.cfg == CFG && s.jobs.Keys == {1}
    && s.jobs[1].status == Running && s.jobs[1].epoch == 1 && s.jobs[1].attempts == 1 && s.jobs[1].maxAttempts == 3
    && s.jobs[1].lease == Some(30)
    && s.redis.stream == map[0 := FIRST] && s.redis.pel == map[0 := 0] && s.redis.delayed == map[] && s.redis.next == 1
    && s.fleet.runners == map[0 := Runner(0, FIRST, Working(ZOMBIE))] && s.chores.tasks == map[]
  }

  lemma GoesSilent()
    ensures Silent(StateAt(Init(CFG, 0), Run(), 5))
  {
    hide Step;
    var s0, run := Init(CFG, 0), Run();
    Opening(3);
    var s2 := StateAt(s0, run, 2);
    assert s2 == Step(Step(s0, run[0]), run[1]);
    ClaimSteps(s2, 0, 0);
    assert StateAt(s0, run, 4) == Step(Step(s2, run[2]), run[3]);
    ConfigStays(s0, run, 4);
    TickStep(StateAt(s0, run, 4), 100);
  }

  /** The leader takes the entry over and reaps the row. */
  lemma Reaped(s: State)
    requires Silent(s)
    ensures var s' := Step(Step(s, AutoClaim(0, 0)), ReapJob(0, 0, 100));
            && s'.now == 100 && s'.jobs.Keys == {1}
            && s'.jobs[1].status == Retrying && s'.jobs[1].epoch == 2 && s'.jobs[1].attempts == 1 && s'.jobs[1].maxAttempts == 3
            && s'.redis.stream == s.redis.stream && s'.redis.pel.Keys == {0} && s'.redis.delayed == map[]
            && s'.redis.next == 1 && s'.fleet == s.fleet
            && s'.chores.tasks == map[0 := Task(0, FIRST, TaskHandingOff(SECOND, 100))]
  {
    hide Step;
    TakenOver(s);
    ReapStep(Step(s, AutoClaim(0, 0)));
  }

  lemma TakenOver(s: State)
    requires Silent(s)
    ensures var s' := Step(s, AutoClaim(0, 0));
            && s'.now == 100 && s'.jobs == s.jobs && s'.fleet == s.fleet
            && s'.redis.stream == s.redis.stream && s'.redis.pel.Keys == {0} && s'.redis.delayed == map[] && s'.redis.next == 1
            && s'.chores.tasks == map[0 := Task(0, FIRST, Taken)]
  {
  }

  lemma ReapStep(s: State)
    requires s.now == 100 && 1 in s.jobs && s.jobs[1].status == Running && s.jobs[1].lease == Some(30)
    requires s.jobs[1].attempts == 1 && s.jobs[1].maxAttempts == 3 && s.chores.tasks == map[0 := Task(0, FIRST, Taken)]
    ensures var s' := Step(s, ReapJob(0, 0, 100));
            && s'.now == 100 && s'.jobs.Keys == s.jobs.Keys && s'.fleet == s.fleet
            && s'.jobs[1].status == Retrying && s'.jobs[1].epoch == s.jobs[1].epoch + 1 && s'.jobs[1].attempts == 1 && s'.jobs[1].maxAttempts == 3
            && s'.redis.stream == s.redis.stream && s'.redis.pel == s.redis.pel && s'.redis.delayed == s.redis.delayed
            && s'.redis.next == s.redis.next
            && s'.chores.tasks == map[0 := Task(0, FIRST, TaskHandingOff(SECOND, 100))]
  {
    assert Hits(s, ReapJob(0, 0, 100));
    assert FIRST.(attempt := 2) == SECOND;
  }

  /** The next attempt is parked, promoted and waits on the stream. */
  lemma Requeued(s: State)
    requires s.now == 100 && s.redis.stream == map[0 := FIRST] && s.redis.pel.Keys == {0} && s.redis.delayed == map[] && s.redis.next == 1
    requires s.chores.tasks == map[0 := Task(0, FIRST, TaskHandingOff(SECOND, 100))]
    ensures var s' := Step(Step(s, TaskHandOff(0, true)), PromoteDue(SECOND));
            && s'.now == 100 && s'.jobs == s.jobs && s'.fleet == s.fleet
            && s'.redis.stream == map[0 := FIRST, 1 := SECOND] && s'.redis.pel.Keys == {0}
  {
    var s1 := Step(s, TaskHandOff(0, true));
    assert s1.redis.delayed == map[SECOND := 100] && s1.redis.stream == s.redis.stream && s1.now == 100;
    assert Enabled(s1, PromoteDue(SECOND));
  }

  /** A worker that returns without an error submits its completion. */
  lemma CompletionStep(s: State, r: ProcId, g: Grant, result: string)
    requires r in s.fleet.runners && s.fleet.runners[r].pc == Working(g)
    ensures var s' := Step(s, Finish(r, None, None, result, "", 0));
            && s'.jobs == s.jobs && s'.fleet.ops == s.fleet.ops + {Op(g, Complete(result))}
            && (forall other :: other != r && other in s.fleet.runners ==>
                  other in s'.fleet.runners && s'.fleet.runners[other] == s.fleet.runners[other])
  {
    assert FinishOutcome(None, None) == OutcomeCompleted;
  }

  /** Both completions are on their way, and only the second one's claim is open. */
  lemma BothSubmitted()
    ensures var s := StateAt(Init(CFG, 0), Run(), 13);
            && STALE_OP in s.fleet.ops && LIVE_OP in s.fleet.ops
            && 1 in s.jobs && Open(s.jobs[1], OWNER.epoch) && !Open(s.jobs[1], ZOMBIE.epoch)
  {
    hide Step;
    var s0, run := Init(CFG, 0), Run();
    GoesSilent();
    var s5, s7 := StateAt(s0, run, 5), StateAt(s0, run, 7);
    assert s7 == Step(Step(s5, run[5]), run[6]) by {
      assert StateAt(s0, run, 6) == Step(s5, run[5]);
    }
    Reaped(s5);
    var s9 := StateAt(s0, run, 9);
    assert s9 == Step(Step(s7, run[7]), run[8]) by {
      assert StateAt(s0, run, 8) == Step(s7, run[7]);
    }
    Requeued(s7);
    var s11 := StateAt(s0, run, 11);
    assert s11 == Step(Step(s9, run[9]), run[10]) by {
      assert StateAt(s0, run, 10) == Step(s9, run[9]);
    }
    ClaimSteps(s9, 1, 1);
    var s12 := StateAt(s0, run, 12);
    assert s12 == Step(s11, run[11]);
    CompletionStep(s11, 0, ZOMBIE, "old");
    assert StateAt(s0, run, 13) == Step(s12, run[12]);
    CompletionStep(s12, 1, OWNER, "new");
  }

  /** Batched together, the stale completion is reported as applied, though its fence was
      shut; recorded alone it is reported as fenced. */
  lemma StaleIsCredited(t: Tables, ops: seq<RecOp>, now: int, join: Batch.Join)
    requires t.jobs == StateAt(Init(CFG, 0), Run(), 13).jobs
    requires |ops| == 2 && ops[0].id == 1 && ops[0].epoch == ZOMBIE.epoch && ops[0].write == STALE_OP.write
    requires ops[1].id == 1 && ops[1].epoch == OWNER.epoch && ops[1].write == LIVE_OP.write
    ensures Batch.FlushFlag(t.jobs, ops, 0, now, join) && !Batch.SyncFlag(t, ops, 0, now)
    ensures Batch.FlushFlag(t.jobs, ops, 1, now, join) && Batch.SyncFlag(t, ops, 1, now)
  {
    hide Batch.FlushFlag, Batch.SyncFlag, StateAt;
    BothSubmitted();
    Batch.CompletionFlag(t.jobs, ops, 0, now, join);
    Batch.CompletionFlag(t.jobs, ops, 1, now, join);
    Batch.SyncFlagIsOpen(t, ops, 0, now);
    Batch.SyncFlagIsOpen(t, ops, 1, now);
    assert Batch.OpenAtStart(t.jobs, ops[1]);
  }
}
