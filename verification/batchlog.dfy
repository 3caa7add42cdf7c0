/** What a batcher does to the tables over time, as a log: operations arriving, everybody
    else's writes, and flushes with their one retry. The theorems are about every log. */
module BatchLog {
  import opened Job
  import opened Rows
  import opened Tables
  import opened Batch
  import Fencing

  /** What a recorder call returns: the fence's verdict, or an error (record unconfirmed). */
  datatype OpResult = Reported(applied: bool) | Unconfirmed

  /** How one transaction can end: committed, rolled back, or committed with its
      confirmation lost. */
  datatype Fate = Committed | RolledBack | CommitUnseen

  // ------------------------------------------------------------------ everybody else

  /** A write of another process: a statement, an attempt row, an event. */
  datatype Other = Ran(t: Timed) | Inserted(a: Attempt) | Noted(e: Event)

  function Did(t: Tables, other: Other): Tables {
    match other
    case Ran(stmt) => t.(jobs := Exec(t.jobs, stmt))
    case Inserted(a) => t.(attempts := InsertAttempt(t.attempts, a))
    case Noted(e) => t.(events := t.events + [e])
  }

  function DidAll(t: Tables, others: seq<Other>, k: nat): Tables
    requires k <= |others|
  {
    if k == 0 then t else Did(DidAll(t, others, k - 1), others[k - 1])
  }

  // ------------------------------------------------------------------ one flush

  /** How one flush goes: the first transaction, what others write before the retry, and the
      second transaction. */
  datatype Plan = Plan(now: int, join: Join, first: Fate, between: seq<Other>, later: int, join2: Join, second: Fate)

  function Transact(t: Tables, ops: seq<RecOp>, now: int, join: Join, fate: Fate): Tables {
    if fate.RolledBack? then t else Flush(t, ops, now, join)
  }

  /** The tables the retry finds. */
  function Between(t: Tables, ops: seq<RecOp>, plan: Plan): Tables {
    DidAll(Transact(t, ops, plan.now, plan.join, plan.first), plan.between, |plan.between|)
  }

  /** The tables a flush leaves: one transaction if it is confirmed, otherwise two. */
  function FlushedBy(t: Tables, ops: seq<RecOp>, plan: Plan): Tables {
    if plan.first.Committed? then Flush(t, ops, plan.now, plan.join)
    else Transact(Between(t, ops, plan), ops, plan.later, plan.join2, plan.second)
  }

  /** What each operation's submitter is told. */
  function ResultsBy(t: Tables, ops: seq<RecOp>, plan: Plan): (rs: seq<OpResult>)
    ensures |rs| == |ops|
  {
    if plan.first.Committed? then
      seq(|ops|, k requires 0 <= k < |ops| => Reported(FlushFlag(t.jobs, ops, k, plan.now, plan.join)))
    else if plan.second.Committed? then
      seq(|ops|, k requires 0 <= k < |ops| => Reported(FlushFlag(Between(t, ops, plan).jobs, ops, k, plan.later, plan.join2)))
    else seq(|ops|, _ => Unconfirmed)
  }

  /** No row vanishes, no epoch falls, and what is released stays released. */
  ghost predicate Preserves(before: Jobs, after: Jobs) {
    && (forall id :: id in before ==> id in after && before[id].epoch <= after[id].epoch)
    && (forall id, epoch :: Fencing.Released(before, id, epoch) ==> Fencing.Released(after, id, epoch))
  }

  lemma FlushPreserves(jobs: Jobs, ops: seq<RecOp>, now: int, join: Join)
    ensures Preserves(jobs, FlushJobs(jobs, ops, now, join))
  {
    hide FlushJobs;
    var after := FlushJobs(jobs, ops, now, join);
    forall id | id in jobs ensures id in after && jobs[id].epoch == after[id].epoch && (after[id] == jobs[id] || after[id].status != Running) {
      FlushedRow(jobs, ops, now, join, id);
    }
  }

  lemma FlushedRow(jobs: Jobs, ops: seq<RecOp>, now: int, join: Join, id: JobId)
    requires id in jobs
    ensures var after := FlushJobs(jobs, ops, now, join);
            id in after && jobs[id].epoch == after[id].epoch && (after[id] == jobs[id] || after[id].status != Running)
  {
    hide FlushJobs, FlushWinner, Recorded;
    FlushRow(jobs, ops, now, join, id);
    var winner := FlushWinner(id, jobs[id], ops, join);
    if winner.Some? {
      RecordedIsShut(jobs[id], ops[winner.value].write, now);
    }
  }

  lemma DidPreserves(t: Tables, other: Other)
    ensures Preserves(t.jobs, Did(t, other).jobs) && t.attempts.Keys <= Did(t, other).attempts.Keys
  {
  }

  lemma {:induction false} DidAllPreserves(t: Tables, others: seq<Other>, k: nat)
    requires k <= |others|
    ensures Preserves(t.jobs, DidAll(t, others, k).jobs) && t.attempts.Keys <= DidAll(t, others, k).attempts.Keys
  {
    hide Fencing.Released, Did;
    if k > 0 {
      DidAllPreserves(t, others, k - 1);
      DidPreserves(DidAll(t, others, k - 1), others[k - 1]);
    }
  }

  lemma TransactPreserves(t: Tables, ops: seq<RecOp>, now: int, join: Join, fate: Fate)
    ensures Preserves(t.jobs, Transact(t, ops, now, join, fate).jobs)
  {
    FlushPreserves(t.jobs, ops, now, join);
  }

  lemma FlushedByPreserves(t: Tables, ops: seq<RecOp>, plan: Plan)
    ensures Preserves(t.jobs, Between(t, ops, plan).jobs) && Preserves(t.jobs, FlushedBy(t, ops, plan).jobs)
  {
    hide Fencing.Released, DidAll, Transact, FlushJobs;
    FlushPreserves(t.jobs, ops, plan.now, plan.join);
    TransactPreserves(t, ops, plan.now, plan.join, plan.first);
    DidAllPreserves(Transact(t, ops, plan.now, plan.join, plan.first), plan.between, |plan.between|);
    TransactPreserves(Between(t, ops, plan), ops, plan.later, plan.join2, plan.second);
  }

  lemma StillHandedOut(before: Jobs, after: Jobs, ops: seq<RecOp>)
    requires HandedOut(before, ops) && Preserves(before, after)
    ensures HandedOut(after, ops)
  {
  }

  lemma FlushSettles(t: Tables, ops: seq<RecOp>, now: int, join: Join)
    requires HandedOut(t.jobs, ops)
    ensures AllReleased(Flush(t, ops, now, join).jobs, ops) && AttemptsPresent(Flush(t, ops, now, join).attempts, ops)
  {
    forall i | 0 <= i < |ops|
      ensures Fencing.Released(FlushJobs(t.jobs, ops, now, join), ops[i].id, ops[i].epoch)
    {
      FlushReleases(t.jobs, ops, now, join, i);
    }
    AttemptsInserted(t.attempts, ops, |ops|);
  }

  /** What an unseen commit leaves for the retry: everything settled, so the retry changes
      nothing and applies nothing, whatever others wrote in between. */
  lemma UnseenSettles(t: Tables, ops: seq<RecOp>, plan: Plan)
    requires HandedOut(t.jobs, ops) && plan.first.CommitUnseen?
    ensures AllReleased(Between(t, ops, plan).jobs, ops) && AttemptsPresent(Between(t, ops, plan).attempts, ops)
    ensures Flush(Between(t, ops, plan), ops, plan.later, plan.join2) == Between(t, ops, plan)
    ensures forall k :: 0 <= k < |ops| ==> !FlushFlag(Between(t, ops, plan).jobs, ops, k, plan.later, plan.join2)
  {
    hide DidAll, Flush, Fencing.Released, FlushFlag;
    FlushSettles(t, ops, plan.now, plan.join);
    DidAllPreserves(Flush(t, ops, plan.now, plan.join), plan.between, |plan.between|);
    SettledReplay(Between(t, ops, plan), ops, plan.later, plan.join2);
  }

  /** A batch of claims that were handed out reaches the tables at most once, whatever the
      fates: it is flushed by the first transaction or by the second, or not at all. */
  lemma FlushedAtMostOnce(t: Tables, ops: seq<RecOp>, plan: Plan)
    requires HandedOut(t.jobs, ops)
    ensures var others := plan.between;
            var after := FlushedBy(t, ops, plan);
            if plan.first.Committed? then after == Flush(t, ops, plan.now, plan.join)
            else if plan.first.CommitUnseen? then
              after == DidAll(Flush(t, ops, plan.now, plan.join), others, |others|)
            else if plan.second.RolledBack? then after == DidAll(t, others, |others|)
            else after == Flush(DidAll(t, others, |others|), ops, plan.later, plan.join2)
  {
    hide DidAll, Flush;
    if plan.first.CommitUnseen? {
      UnseenSettles(t, ops, plan);
    }
  }

  /** Nobody is told "recorded" unless the batch is on disk: every claim of it released, every
      attempt row present. */
  lemma ReportsAreDurable(t: Tables, ops: seq<RecOp>, plan: Plan)
    requires HandedOut(t.jobs, ops) && (plan.first.Committed? || plan.second.Committed?)
    ensures AllReleased(FlushedBy(t, ops, plan).jobs, ops) && AttemptsPresent(FlushedBy(t, ops, plan).attempts, ops)
  {
    hide DidAll, Flush, Fencing.Released;
    if plan.first.Committed? {
      FlushSettles(t, ops, plan.now, plan.join);
    } else {
      FlushedByPreserves(t, ops, plan);
      StillHandedOut(t.jobs, Between(t, ops, plan).jobs, ops);
      FlushSettles(Between(t, ops, plan), ops, plan.later, plan.join2);
    }
  }

  /** Nobody is told "applied" after an unseen commit, though the write is there. */
  lemma UnseenReportsFenced(t: Tables, ops: seq<RecOp>, plan: Plan)
    requires HandedOut(t.jobs, ops) && plan.first.CommitUnseen?
    ensures forall k :: 0 <= k < |ops| ==> ResultsBy(t, ops, plan)[k] in {Reported(false), Unconfirmed}
  {
    hide Between, FlushFlag;
    UnseenSettles(t, ops, plan);
  }

  // ------------------------------------------------------------------ the log

  /** What reaches a batcher from outside: a submitter's send, another process's write. */
  datatype Input = Send(op: RecOp) | Act(other: Other)

  datatype Deed = Arrived(input: Input) | Flushed(ops: seq<RecOp>, plan: Plan)

  /** The tables after the first k deeds. */
  function World(start: Tables, log: seq<Deed>, k: nat): Tables
    requires k <= |log|
  {
    if k == 0 then start
    else
      var before := World(start, log, k - 1);
      match log[k - 1]
      case Arrived(Send(_)) => before
      case Arrived(Act(other)) => Did(before, other)
      case Flushed(ops, plan) => FlushedBy(before, ops, plan)
  }

  function SendsOf(log: seq<Deed>, k: nat): seq<RecOp>
    requires k <= |log|
  {
    if k == 0 then []
    else SendsOf(log, k - 1) + if log[k - 1].Arrived? && log[k - 1].input.Send? then [log[k - 1].input.op] else []
  }

  function FlushesOf(log: seq<Deed>, k: nat): seq<RecOp>
    requires k <= |log|
  {
    if k == 0 then [] else FlushesOf(log, k - 1) + if log[k - 1].Flushed? then log[k - 1].ops else []
  }

  /** What the submitters of the flushed operations were told, in the same order. */
  function ToldOf(start: Tables, log: seq<Deed>, k: nat): (rs: seq<OpResult>)
    requires k <= |log|
    ensures |rs| == |FlushesOf(log, k)|
  {
    if k == 0 then []
    else ToldOf(start, log, k - 1)
         + if log[k - 1].Flushed? then ResultsBy(World(start, log, k - 1), log[k - 1].ops, log[k - 1].plan) else []
  }

  function InputsOf(log: seq<Deed>, k: nat): seq<Input>
    requires k <= |log|
  {
    if k == 0 then [] else InputsOf(log, k - 1) + if log[k - 1].Arrived? then [log[k - 1].input] else []
  }

  lemma {:induction false} LogPrefix(start: Tables, log: seq<Deed>, d: Deed, k: nat)
    requires k <= |log|
    ensures World(start, log + [d], k) == World(start, log, k)
    ensures SendsOf(log + [d], k) == SendsOf(log, k) && FlushesOf(log + [d], k) == FlushesOf(log, k)
    ensures ToldOf(start, log + [d], k) == ToldOf(start, log, k) && InputsOf(log + [d], k) == InputsOf(log, k)
  {
    hide FlushedBy, Did, ResultsBy;
    if k > 0 {
      LogPrefix(start, log, d, k - 1);
      assert (log + [d])[k - 1] == log[k - 1];
    }
  }

  /** Only operations that were sent are flushed, each once, in the order of their sending. */
  ghost predicate InOrder(log: seq<Deed>, k: nat)
    requires k <= |log|
  {
    forall i :: 0 <= i <= k ==> FlushesOf(log, i) <= SendsOf(log, i)
  }

  /** Every operation's claim had been handed out when the operation was sent. */
  ghost predicate Sound(start: Tables, log: seq<Deed>, k: nat)
    requires k <= |log|
  {
    forall i :: 0 <= i < k && log[i].Arrived? && log[i].input.Send? ==>
      HandedOut(World(start, log, i).jobs, [log[i].input.op])
  }

  /** Whoever got a report has its claim released on disk. */
  ghost predicate Honest(jobs: Jobs, ops: seq<RecOp>, results: seq<OpResult>) {
    && |ops| == |results|
    && forall i :: 0 <= i < |ops| && results[i].Reported? ==> Fencing.Released(jobs, ops[i].id, ops[i].epoch)
  }

  lemma StillHonest(before: Jobs, after: Jobs, ops: seq<RecOp>, results: seq<OpResult>)
    requires Honest(before, ops, results) && Preserves(before, after)
    ensures Honest(after, ops, results)
  {
    hide Fencing.Released;
  }

  /** One more flush resolves its batch honestly. */
  lemma FlushIsHonest(t: Tables, ops: seq<RecOp>, plan: Plan)
    requires HandedOut(t.jobs, ops)
    ensures Honest(FlushedBy(t, ops, plan).jobs, ops, ResultsBy(t, ops, plan))
  {
    hide Fencing.Released, FlushedBy, FlushFlag, Between;
    if plan.first.Committed? || plan.second.Committed? {
      ReportsAreDurable(t, ops, plan);
    }
  }

  lemma HonestSum(jobs: Jobs, a: seq<RecOp>, rs: seq<OpResult>, b: seq<RecOp>, ss: seq<OpResult>)
    requires Honest(jobs, a, rs) && Honest(jobs, b, ss)
    ensures Honest(jobs, a + b, rs + ss)
  {
    hide Fencing.Released;
  }

  lemma HandedOutPart(jobs: Jobs, ops: seq<RecOp>, done: seq<RecOp>, batch: seq<RecOp>)
    requires HandedOut(jobs, ops) && done + batch <= ops
    ensures HandedOut(jobs, batch)
  {
    forall i | 0 <= i < |batch| ensures batch[i].id in jobs && batch[i].epoch <= jobs[batch[i].id].epoch {
      assert batch[i] == ops[|done| + i];
    }
  }

  /** At every point of a log in which every operation was handed out when it was sent,
      everybody who has been told "recorded", applied or not, has the claim released on disk,
      whatever others wrote in the meantime and whatever the flushes' fates. */
  lemma {:induction false} LogIsHonest(start: Tables, log: seq<Deed>, k: nat)
    requires k <= |log| && Sound(start, log, k) && InOrder(log, k)
    ensures HandedOut(World(start, log, k).jobs, SendsOf(log, k))
    ensures Honest(World(start, log, k).jobs, FlushesOf(log, k), ToldOf(start, log, k))
  {
    hide Fencing.Released, FlushedBy, Did, ResultsBy, HandedOut, Honest, Preserves;
    if k == 0 {
      NothingToldYet(start.jobs);
    } else {
      LogIsHonest(start, log, k - 1);
      var t, t' := World(start, log, k - 1), World(start, log, k);
      var sends, done, told := SendsOf(log, k - 1), FlushesOf(log, k - 1), ToldOf(start, log, k - 1);
      assert sends + [] == sends && done + [] == done && told + [] == told;
      match log[k - 1] {
        case Arrived(Send(op)) =>
          assert log[k - 1].Arrived? && log[k - 1].input.Send?;
          OneMoreHandedOut(t.jobs, sends, op);
        case Arrived(Act(other)) =>
          DidPreserves(t, other);
          StillHandedOut(t.jobs, t'.jobs, sends);
          StillHonest(t.jobs, t'.jobs, done, told);
        case Flushed(ops, plan) =>
          assert FlushesOf(log, k) <= SendsOf(log, k);
          HandedOutPart(t.jobs, sends, done, ops);
          FlushedByPreserves(t, ops, plan);
          StillHandedOut(t.jobs, t'.jobs, sends);
          StillHonest(t.jobs, t'.jobs, done, told);
          FlushIsHonest(t, ops, plan);
          HonestSum(t'.jobs, done, told, ops, ResultsBy(t, ops, plan));
      }
    }
  }

  lemma NothingToldYet(jobs: Jobs)
    ensures HandedOut(jobs, []) && Honest(jobs, [], [])
  {
  }

  lemma OneMoreHandedOut(jobs: Jobs, ops: seq<RecOp>, op: RecOp)
    requires HandedOut(jobs, ops) && HandedOut(jobs, [op])
    ensures HandedOut(jobs, ops + [op])
  {
    assert [op][0] == op;
  }

  // ------------------------------------------------------------------ attempt rows

  /** Every row that is there is there afterwards, as it was. */
  ghost predicate Extends(before: Attempts, after: Attempts) {
    forall key :: key in before ==> key in after && after[key] == before[key]
  }

  lemma {:induction false} InsertsExtend(attempts: Attempts, ops: seq<RecOp>, k: nat)
    requires k <= |ops|
    ensures Extends(attempts, InsertAttempts(attempts, ops, k))
  {
    if k > 0 {
      InsertsExtend(attempts, ops, k - 1);
    }
  }

  lemma {:induction false} OthersExtend(t: Tables, others: seq<Other>, k: nat)
    requires k <= |others|
    ensures Extends(t.attempts, DidAll(t, others, k).attempts)
  {
    if k > 0 {
      OthersExtend(t, others, k - 1);
    }
  }

  /** Whatever is inserted, by whom and how often, an attempt row once written never changes:
      a dying worker and the reaper can both record an attempt, and the first is believed. */
  lemma {:induction false} FirstWriterWins(start: Tables, log: seq<Deed>, i: nat, k: nat)
    requires i <= k <= |log|
    ensures Extends(World(start, log, i).attempts, World(start, log, k).attempts)
    decreases k
  {
    hide FlushJobs, FlushEvents, DidAll, InsertAttempts;
    if i < k {
      FirstWriterWins(start, log, i, k - 1);
      var t := World(start, log, k - 1);
      if log[k - 1].Flushed? {
        FlushExtends(t, log[k - 1].ops, log[k - 1].plan);
      }
    }
  }

  lemma FlushExtends(t: Tables, ops: seq<RecOp>, plan: Plan)
    ensures Extends(t.attempts, FlushedBy(t, ops, plan).attempts)
  {
    hide FlushJobs, FlushEvents, DidAll, InsertAttempts;
    var middle := Transact(t, ops, plan.now, plan.join, plan.first);
    InsertsExtend(t.attempts, ops, |ops|);
    OthersExtend(middle, plan.between, |plan.between|);
    InsertsExtend(Between(t, ops, plan).attempts, ops, |ops|);
  }
}
