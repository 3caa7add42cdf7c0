/** The write batcher against the simple recorder: the batched flush (one multi-row UPDATE
    for the completions, the other kinds one by one, then one attempts insert and one events
    insert) leaves the same tables as recording the operations one at a time, in any order,
    and flushing twice is harmless. */
module Batch {
  import opened Common
  import opened Job
  import opened Rows
  import opened Tables
  import Fencing

  // --------------------------------------------------------------- the simple recorder

  /** One SyncRecorder call: the fenced UPDATE, its event, the attempt row. */
  function SyncStep(t: Tables, op: RecOp, now: int): Tables {
    var stmt := OutcomeStmt(op, now);
    Tables(Exec(t.jobs, stmt), InsertAttempt(t.attempts, op.att), t.events + EventsOf(op, Applies(t.jobs, stmt)))
  }

  /** The first k operations, one at a time, in order. */
  function Sync(t: Tables, ops: seq<RecOp>, k: nat, now: int): Tables
    requires k <= |ops|
  {
    if k == 0 then t else SyncStep(Sync(t, ops, k - 1, now), ops[k - 1], now)
  }

  /** What SyncRecorder reported for operation k. */
  function SyncFlag(t: Tables, ops: seq<RecOp>, k: nat, now: int): bool
    requires k < |ops|
  {
    Applies(Sync(t, ops, k, now).jobs, OutcomeStmt(ops[k], now))
  }

  // ------------------------------------------------------------------ the batched flush

  /** The fence accepts this operation on this row. */
  predicate Accepts(id: JobId, r: Row, op: RecOp) {
    op.id == id && Open(r, op.epoch)
  }

  /** The completions among the first k operations that the fence of a row accepts. */
  function Candidates(id: JobId, r: Row, ops: seq<RecOp>, k: nat): (cs: seq<nat>)
    requires k <= |ops|
    ensures forall c :: c in cs <==> 0 <= c < k && ops[c].write.Complete? && Accepts(id, r, ops[c])
  {
    if k == 0 then []
    else
      Candidates(id, r, ops, k - 1) + if ops[k - 1].write.Complete? && Accepts(id, r, ops[k - 1]) then [k - 1] else []
  }

  /** Which of several matching completions a multi-row UPDATE joins to a row is for Postgres
      to choose, row by row: a join is any such choice. */
  type Join = JobId -> nat

  /** The completion joined to a row. */
  function JoinedCompletion(id: JobId, r: Row, ops: seq<RecOp>, join: Join): (joined: Option<nat>)
    ensures joined.Some? ==>
              joined.value < |ops| && ops[joined.value].write.Complete? && Accepts(id, r, ops[joined.value])
    ensures joined.None? ==> forall i :: 0 <= i < |ops| && ops[i].write.Complete? ==> !Accepts(id, r, ops[i])
  {
    var cs := Candidates(id, r, ops, |ops|);
    if cs == [] then None
    else
      assert cs[join(id) % |cs|] in cs;
      Some(cs[join(id) % |cs|])
  }

  lemma SomeCandidate(id: JobId, r: Row, ops: seq<RecOp>)
    requires Candidates(id, r, ops, |ops|) != []
    ensures exists i :: 0 <= i < |ops| && ops[i].write.Complete? && Accepts(id, r, ops[i])
  {
    hide Candidates, Accepts;
    var cs := Candidates(id, r, ops, |ops|);
    assert cs[0] in cs;
  }

  /** Every candidate is joined by some join. */
  lemma AnyCandidate(id: JobId, r: Row, ops: seq<RecOp>, c: nat) returns (join: Join)
    requires c in Candidates(id, r, ops, |ops|)
    ensures JoinedCompletion(id, r, ops, join) == Some(c)
  {
    hide Candidates, Accepts;
    var cs := Candidates(id, r, ops, |ops|);
    var at: nat :| at < |cs| && cs[at] == c;
    join := _ => at;
  }

  /** UPDATE jobs ... FROM unnest(...) v: every row is matched against the table as it was. */
  function CompleteAll(jobs: Jobs, ops: seq<RecOp>, now: int, join: Join): Jobs {
    map id | id in jobs ::
      var joined := JoinedCompletion(id, jobs[id], ops, join);
      if joined.None? then jobs[id] else Recorded(jobs[id], ops[joined.value].write, now)
  }

  /** The ids the multi-row UPDATE returned: whatever it chose, those with a match. */
  function CompletedIds(jobs: Jobs, ops: seq<RecOp>): set<JobId> {
    set id | id in jobs && Candidates(id, jobs[id], ops, |ops|) != []
  }

  /** The other kinds among the first k operations, individually. */
  function RecordOthers(jobs: Jobs, ops: seq<RecOp>, k: nat, now: int): Jobs
    requires k <= |ops|
  {
    if k == 0 then jobs
    else
      var before := RecordOthers(jobs, ops, k - 1, now);
      if ops[k - 1].write.Complete? then before else Exec(before, OutcomeStmt(ops[k - 1], now))
  }

  function FlushJobs(jobs: Jobs, ops: seq<RecOp>, now: int, join: Join): Jobs {
    RecordOthers(CompleteAll(jobs, ops, now, join), ops, |ops|, now)
  }

  /** What the flush reports for operation k. A completion is looked up by id alone. */
  function FlushFlag(jobs: Jobs, ops: seq<RecOp>, k: nat, now: int, join: Join): bool
    requires k < |ops|
  {
    if ops[k].write.Complete? then ops[k].id in CompletedIds(jobs, ops)
    else Applies(RecordOthers(CompleteAll(jobs, ops, now, join), ops, k, now), OutcomeStmt(ops[k], now))
  }

  function InsertAttempts(attempts: Attempts, ops: seq<RecOp>, k: nat): Attempts
    requires k <= |ops|
  {
    if k == 0 then attempts else InsertAttempt(InsertAttempts(attempts, ops, k - 1), ops[k - 1].att)
  }

  function FlushEvents(jobs: Jobs, ops: seq<RecOp>, k: nat, now: int, join: Join): seq<Event>
    requires k <= |ops|
  {
    if k == 0 then []
    else FlushEvents(jobs, ops, k - 1, now, join) + EventsOf(ops[k - 1], FlushFlag(jobs, ops, k - 1, now, join))
  }

  /** The tables after one committed flushOnce. */
  function Flush(t: Tables, ops: seq<RecOp>, now: int, join: Join): Tables {
    Tables(FlushJobs(t.jobs, ops, now, join), InsertAttempts(t.attempts, ops, |ops|),
           t.events + FlushEvents(t.jobs, ops, |ops|, now, join))
  }

  // ------------------------------------------------------- both forms, row by row

  /** The first operation of any kind the fence of this row accepts. */
  function FirstAccepted(id: JobId, r: Row, ops: seq<RecOp>, k: nat): Option<nat>
    requires k <= |ops|
    ensures FirstAccepted(id, r, ops, k).Some? ==>
              FirstAccepted(id, r, ops, k).value < k && Accepts(id, r, ops[FirstAccepted(id, r, ops, k).value])
    ensures FirstAccepted(id, r, ops, k).None? ==> forall i :: 0 <= i < k ==> !Accepts(id, r, ops[i])
  {
    if k == 0 then None
    else
      var earlier := FirstAccepted(id, r, ops, k - 1);
      if earlier.Some? then earlier else if Accepts(id, r, ops[k - 1]) then Some(k - 1) else None
  }

  function RowAfter(id: JobId, r: Row, ops: seq<RecOp>, winner: Option<nat>, now: int): Row
    requires winner.Some? ==> winner.value < |ops|
  {
    if winner.None? then r else Recorded(r, ops[winner.value].write, now)
  }

  /** Recording one at a time, the first accepted operation decides a row, and an accepted
      operation shuts the fence on all that follow. */
  lemma {:induction false} SyncRow(t: Tables, ops: seq<RecOp>, k: nat, now: int, id: JobId)
    requires k <= |ops|
    ensures Sync(t, ops, k, now).jobs.Keys == t.jobs.Keys
    ensures id in t.jobs ==>
              Sync(t, ops, k, now).jobs[id] == RowAfter(id, t.jobs[id], ops, FirstAccepted(id, t.jobs[id], ops, k), now)
  {
    if k > 0 {
      hide Exec, Applies, Recorded;
      SyncRow(t, ops, k - 1, now, id);
      RecordRow(Sync(t, ops, k - 1, now).jobs, ops[k - 1], now, id);
      if id in t.jobs && FirstAccepted(id, t.jobs[id], ops, k - 1).Some? {
        RecordedIsShut(t.jobs[id], ops[FirstAccepted(id, t.jobs[id], ops, k - 1).value].write, now);
      }
    }
  }

  /** One outcome write, row by row. */
  lemma RecordRow(jobs: Jobs, op: RecOp, now: int, id: JobId)
    ensures var jobs' := Exec(jobs, OutcomeStmt(op, now));
            jobs'.Keys == jobs.Keys
            && (id in jobs ==> jobs'[id] == if Accepts(id, jobs[id], op) then Recorded(jobs[id], op.write, now) else jobs[id])
  {
  }

  lemma RecordedIsShut(r: Row, w: Write, now: int)
    ensures Recorded(r, w, now).status != Running && Recorded(r, w, now).epoch == r.epoch
  {
  }

  /** The first non-completion the fence of this row accepts. */
  function FirstOther(id: JobId, r: Row, ops: seq<RecOp>, k: nat): Option<nat>
    requires k <= |ops|
    ensures FirstOther(id, r, ops, k).Some? ==>
              FirstOther(id, r, ops, k).value < k && Accepts(id, r, ops[FirstOther(id, r, ops, k).value])
              && !ops[FirstOther(id, r, ops, k).value].write.Complete?
    ensures FirstOther(id, r, ops, k).None? ==>
              forall i :: 0 <= i < k && !ops[i].write.Complete? ==> !Accepts(id, r, ops[i])
  {
    if k == 0 then None
    else
      var earlier := FirstOther(id, r, ops, k - 1);
      if earlier.Some? then earlier
      else if !ops[k - 1].write.Complete? && Accepts(id, r, ops[k - 1]) then Some(k - 1) else None
  }

  lemma {:induction false} OthersRow(jobs: Jobs, ops: seq<RecOp>, k: nat, now: int, id: JobId)
    requires k <= |ops|
    ensures RecordOthers(jobs, ops, k, now).Keys == jobs.Keys
    ensures id in jobs ==>
              RecordOthers(jobs, ops, k, now)[id] == RowAfter(id, jobs[id], ops, FirstOther(id, jobs[id], ops, k), now)
  {
    if k > 0 {
      OthersRow(jobs, ops, k - 1, now, id);
    }
  }

  /** What decides a row in the flush: the joined completion if there is one, otherwise the
      first accepted operation of another kind. */
  function FlushWinner(id: JobId, r: Row, ops: seq<RecOp>, join: Join): (winner: Option<nat>)
    ensures winner.Some? ==> winner.value < |ops| && Accepts(id, r, ops[winner.value])
    ensures winner.None? ==> forall i :: 0 <= i < |ops| ==> !Accepts(id, r, ops[i])
  {
    var joined := JoinedCompletion(id, r, ops, join);
    if joined.Some? then joined else FirstOther(id, r, ops, |ops|)
  }

  lemma FlushRow(jobs: Jobs, ops: seq<RecOp>, now: int, join: Join, id: JobId)
    ensures FlushJobs(jobs, ops, now, join).Keys == jobs.Keys
    ensures id in jobs ==>
              FlushJobs(jobs, ops, now, join)[id] == RowAfter(id, jobs[id], ops, FlushWinner(id, jobs[id], ops, join), now)
  {
    OthersRow(CompleteAll(jobs, ops, now, join), ops, |ops|, now, id);
  }

  // ------------------------------------------------------------------ the refinement

  /** No two operations of the batch carry the same claim. */
  ghost predicate Distinct(ops: seq<RecOp>) {
    forall i, j :: 0 <= i < j < |ops| && ops[i].id == ops[j].id ==> ops[i].epoch != ops[j].epoch
  }

  /** A completion overtakes an earlier operation of another kind on the same open claim. */
  ghost predicate Overtakes(jobs: Jobs, ops: seq<RecOp>, id: JobId) {
    && id in jobs
    && Candidates(id, jobs[id], ops, |ops|) != []
    && FirstAccepted(id, jobs[id], ops, |ops|).Some?
    && !ops[FirstAccepted(id, jobs[id], ops, |ops|).value].write.Complete?
  }

  /** Two completions with different results carry the same open claim. */
  ghost predicate Ambiguous(jobs: Jobs, ops: seq<RecOp>, id: JobId) {
    && id in jobs
    && exists i, j :: i in Candidates(id, jobs[id], ops, |ops|) && j in Candidates(id, jobs[id], ops, |ops|)
                      && ops[i].write != ops[j].write
  }

  /** Row by row: whatever the join, the flush writes what the simple recorder writes, exactly
      if the row is neither overtaken nor ambiguous. */
  lemma FlushRowRefines(t: Tables, ops: seq<RecOp>, now: int, join: Join, id: JobId)
    requires id in t.jobs && !Overtakes(t.jobs, ops, id) && !Ambiguous(t.jobs, ops, id)
    ensures id in FlushJobs(t.jobs, ops, now, join) && id in Sync(t, ops, |ops|, now).jobs
    ensures FlushJobs(t.jobs, ops, now, join)[id] == Sync(t, ops, |ops|, now).jobs[id]
  {
    var r := t.jobs[id];
    FlushRow(t.jobs, ops, now, join, id);
    SyncRow(t, ops, |ops|, now, id);
    FirstOtherIsFirst(id, r, ops, |ops|);
    var joined, first := JoinedCompletion(id, r, ops, join), FirstAccepted(id, r, ops, |ops|);
    if joined.Some? {
      assert joined.value in Candidates(id, r, ops, |ops|);
      assert first.value in Candidates(id, r, ops, |ops|);
    }
  }

  /** Otherwise some join writes something else. */
  lemma FlushRowDiffers(t: Tables, ops: seq<RecOp>, now: int, id: JobId) returns (join: Join)
    requires Overtakes(t.jobs, ops, id) || Ambiguous(t.jobs, ops, id)
    ensures FlushJobs(t.jobs, ops, now, join) != Sync(t, ops, |ops|, now).jobs
  {
    hide FirstAccepted, Recorded, FlushJobs, Sync;
    var r := t.jobs[id];
    var cs := Candidates(id, r, ops, |ops|);
    var first := FirstAccepted(id, r, ops, |ops|);
    SyncRow(t, ops, |ops|, now, id);
    assert cs != [];
    SomeCandidate(id, r, ops);
    var c := cs[0];
    if !Overtakes(t.jobs, ops, id) {
      var i, j :| i in cs && j in cs && ops[i].write != ops[j].write;
      c := if ops[i].write != ops[first.value].write then i else j;
    }
    assert c in cs && ops[c].write.Complete? && ops[c].write != ops[first.value].write;
    join := AnyCandidate(id, r, ops, c);
    FlushRow(t.jobs, ops, now, join, id);
    RecordedTells(r, ops[c].write, ops[first.value].write, now);
  }

  /** Two outcome writes that leave the same row are the same write, one of them being a
      completion. */
  lemma RecordedTells(r: Row, w: Write, w': Write, now: int)
    requires w.Complete? && w != w'
    ensures Recorded(r, w, now) != Recorded(r, w', now)
  {
  }

  lemma {:induction false} FirstOtherIsFirst(id: JobId, r: Row, ops: seq<RecOp>, k: nat)
    requires k <= |ops|
    ensures var first := FirstAccepted(id, r, ops, k);
            && (first.Some? && !ops[first.value].write.Complete? ==> FirstOther(id, r, ops, k) == first)
            && (first.None? ==> FirstOther(id, r, ops, k).None?)
  {
    if k > 0 {
      FirstOtherIsFirst(id, r, ops, k - 1);
    }
  }

  /** For every batch, exactly: whatever Postgres joins, the flush leaves the jobs table of the
      simple recorder, if and only if no completion overtakes another kind of operation on the
      same open claim and no two different completions carry the same open claim. */
  lemma FlushJobsRefinesExactly(t: Tables, ops: seq<RecOp>, now: int)
    ensures (forall join :: FlushJobs(t.jobs, ops, now, join) == Sync(t, ops, |ops|, now).jobs)
            <==> forall id :: id in t.jobs ==> !Overtakes(t.jobs, ops, id) && !Ambiguous(t.jobs, ops, id)
  {
    if id :| id in t.jobs && (Overtakes(t.jobs, ops, id) || Ambiguous(t.jobs, ops, id)) {
      var join := FlushRowDiffers(t, ops, now, id);
    } else {
      forall join ensures FlushJobs(t.jobs, ops, now, join) == Sync(t, ops, |ops|, now).jobs {
        FlushJobsRefines(t, ops, now, join);
      }
    }
  }

  lemma FlushJobsRefines(t: Tables, ops: seq<RecOp>, now: int, join: Join)
    requires forall id :: id in t.jobs ==> !Overtakes(t.jobs, ops, id) && !Ambiguous(t.jobs, ops, id)
    ensures FlushJobs(t.jobs, ops, now, join) == Sync(t, ops, |ops|, now).jobs
  {
    hide Overtakes, Ambiguous;
    FlushRow(t.jobs, ops, now, join, 0);
    SyncRow(t, ops, |ops|, now, 0);
    var flushed, synced := FlushJobs(t.jobs, ops, now, join), Sync(t, ops, |ops|, now).jobs;
    forall id | id in t.jobs ensures flushed[id] == synced[id] {
      FlushRowRefines(t, ops, now, join, id);
    }
    assert flushed == synced;
  }

  /** With distinct claims, an operation applies exactly if its fence was open at the start. */
  predicate OpenAtStart(jobs: Jobs, op: RecOp) {
    op.id in jobs && Open(jobs[op.id], op.epoch)
  }

  lemma SyncFlagIsOpen(t: Tables, ops: seq<RecOp>, k: nat, now: int)
    requires k < |ops| && Distinct(ops)
    ensures SyncFlag(t, ops, k, now) <==> OpenAtStart(t.jobs, ops[k])
  {
    SyncRow(t, ops, k, now, ops[k].id);
  }

  lemma OtherFlagIsOpen(jobs: Jobs, ops: seq<RecOp>, k: nat, now: int, join: Join)
    requires k < |ops| && Distinct(ops) && !ops[k].write.Complete?
    ensures FlushFlag(jobs, ops, k, now, join) <==> OpenAtStart(jobs, ops[k])
  {
    hide Recorded, Candidates, RecordOthers, CompleteAll;
    var id := ops[k].id;
    var mid := CompleteAll(jobs, ops, now, join);
    OthersRow(mid, ops, k, now, id);
    CompletedRow(jobs, ops, now, join, id);
    if id in mid {
      var other := FirstOther(id, mid[id], ops, k);
      if other.Some? {
        RecordedIsShut(mid[id], ops[other.value].write, now);
      }
    }
  }

  /** One row of the multi-row UPDATE: shut by a completion of its open claim, or untouched. */
  lemma CompletedRow(jobs: Jobs, ops: seq<RecOp>, now: int, join: Join, id: JobId)
    ensures CompleteAll(jobs, ops, now, join).Keys == jobs.Keys
    ensures id in jobs ==>
              var r' := CompleteAll(jobs, ops, now, join)[id];
              r' == jobs[id]
              || (r'.status != Running && exists i :: 0 <= i < |ops| && ops[i].write.Complete? && Accepts(id, jobs[id], ops[i]))
  {
  }

  lemma EventsAgree(t: Tables, ops: seq<RecOp>, k: nat, now: int, join: Join)
    requires k < |ops| && Distinct(ops)
    ensures EventsOf(ops[k], SyncFlag(t, ops, k, now)) == EventsOf(ops[k], FlushFlag(t.jobs, ops, k, now, join))
  {
    if !ops[k].write.Complete? {
      SyncFlagIsOpen(t, ops, k, now);
      OtherFlagIsOpen(t.jobs, ops, k, now, join);
    }
  }

  lemma {:induction false} SyncParts(t: Tables, ops: seq<RecOp>, k: nat, now: int, join: Join)
    requires k <= |ops| && Distinct(ops)
    ensures Sync(t, ops, k, now).attempts == InsertAttempts(t.attempts, ops, k)
    ensures Sync(t, ops, k, now).events == t.events + FlushEvents(t.jobs, ops, k, now, join)
  {
    hide FlushFlag, EventsOf, Applies, Exec;
    if k > 0 {
      SyncParts(t, ops, k - 1, now, join);
      EventsAgree(t, ops, k - 1, now, join);
      assert Sync(t, ops, k, now).events
          == Sync(t, ops, k - 1, now).events + EventsOf(ops[k - 1], SyncFlag(t, ops, k - 1, now));
    }
  }

  lemma DistinctIsClear(jobs: Jobs, ops: seq<RecOp>, id: JobId)
    requires Distinct(ops)
    ensures !Overtakes(jobs, ops, id) && !Ambiguous(jobs, ops, id)
  {
    if Overtakes(jobs, ops, id) {
      SomeCandidate(id, jobs[id], ops);
      assert false;
    }
  }

  /** The batched flush leaves exactly the tables of the simple recorder: the same jobs, the
      same attempt rows, the same events in the same order. */
  lemma FlushRefinesSync(t: Tables, ops: seq<RecOp>, now: int, join: Join)
    requires Distinct(ops)
    ensures Flush(t, ops, now, join) == Sync(t, ops, |ops|, now)
  {
    forall id | id in t.jobs ensures !Overtakes(t.jobs, ops, id) && !Ambiguous(t.jobs, ops, id) {
      DistinctIsClear(t.jobs, ops, id);
    }
    FlushJobsRefines(t, ops, now, join);
    SyncParts(t, ops, |ops|, now, join);
  }

  /** The jobs table does not depend on the order of the batch. */
  lemma FlushIgnoresOrder(jobs: Jobs, ops: seq<RecOp>, ops': seq<RecOp>, now: int, join: Join, join': Join)
    requires Distinct(ops) && multiset(ops) == multiset(ops')
    ensures FlushJobs(jobs, ops, now, join) == FlushJobs(jobs, ops', now, join')
  {
    assert forall op :: op in ops <==> op in multiset(ops);
    assert forall op :: op in ops' <==> op in multiset(ops');
    FlushRow(jobs, ops, now, join, 0);
    FlushRow(jobs, ops', now, join', 0);
    var flushed, flushed' := FlushJobs(jobs, ops, now, join), FlushJobs(jobs, ops', now, join');
    forall id | id in jobs ensures flushed[id] == flushed'[id] {
      FlushRow(jobs, ops, now, join, id);
      FlushRow(jobs, ops', now, join', id);
      WinnersAgree(id, jobs[id], ops, ops', join, join');
    }
  }

  lemma WinnersAgree(id: JobId, r: Row, ops: seq<RecOp>, ops': seq<RecOp>, join: Join, join': Join)
    requires Distinct(ops) && forall op :: op in ops <==> op in ops'
    ensures var w, w' := FlushWinner(id, r, ops, join), FlushWinner(id, r, ops', join');
            (w.None? <==> w'.None?) && (w.Some? ==> ops[w.value] == ops'[w'.value])
  {
    hide FlushWinner;
    var w, w' := FlushWinner(id, r, ops, join), FlushWinner(id, r, ops', join');
    if w.Some? {
      assert ops[w.value] in ops';
    }
    if w'.Some? {
      assert ops'[w'.value] in ops;
    }
  }

  /** What the flush reports for a completion: whether any completion of its job matched. */
  lemma CompletionFlag(jobs: Jobs, ops: seq<RecOp>, k: nat, now: int, join: Join)
    requires k < |ops| && ops[k].write.Complete?
    ensures FlushFlag(jobs, ops, k, now, join)
            <==> exists i :: 0 <= i < |ops| && ops[i].write.Complete? && ops[i].id == ops[k].id && OpenAtStart(jobs, ops[i])
  {
    var id := ops[k].id;
    if id in jobs {
      var cs := Candidates(id, jobs[id], ops, |ops|);
      if cs != [] {
        assert cs[0] in cs;
      } else {
        assert forall i :: 0 <= i < |ops| && ops[i].write.Complete? ==> i !in cs;
      }
    }
  }

  /** The reported flags agree too, except where okIDs, which is keyed on the id alone,
      credits a stale completion with a live completion of the same job. */
  lemma FlagsAgreeExactly(t: Tables, ops: seq<RecOp>, now: int, join: Join)
    requires Distinct(ops)
    ensures (forall k :: 0 <= k < |ops| ==> FlushFlag(t.jobs, ops, k, now, join) == SyncFlag(t, ops, k, now))
            <==> !exists i, j :: 0 <= i < |ops| && 0 <= j < |ops| && i != j && ops[i].id == ops[j].id
                   && ops[i].write.Complete? && ops[j].write.Complete? && OpenAtStart(t.jobs, ops[i])
  {
    hide FlushFlag, SyncFlag;
    forall k | 0 <= k < |ops| ensures SyncFlag(t, ops, k, now) <==> OpenAtStart(t.jobs, ops[k]) {
      SyncFlagIsOpen(t, ops, k, now);
    }
    forall k | 0 <= k < |ops| && !ops[k].write.Complete? ensures FlushFlag(t.jobs, ops, k, now, join) <==> OpenAtStart(t.jobs, ops[k]) {
      OtherFlagIsOpen(t.jobs, ops, k, now, join);
    }
    if i, j :| 0 <= i < |ops| && 0 <= j < |ops| && i != j && ops[i].id == ops[j].id
               && ops[i].write.Complete? && ops[j].write.Complete? && OpenAtStart(t.jobs, ops[i]) {
      CompletionFlag(t.jobs, ops, j, now, join);
      assert FlushFlag(t.jobs, ops, j, now, join) != SyncFlag(t, ops, j, now);
    } else {
      forall k | 0 <= k < |ops| && ops[k].write.Complete?
        ensures FlushFlag(t.jobs, ops, k, now, join) == SyncFlag(t, ops, k, now)
      {
        CompletionFlag(t.jobs, ops, k, now, join);
      }
    }
  }

  // ------------------------------------------------------------------ the replay

  /** Every operation comes from a claim that was handed out. */
  ghost predicate HandedOut(jobs: Jobs, ops: seq<RecOp>) {
    forall i :: 0 <= i < |ops| ==> ops[i].id in jobs && ops[i].epoch <= jobs[ops[i].id].epoch
  }

  lemma FlushReleases(jobs: Jobs, ops: seq<RecOp>, now: int, join: Join, i: nat)
    requires i < |ops| && HandedOut(jobs, ops)
    ensures Fencing.Released(FlushJobs(jobs, ops, now, join), ops[i].id, ops[i].epoch)
  {
    hide FlushJobs, FlushWinner, Recorded;
    var id := ops[i].id;
    FlushRow(jobs, ops, now, join, id);
    var winner := FlushWinner(id, jobs[id], ops, join);
    if winner.Some? {
      RecordedIsShut(jobs[id], ops[winner.value].write, now);
    }
  }

  ghost predicate AllReleased(jobs: Jobs, ops: seq<RecOp>) {
    forall i :: 0 <= i < |ops| ==> Fencing.Released(jobs, ops[i].id, ops[i].epoch)
  }

  ghost predicate AttemptsPresent(attempts: Attempts, ops: seq<RecOp>) {
    forall i :: 0 <= i < |ops| ==> (ops[i].att.job, ops[i].att.attempt) in attempts
  }

  lemma {:induction false} ReplayOthers(jobs: Jobs, ops: seq<RecOp>, k: nat, now: int)
    requires k <= |ops| && AllReleased(jobs, ops)
    ensures RecordOthers(jobs, ops, k, now) == jobs
  {
    if k > 0 {
      ReplayOthers(jobs, ops, k - 1, now);
      assert Fencing.Released(jobs, ops[k - 1].id, ops[k - 1].epoch);
    }
  }

  lemma ReplayCompletes(jobs: Jobs, ops: seq<RecOp>, now: int, join: Join)
    requires AllReleased(jobs, ops)
    ensures CompleteAll(jobs, ops, now, join) == jobs && CompletedIds(jobs, ops) == {}
  {
    forall id | id in jobs ensures Candidates(id, jobs[id], ops, |ops|) == [] {
      NoCandidates(jobs, ops, id);
    }
  }

  lemma NoCandidates(jobs: Jobs, ops: seq<RecOp>, id: JobId)
    requires AllReleased(jobs, ops) && id in jobs
    ensures Candidates(id, jobs[id], ops, |ops|) == []
  {
    forall i | 0 <= i < |ops| ensures !Accepts(id, jobs[id], ops[i]) {
      assert Fencing.Released(jobs, ops[i].id, ops[i].epoch);
    }
    if Candidates(id, jobs[id], ops, |ops|) != [] {
      SomeCandidate(id, jobs[id], ops);
      assert false;
    }
  }

  lemma ReplayFlag(jobs: Jobs, ops: seq<RecOp>, k: nat, now: int, join: Join)
    requires k < |ops| && AllReleased(jobs, ops)
    ensures !FlushFlag(jobs, ops, k, now, join)
  {
    ReplayCompletes(jobs, ops, now, join);
    ReplayOthers(jobs, ops, k, now);
    assert Fencing.Released(jobs, ops[k].id, ops[k].epoch);
  }

  lemma {:induction false} ReplayEvents(jobs: Jobs, ops: seq<RecOp>, k: nat, now: int, join: Join)
    requires k <= |ops| && AllReleased(jobs, ops)
    ensures FlushEvents(jobs, ops, k, now, join) == []
  {
    hide FlushFlag, AllReleased;
    if k > 0 {
      ReplayEvents(jobs, ops, k - 1, now, join);
      ReplayFlag(jobs, ops, k - 1, now, join);
    }
  }

  lemma {:induction false} ReplayAttempts(attempts: Attempts, ops: seq<RecOp>, k: nat)
    requires k <= |ops| && AttemptsPresent(attempts, ops)
    ensures InsertAttempts(attempts, ops, k) == attempts
  {
    if k > 0 {
      ReplayAttempts(attempts, ops, k - 1);
    }
  }

  lemma {:induction false} AttemptsInserted(attempts: Attempts, ops: seq<RecOp>, k: nat)
    requires k <= |ops|
    ensures attempts.Keys <= InsertAttempts(attempts, ops, k).Keys
    ensures forall i :: 0 <= i < k ==> (ops[i].att.job, ops[i].att.attempt) in InsertAttempts(attempts, ops, k)
  {
    if k > 0 {
      AttemptsInserted(attempts, ops, k - 1);
    }
  }

  lemma SettledReplay(t: Tables, ops: seq<RecOp>, now: int, join: Join)
    requires AllReleased(t.jobs, ops) && AttemptsPresent(t.attempts, ops)
    ensures Flush(t, ops, now, join) == t
    ensures forall k :: 0 <= k < |ops| ==> !FlushFlag(t.jobs, ops, k, now, join)
  {
    ReplayCompletes(t.jobs, ops, now, join);
    ReplayOthers(t.jobs, ops, |ops|, now);
    ReplayEvents(t.jobs, ops, |ops|, now, join);
    ReplayAttempts(t.attempts, ops, |ops|);
    forall k | 0 <= k < |ops| ensures !FlushFlag(t.jobs, ops, k, now, join) {
      ReplayFlag(t.jobs, ops, k, now, join);
    }
  }

  /** Retrying after an ambiguous commit is harmless: when the first flush did land, a second
      flush of the same operations, after any statements of anybody in between (and any
      attempt rows and events they added), changes no job row, overwrites no attempt row,
      adds no event, and reports every operation as not applied. */
  lemma ReplayIsHarmless(t: Tables, ops: seq<RecOp>, now: int, join: Join, between: seq<Timed>, t': Tables, later: int, join': Join)
    requires HandedOut(t.jobs, ops)
    requires t'.jobs == TableFrom(Flush(t, ops, now, join).jobs, between, |between|)
    requires Flush(t, ops, now, join).attempts.Keys <= t'.attempts.Keys
    ensures Flush(t', ops, later, join') == t'
    ensures forall k :: 0 <= k < |ops| ==> !FlushFlag(t'.jobs, ops, k, later, join')
  {
    var flushed := FlushJobs(t.jobs, ops, now, join);
    forall i | 0 <= i < |ops| ensures Fencing.Released(t'.jobs, ops[i].id, ops[i].epoch) {
      FlushReleases(t.jobs, ops, now, join, i);
      Fencing.ReleasedForever(flushed, between, ops[i].id, ops[i].epoch, 0, |between|);
    }
    AttemptsInserted(t.attempts, ops, |ops|);
    SettledReplay(t', ops, later, join');
  }
}
