/** One claim, one runner, one outcome write: the runs of the protocol only ever give the
    batcher operations with distinct claims, each of which was handed out. */
module Ownership {
  import opened Job
  import opened Rows
  import opened Tables
  import opened Protocol
  import Budget
  import Batch

  /** A claim belongs to one runner, ... */
  ghost predicate OneRunner(s: State) {
    forall r, r' | r in s.fleet.runners && r' in s.fleet.runners && s.fleet.runners[r].pc.Working? ::
      s.fleet.runners[r'].pc == s.fleet.runners[r].pc ==> r == r'
  }

  /** ... has no write on its way while that runner is working, ... */
  ghost predicate NotYetWritten(s: State) {
    forall r, op | r in s.fleet.runners && op in s.fleet.ops && s.fleet.runners[r].pc.Working? ::
      op.grant != s.fleet.runners[r].pc.grant
  }

  /** ... and is written once. */
  ghost predicate WrittenOnce(s: State) {
    forall op, op' :: op in s.fleet.ops && op' in s.fleet.ops && op.grant == op'.grant ==> op == op'
  }

  ghost predicate Owners(s: State) {
    OneRunner(s) && NotYetWritten(s) && WrittenOnce(s)
  }

  /** A claim that wins is granted an epoch nobody held before. */
  lemma FreshGrant(s: State, a: Action)
    requires Budget.Inv(s) && Enabled(s, a) && a.ClaimJob? && Hits(s, a)
    ensures FleetAfter(s, a).runners[a.runner].pc.Working?
    ensures FleetAfter(s, a).runners[a.runner].pc.grant !in s.fleet.grants
  {
  }

  lemma WorkingIsGranted(s: State, r: ProcId)
    requires Budget.Inv(s) && r in s.fleet.runners && s.fleet.runners[r].pc.Working?
    ensures s.fleet.runners[r].pc.grant in s.fleet.grants
  {
    assert Budget.RunnerOk(s, s.fleet.runners[r]);
  }

  lemma OneRunnerStep(s: State, a: Action)
    requires Budget.Inv(s) && Owners(s) && Enabled(s, a)
    ensures OneRunner(Step(s, a))
  {
    if a.ClaimJob? && Hits(s, a) {
      FreshGrant(s, a);
      forall r | r in s.fleet.runners && s.fleet.runners[r].pc.Working?
        ensures s.fleet.runners[r].pc.grant in s.fleet.grants
      {
        WorkingIsGranted(s, r);
      }
    }
  }

  lemma NotYetWrittenStep(s: State, a: Action)
    requires Budget.Inv(s) && Owners(s) && Enabled(s, a)
    ensures NotYetWritten(Step(s, a))
  {
    if a.ClaimJob? && Hits(s, a) {
      FreshGrant(s, a);
    }
  }

  lemma WrittenOnceStep(s: State, a: Action)
    requires Budget.Inv(s) && Owners(s) && Enabled(s, a)
    ensures WrittenOnce(Step(s, a))
  {
  }

  lemma {:induction false} OwnersAt(cfg: Config, now: int, run: seq<Action>, k: nat)
    requires k <= |run|
    ensures Owners(StateAt(Init(cfg, now), run, k))
  {
    if k > 0 {
      OwnersAt(cfg, now, run, k - 1);
      Budget.InvAt(cfg, now, run, k - 1);
      var s := StateAt(Init(cfg, now), run, k - 1);
      if Enabled(s, run[k - 1]) {
        OneRunnerStep(s, run[k - 1]);
        NotYetWrittenStep(s, run[k - 1]);
        WrittenOnceStep(s, run[k - 1]);
      }
    }
  }

  /** The recorder operations made of submitted outcome writes. */
  predicate MadeOf(ops: seq<RecOp>, writes: seq<Op>) {
    && |ops| == |writes|
    && forall i :: 0 <= i < |ops| ==>
         ops[i].id == writes[i].grant.id && ops[i].epoch == writes[i].grant.epoch && ops[i].write == writes[i].write
  }

  /** Whatever the fleet has submitted, a batch of it meets the batcher's two conditions. */
  lemma BatchesAreDistinct(cfg: Config, now: int, run: seq<Action>, k: nat, ops: seq<RecOp>, writes: seq<Op>)
    requires k <= |run| && MadeOf(ops, writes)
    requires forall i :: 0 <= i < |writes| ==> writes[i] in StateAt(Init(cfg, now), run, k).fleet.ops
    requires forall i, j :: 0 <= i < j < |writes| ==> writes[i] != writes[j]
    ensures Batch.Distinct(ops) && Batch.HandedOut(StateAt(Init(cfg, now), run, k).jobs, ops)
  {
    var s := StateAt(Init(cfg, now), run, k);
    OwnersAt(cfg, now, run, k);
    Budget.InvAt(cfg, now, run, k);
    forall i | 0 <= i < |ops| ensures Budget.GrantOk(s.jobs, writes[i].grant) && writes[i].grant in s.fleet.grants {
      assert writes[i] in s.fleet.ops;
    }
  }
}
