/** Untimely interleavings do strand a job: concrete runs, one per excluded write, and one in
    which the write that comes late does no harm but the next, ordinary one does. */
module Stranding {
  import opened Common
  import opened Job
  import opened Rows
  import opened Outcomes
  import opened Protocol
  import opened Delivery

  const CFG := Config(30, 60, 30)
  const SPEC := Spec("bench.sleep", "default", Default, "null", None)
  const BROKEN: Error := Some([Context("dependency down")])
  const FIRST := NewEnvelope(1, SPEC, 1, 0)
  const SECOND := NewEnvelope(1, SPEC, 2, 0)

  // --------------------------------------------------- one failing attempt, step by step

  function GrantFor(id: JobId, r: Row): Grant {
    Grant(id, r.epoch + 1, r.attempts + 1, r.maxAttempts)
  }

  /** The write the attempt ends in. */
  function FailureWrite(r: Row): Write {
    if r.attempts + 1 >= r.maxAttempts then Dead("down") else Retry("down", 0)
  }

  function Claimed(r: Row, now: int, id: JobId): Row {
    Updated(r, At(now, Claim(id, 7, 30)))
  }

  /** Fetch, claim, fail, record, confirm: the five steps of one failing attempt. */
  function Attempt(runner: ProcId, e: EntryId, op: Op): seq<Action> {
    [Fetch(runner, e), ClaimJob(runner, 7, 30), Finish(runner, BROKEN, None, "null", "down", 0), Land(op),
     Confirm(runner, true)]
  }

  lemma ClaimSteps(s: State, r: ProcId, e: EntryId)
    requires r !in s.fleet.runners && e in s.redis.stream && e !in s.redis.pel
    requires s.redis.stream[e].id in s.jobs && Claimable(s.jobs[s.redis.stream[e].id].status)
    ensures var env := s.redis.stream[e];
            var row := s.jobs[env.id];
            var s' := Step(Step(s, Fetch(r, e)), ClaimJob(r, 7, 30));
            && s'.jobs == s.jobs[env.id := Claimed(row, s.now, env.id)]
            && s'.redis == s.redis.Hold(e, s.now).Decide(e) && s'.chores == s.chores && s'.now == s.now
            && s'.fleet.runners == s.fleet.runners[r := Runner(e, env, Working(GrantFor(env.id, row)))]
  {
    var s1 := Step(s, Fetch(r, e));
    assert s1.fleet.runners[r] == Runner(e, s.redis.stream[e], Fetched);
    assert Enabled(s1, ClaimJob(r, 7, 30)) && Hits(s1, ClaimJob(r, 7, 30));
  }

  lemma FinishStep(s: State, r: ProcId, g: Grant, w: Write)
    requires r in s.fleet.runners && s.fleet.runners[r].pc == Working(g)
    requires w == if g.attempt >= g.maxAttempts then Dead("down") else Retry("down", 0)
    ensures var s' := Step(s, Finish(r, BROKEN, None, "null", "down", 0));
            && s'.jobs == s.jobs && s'.redis == s.redis && s'.chores == s.chores && s'.now == s.now
            && s'.fleet == s.fleet.At(r, Waiting(Op(g, w))).(ops := s.fleet.ops + {Op(g, w)})
  {
    assert FinishOutcome(BROKEN, None) == OutcomeRetryable;
  }

  lemma LandStep(s: State, op: Op)
    requires op in s.fleet.ops && op.grant.id in s.jobs && Open(s.jobs[op.grant.id], op.grant.epoch)
    ensures var s' := Step(s, Land(op));
            && s'.jobs == s.jobs[op.grant.id := Recorded(s.jobs[op.grant.id], op.write, s.now)]
            && s'.redis == s.redis && s'.chores == s.chores && s'.now == s.now
            && s'.fleet.runners == s.fleet.runners && op in s'.fleet.landed && op in s'.fleet.applied
  {
  }

  lemma ConfirmStep(s: State, r: ProcId, op: Op)
    requires r in s.fleet.runners && s.fleet.runners[r].pc == Waiting(op)
    requires op in s.fleet.landed && op in s.fleet.applied
    ensures var s' := Step(s, Confirm(r, true));
            && s'.jobs == s.jobs && s'.redis == s.redis && s'.chores == s.chores && s'.now == s.now
            && s'.fleet.runners == s.fleet.At(r, if op.write.Retry?
                 then HandingOff(op.grant, s.fleet.runners[r].env.(attempt := op.grant.attempt + 1), op.write.nextAt)
                 else Acking(Some(op.grant))).runners
  {
  }

  function FiveSteps(s: State, acts: seq<Action>): State
    requires |acts| == 5
  {
    Step(Step(Step(Step(Step(s, acts[0]), acts[1]), acts[2]), acts[3]), acts[4])
  }

  /** After the attempt the row is parked or dead, and the delivery is decided. */
  lemma AttemptSteps(s: State, r: ProcId, e: EntryId, op: Op)
    requires r !in s.fleet.runners && e in s.redis.stream && e !in s.redis.pel
    requires s.redis.stream[e].id in s.jobs && Claimable(s.jobs[s.redis.stream[e].id].status)
    requires var id := s.redis.stream[e].id; op == Op(GrantFor(id, s.jobs[id]), FailureWrite(s.jobs[id]))
    ensures var env := s.redis.stream[e];
            var row := s.jobs[env.id];
            var s' := FiveSteps(s, Attempt(r, e, op));
            && s'.jobs == s.jobs[env.id := Recorded(Claimed(row, s.now, env.id), op.write, s.now)]
            && s'.redis == s.redis.Hold(e, s.now).Decide(e) && s'.chores == s.chores && s'.now == s.now
            && s'.fleet.runners == s.fleet.runners[r := Runner(e, env, if op.write.Retry?
                 then HandingOff(op.grant, env.(attempt := op.grant.attempt + 1), 0) else Acking(Some(op.grant)))]
  {
    hide Step;
    ClaimSteps(s, r, e);
    var s2 := Step(Step(s, Fetch(r, e)), ClaimJob(r, 7, 30));
    FinishStep(s2, r, op.grant, op.write);
    var s3 := Step(s2, Finish(r, BROKEN, None, "null", "down", 0));
    LandStep(s3, op);
    ConfirmStep(Step(s3, Land(op)), r, op);
  }

  /** The same five steps inside a run. */
  lemma AttemptInRun(s0: State, run: seq<Action>, k: nat, r: ProcId, e: EntryId, op: Op)
    requires k + 5 <= |run| && run[k..k + 5] == Attempt(r, e, op)
    ensures StateAt(s0, run, k + 5) == FiveSteps(StateAt(s0, run, k), Attempt(r, e, op))
  {
    hide Step;
    var acts := run[k..k + 5];
    assert acts[0] == run[k] && acts[1] == run[k + 1] && acts[2] == run[k + 2]
        && acts[3] == run[k + 3] && acts[4] == run[k + 4];
    assert StateAt(s0, run, k + 2) == Step(Step(StateAt(s0, run, k), run[k]), run[k + 1]);
    assert StateAt(s0, run, k + 4) == Step(Step(StateAt(s0, run, k + 2), run[k + 2]), run[k + 3]);
  }

  // ------------------------------------------------------------------ the late receipt

  /** The submit's receipt is still on its way when the job dies and is requeued, and the
      requeue's own enqueue is lost. */
  function LateReceiptRun(): seq<Action> {
    [Submit(1, SPEC, 1, None), Enqueue(Todo(FIRST, Some(0), false))]
    + Attempt(0, 0, Op(Grant(1, 1, 1, 1), Dead("down")))
    + [Ack(0), RequeueDead(1), SetEnqueuedLate(Receipt(1, InStream(0)))]
  }

  /** Submit and enqueue leave one ready entry and an outstanding receipt. */
  lemma Opening(ma: int)
    requires 1 <= ma <= 3
    ensures var s := Step(Step(Init(CFG, 0), Submit(1, SPEC, ma, None)), Enqueue(Todo(FIRST, Some(0), false)));
            && s.jobs == map[1 := Fresh(SPEC, ma, 0, 0)] && s.now == 0
            && s.redis == Redis(map[0 := FIRST], map[], map[], 1, {}, {1})
            && s.fleet.runners == map[]
            && s.chores == Chores(map[], multiset{}, multiset{}, {Receipt(1, InStream(0))}, {}, {})
  {
    var s1 := Step(Init(CFG, 0), Submit(1, SPEC, ma, None));
    assert s1.jobs == map[1 := Fresh(SPEC, ma, 0, 0)];
    assert s1.chores.todos == multiset{Todo(FIRST, Some(0), false)};
  }

  lemma LateReceiptEnding(s: State)
    requires 0 in s.fleet.runners && s.fleet.runners[0].pc.Acking? && s.fleet.runners[0].entry == 0
    requires s.redis.stream == map[0 := FIRST] && s.redis.delayed == map[]
    requires 1 in s.jobs && s.jobs[1].status == DeadLetter && Receipt(1, InStream(0)) in s.chores.receipts
    ensures Stranded(Step(Step(Step(s, Ack(0)), RequeueDead(1)), SetEnqueuedLate(Receipt(1, InStream(0)))), 1)
  {
    hide Step;
    var s1 := Step(s, Ack(0));
    LastAck(s, 0, 0);
    var s2 := Step(s1, RequeueDead(1));
    RequeueStep(s1, 1, Receipt(1, InStream(0)));
    LateReceipt(s2, Receipt(1, InStream(0)));
  }

  /** The ack of the last entry leaves nothing. */
  lemma LastAck(s: State, r: ProcId, e: EntryId)
    requires r in s.fleet.runners && s.fleet.runners[r].pc.Acking? && s.fleet.runners[r].entry == e
    requires s.redis.stream.Keys == {e} && s.redis.delayed == map[]
    ensures var s' := Step(s, Ack(r));
            && s'.jobs == s.jobs && s'.chores == s.chores && s'.now == s.now && s'.redis.stream == map[]
            && s'.redis.delayed == map[] && s'.redis.pel == s.redis.pel - {e}
            && s'.redis.next == s.redis.next && s'.redis.spent == s.redis.spent
            && s'.fleet.runners.Keys == s.fleet.runners.Keys
  {
  }

  lemma RequeueStep(s: State, id: JobId, receipt: Receipt)
    requires id in s.jobs && s.jobs[id].status == DeadLetter && receipt in s.chores.receipts && receipt.id == id
    ensures var s' := Step(s, RequeueDead(id));
            && id in s'.jobs && s'.jobs[id].status == Pending && s'.jobs[id].enqueued.None?
            && receipt in s'.chores.lateReceipts
            && s'.redis.stream == s.redis.stream && s'.redis.delayed == s.redis.delayed
  {
  }

  lemma LateReceipt(s: State, receipt: Receipt)
    requires receipt.id in s.jobs && s.jobs[receipt.id].status == Pending && s.jobs[receipt.id].enqueued.None?
    requires receipt in s.chores.lateReceipts && s.redis.stream == map[] && s.redis.delayed == map[]
    ensures Stranded(Step(s, SetEnqueuedLate(receipt)), receipt.id)
  {
  }

  lemma LateReceiptStrands()
    ensures TimelyRun(Init(CFG, 0), LateReceiptRun(), 9)
    ensures Stranded(StateAt(Init(CFG, 0), LateReceiptRun(), 10), 1)
  {
    hide Step;
    var run := LateReceiptRun();
    var s0 := Init(CFG, 0);
    var op := Op(Grant(1, 1, 1, 1), Dead("down"));
    Opening(1);
    assert StateAt(s0, run, 2) == Step(Step(s0, run[0]), run[1]);
    assert run[2..7] == Attempt(0, 0, op);
    AttemptInRun(s0, run, 2, 0, 0, op);
    AttemptSteps(StateAt(s0, run, 2), 0, 0, op);
    LateReceiptEnding(StateAt(s0, run, 7));
    assert StateAt(s0, run, 9) == Step(Step(StateAt(s0, run, 7), run[7]), run[8]);
  }

  // ------------------------------------------------------------------ the late flip

  /** The leader's promotion flip is slow. Meanwhile the entry it followed is fetched, the
      attempt fails, the retry's ZADD is lost and the entry is acked. */
  function LateFlipRun(): seq<Action> {
    [Submit(1, SPEC, 3, None), Enqueue(Todo(FIRST, Some(0), false)), SetEnqueued(Receipt(1, InStream(0)))]
    + Attempt(0, 0, Op(Grant(1, 1, 1, 3), Retry("down", 0)))
    + [HandOff(0, true), Ack(0), PromoteDue(SECOND)]
    + Attempt(1, 1, Op(Grant(1, 2, 2, 3), Retry("down", 0)))
    + [HandOff(1, false), Ack(1), MarkPromoted(Flip(1, 1))]
  }

  lemma Receive(s: State)
    requires Receipt(1, InStream(0)) in s.chores.receipts && 1 in s.jobs && s.jobs[1].enqueued.None?
    ensures var s' := Step(s, SetEnqueued(Receipt(1, InStream(0))));
            && s'.jobs == s.jobs[1 := s.jobs[1].(enqueued := Some(InStream(0)))]
            && s'.redis == s.redis && s'.fleet == s.fleet && s'.now == s.now
            && s'.chores.flips == s.chores.flips && s'.chores.tasks == s.chores.tasks
  {
  }

  /** The first attempt's handoff reaches the delayed set and the promoter moves it on. */
  lemma Promotion(s: State)
    requires 0 in s.fleet.runners && s.fleet.runners[0].entry == 0 && s.fleet.runners.Keys == {0}
    requires s.fleet.runners[0].pc.HandingOff? && s.fleet.runners[0].pc.retry == SECOND && s.fleet.runners[0].pc.at == 0
    requires s.redis.stream == map[0 := FIRST] && s.redis.pel.Keys == {0} && s.redis.delayed == map[]
    requires s.redis.next == 1 && s.redis.spent == {0} && s.now == 0
    ensures var s' := Step(Step(Step(s, HandOff(0, true)), Ack(0)), PromoteDue(SECOND));
            && s'.jobs == s.jobs && s'.now == 0 && s'.fleet.runners.Keys == {0}
            && s'.redis.stream == map[1 := SECOND] && s'.redis.pel == map[] && s'.redis.delayed == map[]
            && Flip(1, 1) in s'.chores.flips && s'.chores.receipts == s.chores.receipts
  {
    hide Step;
    var s1 := Step(s, HandOff(0, true));
    HandOffStep(s, 0);
    var s2 := Step(s1, Ack(0));
    OnlyAck(s1, 0, 0);
    PromoteOnly(s2, SECOND);
  }

  lemma HandOffStep(s: State, r: ProcId)
    requires r in s.fleet.runners && s.fleet.runners[r].pc.HandingOff?
    ensures var s' := Step(s, HandOff(r, true));
            && s'.jobs == s.jobs && s'.chores == s.chores && s'.now == s.now && s'.redis.stream == s.redis.stream
            && s'.redis.pel == s.redis.pel && s'.redis.next == s.redis.next && s'.redis.spent == s.redis.spent
            && s'.redis.delayed == s.redis.delayed[s.fleet.runners[r].pc.retry := s.fleet.runners[r].pc.at]
            && s'.fleet.runners.Keys == s.fleet.runners.Keys && s'.fleet.runners[r].pc.Acking?
            && s'.fleet.runners[r].entry == s.fleet.runners[r].entry
  {
  }

  /** The ack of the only entry, with something parked. */
  lemma OnlyAck(s: State, r: ProcId, e: EntryId)
    requires r in s.fleet.runners && s.fleet.runners[r].pc.Acking? && s.fleet.runners[r].entry == e
    requires s.redis.stream.Keys == {e} && s.redis.pel.Keys == {e}
    ensures var s' := Step(s, Ack(r));
            && s'.jobs == s.jobs && s'.chores == s.chores && s'.now == s.now && s'.redis.stream == map[]
            && s'.redis.pel == map[] && s'.redis.delayed == s.redis.delayed
            && s'.redis.next == s.redis.next && s'.redis.spent == s.redis.spent
            && s'.fleet.runners.Keys == s.fleet.runners.Keys
  {
  }

  lemma PromoteOnly(s: State, env: Envelope)
    requires s.redis.delayed == map[env := 0] && 0 <= s.now && s.redis.stream == map[]
    ensures var s' := Step(s, PromoteDue(env));
            && s'.jobs == s.jobs && s'.now == s.now && s'.fleet == s.fleet && s'.redis.pel == s.redis.pel
            && s'.redis.stream == map[s.redis.next := env] && s'.redis.delayed == map[]
            && Flip(env.id, s.redis.next) in s'.chores.flips
            && s'.chores.receipts == s.chores.receipts
  {
    assert Enabled(s, PromoteDue(env));
  }

  lemma LateFlipEnding(s: State)
    requires 1 in s.fleet.runners && s.fleet.runners[1].pc.HandingOff? && s.fleet.runners[1].entry == 1
    requires s.redis.stream == map[1 := SECOND] && s.redis.delayed == map[]
    requires 1 in s.jobs && s.jobs[1].status == Retrying && s.jobs[1].enqueued.Some? && Flip(1, 1) in s.chores.flips
    ensures Stranded(Step(Step(Step(s, HandOff(1, false)), Ack(1)), MarkPromoted(Flip(1, 1))), 1)
  {
    var s1 := Step(s, HandOff(1, false));
    var s2 := Step(s1, Ack(1));
    assert s2.redis.stream == map[] && s2.redis.delayed == map[];
  }

  lemma LateFlipStrands()
    ensures TimelyRun(Init(CFG, 0), LateFlipRun(), 18)
    ensures Stranded(StateAt(Init(CFG, 0), LateFlipRun(), 19), 1)
  {
    hide Step;
    var run := LateFlipRun();
    var s0 := Init(CFG, 0);
    var op1 := Op(Grant(1, 1, 1, 3), Retry("down", 0));
    var op2 := Op(Grant(1, 2, 2, 3), Retry("down", 0));
    Opening(3);
    assert StateAt(s0, run, 2) == Step(Step(s0, run[0]), run[1]);
    Receive(StateAt(s0, run, 2));
    assert run[3..8] == Attempt(0, 0, op1);
    AttemptInRun(s0, run, 3, 0, 0, op1);
    AttemptSteps(StateAt(s0, run, 3), 0, 0, op1);
    var s8 := StateAt(s0, run, 8);
    Promotion(s8);
    ThreeSteps(s0, run, 8);
    assert run[11..16] == Attempt(1, 1, op2);
    AttemptInRun(s0, run, 11, 1, 1, op2);
    AttemptSteps(StateAt(s0, run, 11), 1, 1, op2);
    var s16 := StateAt(s0, run, 16);
    LateFlipEnding(s16);
    ThreeSteps(s0, run, 16);
  }

  // ------------------------------------------------------------- the ordinary receipt

  /** The same flip lands on a row whose own receipt is still outstanding. That strands
      nothing: the orphan sweep sees the row. The receipt that then lands does. */
  function OrdinaryReceiptRun(): seq<Action> {
    [Submit(1, SPEC, 3, None), Enqueue(Todo(FIRST, Some(0), false))]
    + Attempt(0, 0, Op(Grant(1, 1, 1, 3), Retry("down", 0)))
    + [HandOff(0, true), Ack(0), PromoteDue(SECOND)]
    + Attempt(1, 1, Op(Grant(1, 2, 2, 3), Retry("down", 0)))
    + [HandOff(1, false), Ack(1), MarkPromoted(Flip(1, 1)), SetEnqueued(Receipt(1, InStream(0)))]
  }

  lemma LostHandOff(s: State, r: ProcId)
    requires r in s.fleet.runners && s.fleet.runners[r].pc.HandingOff?
    ensures var s' := Step(s, HandOff(r, false));
            && s'.jobs == s.jobs && s'.chores == s.chores && s'.redis == s.redis
            && r in s'.fleet.runners && s'.fleet.runners[r].pc.Acking? && s'.fleet.runners[r].entry == s.fleet.runners[r].entry
  {
  }

  lemma FlipStep(s: State, flip: Flip)
    requires flip in s.chores.flips && flip.id in s.jobs && s.jobs[flip.id].status == Retrying
    ensures var s' := Step(s, MarkPromoted(flip));
            && s'.jobs == s.jobs[flip.id := s.jobs[flip.id].(status := Pending)] && s'.redis == s.redis
            && s'.chores.receipts == s.chores.receipts
  {
  }

  lemma ReceiptStep(s: State, receipt: Receipt)
    requires receipt in s.chores.receipts && receipt.id in s.jobs && s.jobs[receipt.id].status == Pending
    requires s.jobs[receipt.id].enqueued.None? && s.redis.stream == map[] && s.redis.delayed == map[]
    ensures !Stranded(s, receipt.id) && Stranded(Step(s, SetEnqueued(receipt)), receipt.id)
  {
  }

  lemma OrdinaryReceiptEnding(s: State)
    requires 1 in s.fleet.runners && s.fleet.runners[1].pc.HandingOff? && s.fleet.runners[1].entry == 1
    requires s.redis.stream == map[1 := SECOND] && s.redis.delayed == map[]
    requires 1 in s.jobs && s.jobs[1].status == Retrying && s.jobs[1].enqueued.None?
    requires Flip(1, 1) in s.chores.flips && Receipt(1, InStream(0)) in s.chores.receipts
    ensures var s' := Step(Step(Step(s, HandOff(1, false)), Ack(1)), MarkPromoted(Flip(1, 1)));
            !Stranded(s', 1) && Stranded(Step(s', SetEnqueued(Receipt(1, InStream(0)))), 1)
  {
    hide Step, Stranded;
    LostHandOff(s, 1);
    var s1 := Step(s, HandOff(1, false));
    LastAck(s1, 1, 1);
    var s2 := Step(s1, Ack(1));
    FlipStep(s2, Flip(1, 1));
    ReceiptStep(Step(s2, MarkPromoted(Flip(1, 1))), Receipt(1, InStream(0)));
  }

  /** After the late flip nothing is stranded; the next step, an ordinary receipt, strands. */
  lemma OrdinaryReceiptStrands()
    ensures !Stranded(StateAt(Init(CFG, 0), OrdinaryReceiptRun(), 18), 1)
    ensures Stranded(StateAt(Init(CFG, 0), OrdinaryReceiptRun(), 19), 1)
  {
    hide Step, Stranded;
    var run := OrdinaryReceiptRun();
    var s0 := Init(CFG, 0);
    var op1 := Op(Grant(1, 1, 1, 3), Retry("down", 0));
    var op2 := Op(Grant(1, 2, 2, 3), Retry("down", 0));
    Opening(3);
    var s2 := StateAt(s0, run, 2);
    assert s2 == Step(Step(s0, run[0]), run[1]);
    assert run[2..7] == Attempt(0, 0, op1);
    AttemptInRun(s0, run, 2, 0, 0, op1);
    AttemptSteps(s2, 0, 0, op1);
    var s7 := StateAt(s0, run, 7);
    Promotion(s7);
    var s10 := StateAt(s0, run, 10);
    ThreeSteps(s0, run, 7);
    assert run[10..15] == Attempt(1, 1, op2);
    AttemptInRun(s0, run, 10, 1, 1, op2);
    AttemptSteps(s10, 1, 1, op2);
    var s15 := StateAt(s0, run, 15);
    OrdinaryReceiptEnding(s15);
    ThreeSteps(s0, run, 15);
    assert StateAt(s0, run, 19) == Step(StateAt(s0, run, 18), run[18]);
  }

  lemma ThreeSteps(s0: State, run: seq<Action>, k: nat)
    requires k + 3 <= |run|
    ensures StateAt(s0, run, k + 3) == Step(Step(Step(StateAt(s0, run, k), run[k]), run[k + 1]), run[k + 2])
  {
    hide Step;
    assert StateAt(s0, run, k + 1) == Step(StateAt(s0, run, k), run[k]);
    assert StateAt(s0, run, k + 2) == Step(StateAt(s0, run, k + 1), run[k + 1]);
  }
}
