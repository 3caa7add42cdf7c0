/** What changes places, against the protocol: entries read from a stream or taken from a
    silent worker, parked envelopes promoted, and jobs that enter or start over. Together with
    the calls of a delivery and of the sweeps, every way the classes touch Redis is a run. */
module Moves {
  import opened Common
  import opened Job
  import opened Rows
  import opened Queues
  import opened Wire
  import opened Refinement
  import P = Protocol
  import Recovery
  import Server
  import Stores

  // ------------------------------------------------------------------ reading

  lemma FetchStep(s: P.State, r: P.ProcId, e: P.EntryId)
    requires r !in s.fleet.runners && e in s.redis.stream && e !in s.redis.pel
    ensures var s' := P.Step(s, P.Fetch(r, e));
            && s'.jobs == s.jobs && s'.now == s.now && s'.redis == s.redis.Hold(e, s.now)
            && s'.fleet.runners == s.fleet.runners[r := P.Runner(e, s.redis.stream[e], P.RunnerPc.Fetched)]
  {
  }

  /** The first k deliveries of a read, each in the hands of its own worker. */
  ghost predicate HandedTo(s: P.State, runners: seq<P.ProcId>, ready: seq<Msg>, p: Priority, k: nat)
    requires k <= |runners| && k <= |ready|
  {
    forall i :: 0 <= i < k ==> ready[i].env.Some? && On(s, runners[i], Delivery(ready[i].env.value, ready[i].id, p), P.RunnerPc.Fetched)
  }

  lemma HandedOneMore(s: P.State, s': P.State, runners: seq<P.ProcId>, ready: seq<Msg>, p: Priority, k: nat, env: Envelope)
    requires k < |runners| && k < |ready| && HandedTo(s, runners, ready, p, k)
    requires forall i, j :: 0 <= i < j < |runners| ==> runners[i] != runners[j]
    requires 0 <= ready[k].id && ready[k].env == Some(env) && env.priority == p
    requires s'.redis.stream == s.redis.stream && ready[k].id in s.redis.stream && s.redis.stream[ready[k].id] == env
    requires s'.fleet.runners == s.fleet.runners[runners[k] := P.Runner(ready[k].id, env, P.RunnerPc.Fetched)]
    ensures HandedTo(s', runners, ready, p, k + 1)
  {
    forall i | 0 <= i < k + 1
      ensures ready[i].env.Some? && On(s', runners[i], Delivery(ready[i].env.value, ready[i].id, p), P.RunnerPc.Fetched)
    {
      if i < k {
        assert On(s, runners[i], Delivery(ready[i].env.value, ready[i].id, p), P.RunnerPc.Fetched);
      }
    }
  }

  lemma ReadComposes(st: Stream, k: nat, c: Consumer, now: int)
    requires k < |Ready(st)| && st.cursor <= |st.entries|
    ensures var st' := Delivered(st, k, c, now);
            && Ready(st') == Ready(st)[k..] && Delivered(st', 1, c, now) == Delivered(st, k + 1, c, now)
  {
    hide Ids;
    var ready, st' := Ready(st), Delivered(st, k, c, now);
    DeliveredSplit(st, k, c, now);
    assert Ready(st') == ready[k..];
    assert ready[..k + 1] == ready[..k] + [ready[k]];
    assert Ready(st')[..1] == [ready[k]];
    IdsOfSum(ready[..k], [ready[k]]);
    HoldsJoin(st.pel, Ids(ready[..k]), Ids([ready[k]]), Hold(c, now));
  }

  lemma HoldsJoin(pel: map<int, Hold>, a: set<int>, b: set<int>, h: Hold)
    ensures pel + (map id | id in a :: h) + (map id | id in b :: h) == pel + map id | id in a + b :: h
  {
  }

  lemma ReadNothing(w: Held, p: Priority, c: Consumer, now: int)
    requires w.Complete()
    ensures w.Read(p, 0, c, now) == w
  {
    assert Delivered(w.streams[p], 0, c, now) == w.streams[p] by {
      assert Ready(w.streams[p])[..0] == [];
      assert Ids([]) == {};
      assert w.streams[p].pel + map[] == w.streams[p].pel;
    }
    assert w.streams[p := w.streams[p]] == w.streams;
  }

  lemma ReadOneMore(w: Held, p: Priority, k: nat, c: Consumer, now: int)
    requires w.Complete() && k < |Ready(w.streams[p])| && w.streams[p].cursor <= |w.streams[p].entries|
    ensures Ready(w.Read(p, k, c, now).streams[p]) == Ready(w.streams[p])[k..]
    ensures w.Read(p, k, c, now).Read(p, 1, c, now) == w.Read(p, k + 1, c, now)
  {
    hide Delivered, Ready;
    ReadComposes(w.streams[p], k, c, now);
  }

  /** Reading k entries of one stream is k fetches of the protocol, by as many new workers, each
      of which then has its delivery in hand. */
  lemma {:induction false} ReadRefines(s: P.State, p: Priority, k: nat, c: Consumer, runners: seq<P.ProcId>, jobs: Jobs, w: Held)
    returns (run: seq<P.Action>)
    requires Sim(s, jobs, w) && w.Complete() && k <= |Ready(w.streams[p])| && k <= |runners|
    requires forall i, j :: 0 <= i < j < |runners| ==> runners[i] != runners[j]
    requires forall i :: 0 <= i < |runners| ==> runners[i] !in s.fleet.runners
    ensures var s' := P.After(s, run);
            && Sim(s', jobs, w.Read(p, k, c, s.now)) && s'.now == s.now && HandedTo(s', runners, Ready(w.streams[p]), p, k)
            && forall r :: r in s'.fleet.runners ==> r in s.fleet.runners || exists i :: 0 <= i < k && runners[i] == r
    ensures forall a :: a in run ==> a.Fetch? && a.runner in runners
  {
    hide Carries, Ready, Delivered, P.Step, On;
    if k == 0 {
      run := [];
      ReadNothing(w, p, c, s.now);
      return;
    }
    run := ReadRefines(s, p, k - 1, c, runners, jobs, w);
    var s1 := P.After(s, run);
    var ready := Ready(w.streams[p]);
    CursorInside(w, s.redis, p);
    ReadOneMore(w, p, k - 1, c, s.now);
    var w1 := w.Read(p, k - 1, c, s.now);
    NextReady(w1, s1.redis, p);
    assert Ready(w1.streams[p])[0] == ready[k - 1];
    ReadCarries(w1, s1.redis, p, c, s.now);
    FetchStep(s1, runners[k - 1], ready[k - 1].id);
    run := Then(s, run, P.Fetch(runners[k - 1], ready[k - 1].id));
    HandedOneMore(s1, P.After(s, run), runners, ready, p, k - 1, ready[k - 1].env.value);
  }

  lemma CursorInside(w: Held, redis: P.Redis, p: Priority)
    requires Carries(w, redis) && w.Complete()
    ensures w.streams[p].cursor <= |w.streams[p].entries|
  {
    assert SameAt(w, redis, p);
  }

  // ------------------------------------------------------------------ taking over

  lemma AutoClaimStep(s: P.State, t: P.ProcId, e: P.EntryId)
    requires t !in s.chores.tasks && e in s.redis.pel && e in s.redis.stream && s.redis.pel[e] + s.cfg.minIdle <= s.now
    ensures var s' := P.Step(s, P.AutoClaim(t, e));
            && s'.jobs == s.jobs && s'.now == s.now && s'.redis == s.redis.Hold(e, s.now)
            && s'.chores.tasks == s.chores.tasks[t := P.Task(e, s.redis.stream[e], P.Taken)]
  {
  }

  /** An auto-claim of one idle entry is the protocol's, and the leader then has its delivery. */
  lemma TakeRefines(s: P.State, t: P.ProcId, m: Msg, jobs: Jobs, w: Held)
    requires Sim(s, jobs, w) && w.Complete() && t !in s.chores.tasks && m.env.Some?
    requires var p := m.env.value.priority;
             m in w.streams[p].entries && m.id in w.streams[p].pel && w.streams[p].pel[m.id].since + s.cfg.minIdle <= s.now
    ensures 0 <= m.id
    ensures var s' := P.Step(s, P.AutoClaim(t, m.id));
            && Sim(s', jobs, w.Take(m.env.value.priority, [m], s.now)) && s'.now == s.now
            && TaskOn(s', t, Delivery(m.env.value, m.id, m.env.value.priority), P.Taken)
  {
    hide P.Step, TakenOver;
    var p := m.env.value.priority;
    assert SameAt(w, s.redis, p);
    AutoClaimStep(s, t, m.id);
    TakeCarries(w, s.redis, m, m.env.value, s.now);
  }

  // ------------------------------------------------------------------ promotion

  lemma PromoteStep(s: P.State, env: Envelope)
    requires env in s.redis.delayed && s.redis.delayed[env] <= s.now
    ensures var s' := P.Step(s, P.PromoteDue(env));
            && s'.jobs == s.jobs && s'.now == s.now && s'.redis == s.redis.Move(env)
            && s'.chores.flips == s.chores.flips + {P.Flip(env.id, s.redis.next)}
  {
  }

  /** One member moved is one step of the protocol, which owes its flip. */
  lemma MoveRefines(s: P.State, env: Envelope, jobs: Jobs, w: Held)
    requires Sim(s, jobs, w) && w.Complete() && env.priority in w.delayed
    requires env in w.delayed[env.priority] && w.delayed[env.priority][env] <= s.now
    ensures var s' := P.Step(s, P.PromoteDue(env));
            && Sim(s', jobs, w.Move(env.priority, env)) && s'.now == s.now
            && s'.chores.flips == s.chores.flips + {P.Flip(env.id, w.next)}
  {
    hide P.Step, Added;
    assert SameAt(w, s.redis, env.priority);
    PromoteStep(s, env);
    MoveCarries(w, s.redis, env);
  }

  /** The flips a promotion owes: one per member, in order. */
  ghost predicate OwesFlips(s: P.State, moved: seq<Envelope>, first: int, from: nat) {
    forall i :: from <= i < |moved| ==> 0 <= first + i && P.Flip(moved[i].id, first + i) in s.chores.flips
  }

  /** Members that are parked and due, and what parks them. */
  ghost predicate AllDue(delayed: map<Priority, map<Envelope, int>>, moved: seq<Envelope>, now: int) {
    && (forall i :: 0 <= i < |moved| ==>
          moved[i].priority in delayed && moved[i] in delayed[moved[i].priority] && delayed[moved[i].priority][moved[i]] <= now)
    && forall i, j :: 0 <= i < j < |moved| ==> moved[i] != moved[j]
  }

  /** Moving a list of members, each to the stream of its own priority. */
  function MoveEach(w: Held, moved: seq<Envelope>, k: nat): (w': Held)
    requires w.Complete() && k <= |moved|
    ensures w'.Complete()
  {
    if k == 0 then w else MoveEach(w, moved, k - 1).Move(moved[k - 1].priority, moved[k - 1])
  }

  lemma {:induction false} StillParked(w: Held, moved: seq<Envelope>, k: nat, env: Envelope)
    requires w.Complete() && k <= |moved| && env.priority in w.delayed && env in w.delayed[env.priority]
    requires forall i :: 0 <= i < k ==> moved[i] != env
    ensures var w' := MoveEach(w, moved, k);
            && w'.next == w.next + k && env.priority in w'.delayed && env in w'.delayed[env.priority]
            && w'.delayed[env.priority][env] == w.delayed[env.priority][env]
  {
    if k > 0 {
      StillParked(w, moved, k - 1, env);
    }
  }

  lemma {:induction false} MoveEachRefines(s: P.State, moved: seq<Envelope>, k: nat, jobs: Jobs, w: Held) returns (run: seq<P.Action>)
    requires Sim(s, jobs, w) && w.Complete() && 0 <= w.next && AllDue(w.delayed, moved, s.now) && k <= |moved|
    ensures var s' := P.After(s, run);
            && Sim(s', jobs, MoveEach(w, moved, k)) && s'.now == s.now && OwesFlips(s', moved[..k], w.next, 0)
    ensures forall a :: a in run ==> a.PromoteDue?
  {
    hide Carries, P.Step, Held.Move;
    if k == 0 {
      run := [];
      return;
    }
    run := MoveEachRefines(s, moved, k - 1, jobs, w);
    var s1, w1 := P.After(s, run), MoveEach(w, moved, k - 1);
    StillParked(w, moved, k - 1, moved[k - 1]);
    MoveRefines(s1, moved[k - 1], jobs, w1);
    run := Then(s, run, P.PromoteDue(moved[k - 1]));
    assert moved[..k] == moved[..k - 1] + [moved[k - 1]];
  }

  lemma MarkStep(s: P.State, flip: P.Flip)
    requires flip in s.chores.flips
    ensures var s' := P.Step(s, P.MarkPromoted(flip));
            && s'.jobs == Exec(s.jobs, At(s.now, Promote(flip.id))) && s'.redis == s.redis && s'.now == s.now
            && s'.chores.flips == s.chores.flips - {flip}
  {
  }

  lemma {:induction false} FlipsRefine(s: P.State, moved: seq<Envelope>, first: int, k: nat, jobs: Jobs, w: Held) returns (run: seq<P.Action>)
    requires Sim(s, jobs, w) && OwesFlips(s, moved, first, 0) && k <= |moved|
    ensures var s' := P.After(s, run);
            && Sim(s', TableFrom(jobs, Stores.Flips(Recovery.IdsOf(moved), s.now), k), w) && s'.now == s.now && OwesFlips(s', moved, first, k)
    ensures forall a :: a in run ==> a.MarkPromoted?
  {
    hide Carries, P.Step, Exec;
    if k == 0 {
      run := [];
      return;
    }
    run := FlipsRefine(s, moved, first, k - 1, jobs, w);
    var flip := P.Flip(moved[k - 1].id, first + k - 1);
    MarkStep(P.After(s, run), flip);
    run := Then(s, run, P.MarkPromoted(flip));
  }

  /** A whole promotion, the moves of every priority and the flip if it came to it, is a run of
      the protocol. */
  lemma PromotionRefines(s: P.State, moved: seq<Envelope>, flipped: bool, jobs: Jobs, w: Held) returns (run: seq<P.Action>)
    requires Sim(s, jobs, w) && w.Complete() && AllDue(w.delayed, moved, s.now)
    ensures Sim(P.After(s, run), if flipped then Recovery.Flipping(jobs, moved, s.now) else jobs, MoveEach(w, moved, |moved|))
    ensures forall a :: a in run ==> a.PromoteDue? || a.MarkPromoted?
  {
    hide Carries, P.Step, TableFrom, MoveEach, AllDue;
    NextIsNatural(w, s.redis);
    run := MoveEachRefines(s, moved, |moved|, jobs, w);
    assert moved[..|moved|] == moved;
    if flipped {
      var more := FlipsRefine(P.After(s, run), moved, w.next, |moved|, jobs, MoveEach(w, moved, |moved|));
      run := Joined(s, run, more);
    }
  }

  lemma {:induction false} MoveEachSum(w: Held, a: seq<Envelope>, b: seq<Envelope>, k: nat)
    requires w.Complete() && k <= |b|
    ensures MoveEach(w, a + b, |a| + k) == MoveEach(MoveEach(w, a, |a|), b, k)
  {
    hide Held.Move;
    if k == 0 {
      MoveEachPrefix(w, a, b, |a|);
    } else {
      MoveEachSum(w, a, b, k - 1);
      assert (a + b)[|a| + k - 1] == b[k - 1];
    }
  }

  lemma {:induction false} MoveEachPrefix(w: Held, a: seq<Envelope>, b: seq<Envelope>, k: nat)
    requires w.Complete() && k <= |a|
    ensures MoveEach(w, a + b, k) == MoveEach(w, a, k)
  {
    hide Held.Move;
    if k > 0 {
      MoveEachPrefix(w, a, b, k - 1);
    }
  }

  lemma {:induction false} MoveAllIsEach(w: Held, p: Priority, moved: seq<Envelope>, k: nat)
    requires w.Complete() && k <= |moved| && forall i :: 0 <= i < |moved| ==> moved[i].priority == p
    ensures w.MoveAll(p, moved, k) == MoveEach(w, moved, k)
  {
    hide Held.Move;
    if k > 0 {
      MoveAllIsEach(w, p, moved, k - 1);
    }
  }

  /** A part of a pass holds members of its own priority, parked and due. */
  ghost predicate Parts(w: Held, parts: seq<seq<Envelope>>, now: int) {
    && |parts| <= |PRIORITY_ORDER|
    && forall i :: 0 <= i < |parts| ==>
         && PRIORITY_ORDER[i] in w.delayed && InDueOrder(w.delayed[PRIORITY_ORDER[i]], parts[i], now)
         && forall e :: e in parts[i] ==> e.priority == PRIORITY_ORDER[i]
  }

  lemma {:induction false} PartsAreEach(w: Held, parts: seq<seq<Envelope>>, now: int, i: nat)
    requires w.Complete() && Parts(w, parts, now) && i <= |parts|
    ensures w.MoveParts(parts, i) == MoveEach(w, Flat(parts[..i]), |Flat(parts[..i])|)
  {
    hide Held.Move, Held.MoveAll, MoveEach, InDueOrder;
    if i == 0 {
      NothingEach(w);
    } else {
      PartsAreEach(w, parts, now, i - 1);
      var before, part := Flat(parts[..i - 1]), parts[i - 1];
      MoveAllIsEach(w.MoveParts(parts, i - 1), PRIORITY_ORDER[i - 1], part, |part|);
      MoveEachSum(w, before, part, |part|);
      assert parts[..i] == parts[..i - 1] + [part];
      OneMoreFlat(parts[..i - 1], part);
    }
  }

  lemma NothingEach(w: Held)
    requires w.Complete()
    ensures MoveEach(w, [], 0) == w
  {
  }

  lemma {:induction false} PartsAreDue(w: Held, parts: seq<seq<Envelope>>, now: int, i: nat)
    requires Parts(w, parts, now) && i <= |parts|
    ensures AllDue(w.delayed, Flat(parts[..i]), now)
    ensures forall e :: e in Flat(parts[..i]) ==> exists j :: 0 <= j < i && e.priority == PRIORITY_ORDER[j]
  {
    if i > 0 {
      PartsAreDue(w, parts, now, i - 1);
      var before, part := Flat(parts[..i - 1]), parts[i - 1];
      assert parts[..i] == parts[..i - 1] + [part];
      OneMoreFlat(parts[..i - 1], part);
      PartIsDue(w, part, now, i - 1);
      OtherPriorities(before, part, i - 1);
      DueTogether(w.delayed, before, part, now);
    }
  }

  lemma PartIsDue(w: Held, part: seq<Envelope>, now: int, i: nat)
    requires i < |PRIORITY_ORDER| && PRIORITY_ORDER[i] in w.delayed && InDueOrder(w.delayed[PRIORITY_ORDER[i]], part, now)
    requires forall e :: e in part ==> e.priority == PRIORITY_ORDER[i]
    ensures AllDue(w.delayed, part, now)
  {
  }

  lemma OtherPriorities(before: seq<Envelope>, part: seq<Envelope>, i: nat)
    requires i < |PRIORITY_ORDER| && forall e :: e in before ==> exists j :: 0 <= j < i && e.priority == PRIORITY_ORDER[j]
    requires forall e :: e in part ==> e.priority == PRIORITY_ORDER[i]
    ensures forall e :: e in before ==> e !in part
  {
    assert forall j :: 0 <= j < i ==> PRIORITY_ORDER[j] != PRIORITY_ORDER[i];
  }

  lemma DueTogether(delayed: map<Priority, map<Envelope, int>>, a: seq<Envelope>, b: seq<Envelope>, now: int)
    requires AllDue(delayed, a, now) && AllDue(delayed, b, now) && forall e :: e in a ==> e !in b
    ensures AllDue(delayed, a + b, now)
  {
    var all := a + b;
    forall i, j | 0 <= i < j < |all| ensures all[i] != all[j] {
      if i < |a| <= j {
        assert a[i] in a && b[j - |a|] in b;
      }
    }
  }

  /** The leader's whole promotion pass is such a run: it reaches some of the priorities, and
      flips the rows if it reached them all and the flip was not lost. */
  lemma PassRefines(s: P.State, parts: seq<seq<Envelope>>, flipped: bool, jobs: Jobs, w: Held) returns (run: seq<P.Action>)
    requires Sim(s, jobs, w) && w.Complete() && |parts| <= |PRIORITY_ORDER|
    requires forall i :: 0 <= i < |parts| ==>
               PRIORITY_ORDER[i] in w.delayed && InDueOrder(w.delayed[PRIORITY_ORDER[i]], parts[i], s.now)
    ensures Sim(P.After(s, run), if flipped then Recovery.Flipping(jobs, Flat(parts), s.now) else jobs, w.MoveParts(parts, |parts|))
    ensures forall a :: a in run ==> a.PromoteDue? || a.MarkPromoted?
  {
    hide Carries, P.Step, AllDue, InDueOrder, Held.MoveParts, MoveEach, Flat, Recovery.Flipping;
    OwnPriority(s, parts, jobs, w);
    PartsAreDue(w, parts, s.now, |parts|);
    PartsAreEach(w, parts, s.now, |parts|);
    assert parts[..|parts|] == parts;
    run := PromotionRefines(s, Flat(parts), flipped, jobs, w);
  }

  lemma OwnPriority(s: P.State, parts: seq<seq<Envelope>>, jobs: Jobs, w: Held)
    requires Sim(s, jobs, w) && |parts| <= |PRIORITY_ORDER|
    requires forall i :: 0 <= i < |parts| ==>
               PRIORITY_ORDER[i] in w.delayed && InDueOrder(w.delayed[PRIORITY_ORDER[i]], parts[i], s.now)
    ensures Parts(w, parts, s.now)
  {
    forall i, e | 0 <= i < |parts| && e in parts[i] ensures e.priority == PRIORITY_ORDER[i] {
      assert SameAt(w, s.redis, PRIORITY_ORDER[i]);
    }
  }

  lemma NextIsNatural(w: Held, redis: P.Redis)
    requires Carries(w, redis)
    ensures 0 <= w.next
  {
  }

  // ------------------------------------------------------------------ the API

  lemma SubmitStep(s: P.State, id: JobId, spec: Spec, requested: int, scheduled: Option<int>)
    requires AdmitAttempts(requested).Some?
    ensures var s' := P.Step(s, P.Action.Submit(id, spec, requested, scheduled));
            var stmt := At(s.now, Insert(id, spec, AdmitAttempts(requested).value, Server.Start(scheduled, s.now)));
            && s'.jobs == Exec(s.jobs, stmt) && s'.redis == s.redis && s'.now == s.now
            && (Applies(s.jobs, stmt) ==> P.Todo(NewEnvelope(id, spec, 1, s.now), Some(Server.Start(scheduled, s.now)), false) in s'.chores.todos)
  {
  }

  /** A submission is a run: the row, then, if it is known to be there, the hand-off. */
  lemma SubmitRefines(s: P.State, id: JobId, spec: Spec, requested: int, scheduled: Option<int>, f: Server.Faults, jobs: Jobs, w: Held)
    returns (run: seq<P.Action>)
    requires Sim(s, jobs, w) && w.Complete()
    ensures var jobs' := Server.Entered(jobs, id, spec, requested, scheduled, s.now, f);
            var env, start := NewEnvelope(id, spec, 1, s.now), Some(Server.Start(scheduled, s.now));
            if Server.Accepted(jobs, id, spec, requested, f)
            then Sim(P.After(s, run), Server.HandedJobs(jobs', w, env, start, s.now, f), Server.HandedHeld(w, env, start, s.now, f))
            else Sim(P.After(s, run), jobs', w)
    ensures forall a :: a in run ==> a.Submit? || a.Enqueue? || a.SetEnqueued?
  {
    hide Carries, Exec, P.Step, Server.HandedJobs, Server.HandedHeld;
    run := [];
    assert P.After(s, run) == s;
    if AdmitAttempts(requested).None? || f.write.RolledBack? {
      return;
    }
    SubmitStep(s, id, spec, requested, scheduled);
    run := Then(s, run, P.Action.Submit(id, spec, requested, scheduled));
    if Server.Accepted(jobs, id, spec, requested, f) {
      var s1 := P.After(s, run);
      var more := HandOffRefines(s1, NewEnvelope(id, spec, 1, s.now), Some(Server.Start(scheduled, s.now)), f, s1.jobs, w);
      run := Joined(s, run, more);
    }
  }

  lemma RequeueStep(s: P.State, id: JobId)
    ensures var s' := P.Step(s, P.RequeueDead(id));
            && s'.jobs == Exec(s.jobs, At(s.now, Requeue(id))) && s'.now == s.now
            && (s'.redis == s.redis || s'.redis == s.redis.(handed := s.redis.handed - {id}))
            && (id in s.jobs && s.jobs[id].status == DeadLetter ==>
                  P.Todo(NewEnvelope(id, s.jobs[id].spec, 1, s.now), None, false) in s'.chores.todos)
  {
  }

  lemma ForgetCarries(w: Held, redis: P.Redis, id: JobId)
    requires Carries(w, redis)
    ensures Carries(w, redis.(handed := redis.handed - {id}))
  {
    forall p: Priority ensures SameAt(w, redis.(handed := redis.handed - {id}), p) {
      assert SameAt(w, redis, p);
    }
  }

  /** An operator's requeue is a run: the row, then, if it is known to be restarted, the hand-off. */
  lemma RequeueRefines(s: P.State, id: JobId, f: Server.Faults, jobs: Jobs, w: Held) returns (run: seq<P.Action>)
    requires Sim(s, jobs, w) && w.Complete()
    ensures var jobs' := Server.Restarted(jobs, id, s.now, f);
            if f.write.Committed? && id in jobs && jobs[id].status == DeadLetter
            then var env := NewEnvelope(id, jobs[id].spec, 1, s.now);
                 Sim(P.After(s, run), Server.HandedJobs(jobs', w, env, None, s.now, f), Server.HandedHeld(w, env, None, s.now, f))
            else Sim(P.After(s, run), jobs', w)
    ensures forall a :: a in run ==> a.RequeueDead? || a.Enqueue? || a.SetEnqueued?
  {
    hide Carries, Exec, P.Step, Server.HandedJobs, Server.HandedHeld;
    run := [];
    assert P.After(s, run) == s;
    if f.write.RolledBack? {
      return;
    }
    RequeueStep(s, id);
    ForgetCarries(w, s.redis, id);
    run := Then(s, run, P.RequeueDead(id));
    if f.write.Committed? && id in jobs && jobs[id].status == DeadLetter {
      var s1 := P.After(s, run);
      var more := HandOffRefines(s1, NewEnvelope(id, jobs[id].spec, 1, s.now), None, f, s1.jobs, w);
      run := Joined(s, run, more);
    }
  }

  /** A cancellation's write is the protocol's. */
  lemma CancelRefines(s: P.State, id: JobId, jobs: Jobs, w: Held)
    requires Sim(s, jobs, w)
    ensures Sim(P.Step(s, P.CancelIdle(id)), Exec(jobs, At(s.now, Rows.Cancel(id))), w)
  {
    hide Carries;
  }
}
