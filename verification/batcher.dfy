/** The two recorders as they run (internal/store/batch.go): SyncRecorder, and the Batcher
    with its transaction, its retry and its channel loop. */
module Recorders {
  import opened Rows
  import opened Tables
  import opened Stores
  import opened Batch
  import opened BatchLog
  import opened BatchLoop

  /** One SyncRecorder call. The UPDATE can be lost or land unseen; failing to write the
      attempt row does not turn a recorded outcome into an error. */
  method SyncRecord(store: Store, op: RecOp, now: int, fate: Fate, attemptLost: bool) returns (res: OpResult)
    modifies store
    ensures store.jobs == if fate.RolledBack? then old(store.jobs) else Exec(old(store.jobs), OutcomeStmt(op, now))
    ensures !fate.Committed? ==> res == Unconfirmed && store.attempts == old(store.attempts) && store.events == old(store.events)
    ensures fate.Committed? ==> res == Reported(Applies(old(store.jobs), OutcomeStmt(op, now)))
    ensures fate.Committed? && !attemptLost ==> store.View() == SyncStep(old(store.View()), op, now)
    ensures fate.Committed? && attemptLost ==> store.View() == SyncStep(old(store.View()), op, now).(attempts := old(store.attempts))
  {
    match fate {
      case RolledBack =>
        return Unconfirmed;
      case CommitUnseen =>
        var _ := store.Update(OutcomeStmt(op, now));
        return Unconfirmed;
      case Committed =>
        var ok := store.RecordOutcome(op, now);
        if !attemptLost {
          store.RecordAttempt(op.att);
        }
        return Reported(ok);
    }
  }

  lemma NothingToComplete(jobs: Jobs, ops: seq<RecOp>, now: int, join: Join)
    requires forall i :: 0 <= i < |ops| ==> !ops[i].write.Complete?
    ensures CompleteAll(jobs, ops, now, join) == jobs
  {
    forall id | id in jobs ensures JoinedCompletion(id, jobs[id], ops, join).None? {
    }
  }

  /** The completions as one multi-row fenced UPDATE; RETURNING says which ids it hit. */
  method RecordCompletions(start: Jobs, ops: seq<RecOp>, now: int, join: Join) returns (jobs: Jobs, applied: seq<bool>)
    ensures jobs == CompleteAll(start, ops, now, join) && |applied| == |ops|
    ensures forall k :: 0 <= k < |ops| && ops[k].write.Complete? ==> applied[k] == FlushFlag(start, ops, k, now, join)
  {
    applied := seq(|ops|, _ => false);
    var completions: seq<nat> := [];
    for i := 0 to |ops|
      invariant forall c :: c in completions <==> 0 <= c < i && ops[c].write.Complete?
    {
      if ops[i].write.Complete? {
        completions := completions + [i];
      }
    }
    if completions == [] {
      assert forall i :: 0 <= i < |ops| && ops[i].write.Complete? ==> i in completions;
      NothingToComplete(start, ops, now, join);
      return start, applied;
    }
    jobs := CompleteAll(start, ops, now, join);
    var okIds := CompletedIds(start, ops);
    for c := 0 to |completions|
      invariant |applied| == |ops|
      invariant forall k :: 0 <= k < |ops| && k in completions[..c] ==> applied[k] == (ops[k].id in okIds)
    {
      var k := completions[c];
      assert k in completions && completions[..c + 1] == completions[..c] + [k];
      applied := applied[k := ops[k].id in okIds];
    }
    assert completions[..|completions|] == completions;
  }

  /** The rarer kinds individually, inside the same transaction. */
  method RecordRest(mid: Jobs, ops: seq<RecOp>, now: int, flags: seq<bool>) returns (jobs: Jobs, applied: seq<bool>)
    requires |flags| == |ops|
    ensures jobs == RecordOthers(mid, ops, |ops|, now) && |applied| == |ops|
    ensures forall k :: 0 <= k < |ops| ==>
              applied[k] == if ops[k].write.Complete? then flags[k]
                            else Applies(RecordOthers(mid, ops, k, now), OutcomeStmt(ops[k], now))
  {
    hide Exec, Applies;
    jobs, applied := mid, flags;
    for i := 0 to |ops|
      invariant jobs == RecordOthers(mid, ops, i, now) && |applied| == |ops|
      invariant forall k :: 0 <= k < |ops| ==>
                  applied[k] == if k >= i || ops[k].write.Complete? then flags[k]
                                else Applies(RecordOthers(mid, ops, k, now), OutcomeStmt(ops[k], now))
    {
      if !ops[i].write.Complete? {
        applied := applied[i := Applies(jobs, OutcomeStmt(ops[i], now))];
        jobs := Exec(jobs, OutcomeStmt(ops[i], now));
      }
    }
  }

  /** One batch in one transaction: completions, the other kinds, one insert of attempt rows
      and one of events, then the commit. */
  method FlushOnce(store: Store, ops: seq<RecOp>, now: int, join: Join, fate: Fate) returns (err: bool, flags: seq<bool>)
    modifies store
    ensures err == (fate != Committed)
    ensures store.View() == Transact(old(store.View()), ops, now, join, fate)
    ensures !err ==> |flags| == |ops| && forall k :: 0 <= k < |ops| ==> flags[k] == FlushFlag(old(store.jobs), ops, k, now, join)
  {
    hide Exec, Applies, EventsOf, CompleteAll, CompletedIds;
    var jobs, applied := RecordCompletions(store.jobs, ops, now, join);
    jobs, applied := RecordRest(jobs, ops, now, applied);
    assert forall k :: 0 <= k < |ops| ==> applied[k] == FlushFlag(store.jobs, ops, k, now, join);

    var attempts := store.attempts;
    var history: seq<Event> := [];
    for i := 0 to |ops|
      invariant attempts == InsertAttempts(store.attempts, ops, i)
    {
      attempts := InsertAttempt(attempts, ops[i].att);
    }
    for i := 0 to |ops|
      invariant history == FlushEvents(store.jobs, ops, i, now, join)
    {
      history := history + EventsOf(ops[i], applied[i]);
    }

    if fate.RolledBack? {
      return true, [];
    }
    store.jobs, store.attempts, store.events := jobs, attempts, store.events + history;
    return fate.CommitUnseen?, applied;
  }

  /** Somebody else's write. */
  method Interfere(store: Store, other: Other)
    modifies store
    ensures store.View() == Did(old(store.View()), other)
  {
    match other {
      case Ran(t) => store.jobs := Exec(store.jobs, t);
      case Inserted(a) => store.RecordAttempt(a);
      case Noted(e) => store.events := store.events + [e];
    }
  }

  /** Flush with its one retry; others may write between the two transactions. The tables and
      every operation's one result are exactly those of the plan. */
  method FlushBatch(store: Store, ops: seq<RecOp>, plan: Plan) returns (results: seq<OpResult>)
    modifies store
    ensures store.View() == FlushedBy(old(store.View()), ops, plan)
    ensures results == ResultsBy(old(store.View()), ops, plan)
  {
    hide Flush, FlushFlag, Did;
    var err, flags := FlushOnce(store, ops, plan.now, plan.join, plan.first);
    if err {
      ghost var middle := store.View();
      for i := 0 to |plan.between|
        invariant store.View() == DidAll(middle, plan.between, i)
      {
        Interfere(store, plan.between[i]);
      }
      err, flags := FlushOnce(store, ops, plan.later, plan.join2, plan.second);
    }
    if err {
      return seq(|ops|, _ => Unconfirmed);
    }
    return seq(|ops|, k requires 0 <= k < |flags| => Reported(flags[k]));
  }

  // ------------------------------------------------------------------ the channel loop

  /** The inputs of a script, in order. */
  function Scripted(script: seq<Wake>, k: nat): seq<Input>
    requires k <= |script|
  {
    if k == 0 then [] else Scripted(script, k - 1) + if script[k - 1].From? then [script[k - 1].input] else []
  }

  class Batcher {
    const store: Store
    const maxSize: nat
    // the channel, and the slice the loop accumulates
    var queue: seq<RecOp>
    var pending: seq<RecOp>
    // resolved operations in flush order, each with the one result its done channel got
    var resolved: seq<RecOp>
    var results: seq<OpResult>
    // the tables at the start, and everything that happened to them since
    ghost const start: Tables
    ghost var log: seq<Deed>

    constructor (s: Store, maxSize: nat)
      ensures Valid() && Machine() == Mem([], [], [])
      ensures store == s && this.maxSize == maxSize && start == s.View()
    {
      store, this.maxSize := s, maxSize;
      queue, pending, resolved, results := [], [], [], [];
      start, log := s.View(), [];
    }

    /** The tables are what the log made of them, every flushed operation was resolved with
        the result its flush gave it, and everything sent is resolved, pending or queued. */
    ghost predicate Valid()
      reads this, store
    {
      && store.View() == World(start, log, |log|)
      && resolved == FlushesOf(log, |log|) && results == ToldOf(start, log, |log|)
      && SendsOf(log, |log|) == resolved + InFlight() && InOrder(log, |log|)
    }

    /** Accepted and not resolved yet, oldest first. */
    ghost function InFlight(): seq<RecOp>
      reads this
    {
      pending + queue
    }

    /** The loop's state as the machine sees it. */
    ghost function Machine(): Mem
      reads this
    {
      Mem(log, queue, pending)
    }

    ghost function Inputs(): seq<Input>
      reads this
    {
      InputsOf(log, |log|)
    }

    /** A send reaches the channel, or somebody else writes. */
    method Arrive(input: Input)
      requires Valid()
      modifies this`queue, this`log, store
      ensures Valid() && log == old(log) + [Arrived(input)]
      ensures Inputs() == old(Inputs()) + [input]
      ensures queue == old(queue) + if input.Send? then [input.op] else []
    {
      hide Did, FlushedBy, InOrder;
      ArrivedLog(start, log, input);
      match input {
        case Send(op) => queue := queue + [op];
        case Act(other) => Interfere(store, other);
      }
      log := log + [Arrived(input)];
      assert old(InFlight()) + [] == old(InFlight());
      assert SendsOf(log, |log|) == resolved + InFlight();
    }

    /** The pending operations as one batch: each is resolved with its flush's result. */
    method FlushPending(plan: Plan)
      requires Valid()
      modifies this`pending, this`resolved, this`results, this`log, store
      ensures Valid() && pending == [] && Inputs() == old(Inputs())
      ensures log == old(log) + if old(pending) == [] then [] else [Flushed(old(pending), plan)]
      ensures resolved == old(resolved) + old(pending)
    {
      hide FlushedBy, ResultsBy, InOrder;
      if pending == [] {
        return;
      }
      FlushedLog(start, log, pending, plan, queue);
      var rs := FlushBatch(store, pending, plan);
      resolved, results, pending := resolved + pending, results + rs, [];
      log := log + [Flushed(old(pending), plan)];
      assert resolved + InFlight() == old(resolved) + old(InFlight());
    }

    method Take()
      requires Valid() && queue != []
      modifies this`queue, this`pending
      ensures Valid() && pending == old(pending) + [old(queue)[0]] && queue == old(queue)[1..]
    {
      hide World, FlushesOf, ToldOf, SendsOf, InOrder, InputsOf;
      OneTaken(pending, queue);
      pending, queue := pending + [queue[0]], queue[1..];
    }

    /** One wake-up of the select before the stop is one step of the machine. */
    method Wakeup(wake: Wake, plan: Plan)
      requires Valid()
      modifies this, store
      ensures Valid() && Machine() == Woken(old(Machine()), wake, plan, maxSize)
      ensures Inputs() == old(Inputs()) + if wake.From? then [wake.input] else []
    {
      hide World, FlushesOf, ToldOf, SendsOf, InOrder, InputsOf;
      assert old(Inputs()) + [] == old(Inputs()) && queue + [] == queue && log + [] == log;
      match wake {
        case From(input) =>
          Arrive(input);
        case Receive =>
          if queue != [] {
            Take();
            if |pending| >= maxSize {
              FlushPending(plan);
            }
          }
        case Tick =>
          FlushPending(plan);
      }
    }

    /** One poll of the drain, after the inputs that got in before it: it takes the oldest
        operation, or finds the channel empty. */
    method Poll(late: seq<Input>) returns (empty: bool)
      requires Valid()
      modifies this`queue, this`pending, this`log, store
      ensures Valid() && Inputs() == old(Inputs()) + late && log == old(log) + Arrivals(late)
      ensures var found := old(queue) + SendsIn(late, |late|);
              && (empty <==> found == [])
              && (empty ==> queue == [] && pending == old(pending))
              && (!empty ==> queue == found[1..] && pending == old(pending) + [found[0]])
    {
      hide World, FlushesOf, ToldOf, SendsOf, InOrder, InputsOf, SendsIn;
      NothingSent(late);
      for i := 0 to |late|
        invariant Valid() && Inputs() == old(Inputs()) + late[..i] && pending == old(pending)
        invariant queue == old(queue) + SendsIn(late, i) && log == old(log) + Arrivals(late[..i])
      {
        Arrive(late[i]);
        OneMoreSent(old(queue), late, i);
        ArrivalsSum(late[..i], [late[i]]);
        assert late[..i + 1] == late[..i] + [late[i]];
      }
      assert late[..|late|] == late;
      empty := queue == [];
      if !empty {
        Take();
      }
    }

    /** The drain: take everything already submitted, until a poll finds the channel empty. */
    method Drain(late: seq<seq<Input>>) returns (polls: nat)
      requires Valid()
      modifies this`queue, this`pending, this`log, store
      ensures Valid() && polls == DrainPolls(|old(queue)|, late, 0)
      ensures Machine() == Drained(old(Machine()), Late(late, polls))
      ensures Inputs() == old(Inputs()) + Late(late, polls)
    {
      hide World, FlushesOf, ToldOf, SendsOf, InOrder, InputsOf, SendsIn, Drained, Draining;
      polls := 0;
      ghost var most := DrainPolls(|queue|, late, 0);
      DrainBegins(Machine(), late);
      var empty := false;
      while !empty
        invariant Valid() && polls <= |late| && (empty ==> queue == [])
        invariant if empty then polls == most else DrainPolls(|queue|, late, polls) == most
        invariant Draining(old(Machine()), Machine(), Late(late, polls))
        invariant Inputs() == old(Inputs()) + Late(late, polls)
        decreases !empty, |late| - polls, |queue|
      {
        ghost var m := Machine();
        if polls < |late| {
          empty := Poll(late[polls]);
          OnePoll(m.pending, m.queue, SendsIn(late[polls], |late[polls]|), pending, queue);
          DrainStep(old(Machine()), m, Machine(), Late(late, polls), late[polls]);
          polls := polls + 1;
        } else {
          empty := Poll([]);
          OnePoll(m.pending, m.queue, SendsIn([], 0), pending, queue);
          DrainStep(old(Machine()), m, Machine(), Late(late, polls), []);
          assert Late(late, polls) + [] == Late(late, polls);
        }
      }
      DrainEnds(old(Machine()), Machine(), Late(late, polls));
    }

    /** The loop, from an idle batcher to Stop: a script of wake-ups, then the stop signal
        and the drain, during which submitters that lost the race to the stop may still get
        sends in before each poll. The machine goes exactly through the script and the stop;
        the tables are what the log's flushes and the others' writes make of them; everything
        sent was flushed, once, in order, and got the result of its flush; and if every
        operation's claim had been handed out when it was sent, whoever was told "recorded"
        has the claim released on disk. */
    method Loop(script: seq<Wake>, late: seq<seq<Input>>, plans: nat -> Plan) returns (polls: nat)
      requires Valid() && Machine() == Mem([], [], [])
      modifies this, store
      ensures Valid() && Machine() == Stopped(script, late, plans, maxSize)
      ensures InFlight() == [] && polls == DrainPolls(|Looped(script, plans, maxSize, |script|).queue|, late, 0)
      ensures Inputs() == Scripted(script, |script|) + Late(late, polls)
      ensures store.View() == World(start, log, |log|)
      ensures resolved == FlushesOf(log, |log|) == SendsOf(log, |log|) && results == ToldOf(start, log, |log|)
      ensures Sound(start, log, |log|) ==> Honest(store.jobs, resolved, results)
    {
      hide World, FlushesOf, ToldOf, SendsOf, InOrder, Sound, Honest, Woken, Drained;
      for i := 0 to |script|
        invariant Valid() && Inputs() == Scripted(script, i)
        invariant Machine() == Looped(script, plans, maxSize, i)
      {
        Wakeup(script[i], plans(i));
      }
      ghost var m := Machine();
      polls := Drain(late);
      NothingWaits(m, Late(late, polls));
      assert log + [] == log;
      FlushPending(plans(|script|));
      assert resolved + InFlight() == resolved;
      if Sound(start, log, |log|) {
        LogIsHonest(start, log, |log|);
      }
    }
  }

  lemma NothingSent(inputs: seq<Input>)
    ensures SendsIn(inputs, 0) == [] && Arrivals(inputs[..0]) == []
  {
  }

  lemma OneMoreSent(queue: seq<RecOp>, inputs: seq<Input>, i: nat)
    requires i < |inputs|
    ensures queue + SendsIn(inputs, i) + Sends(inputs[i]) == queue + SendsIn(inputs, i + 1)
    ensures Arrivals([inputs[i]]) == [Arrived(inputs[i])]
  {
  }

  /** Part-way through a drain. */
  ghost predicate Draining(m: Mem, now: Mem, inputs: seq<Input>) {
    && now.log == m.log + Arrivals(inputs)
    && now.pending + now.queue == m.pending + m.queue + SendsIn(inputs, |inputs|)
  }

  lemma DrainBegins(m: Mem, late: seq<seq<Input>>)
    ensures Draining(m, m, Late(late, 0))
  {
  }

  lemma DrainStep(m: Mem, now: Mem, next: Mem, inputs: seq<Input>, more: seq<Input>)
    requires Draining(m, now, inputs) && next.log == now.log + Arrivals(more)
    requires next.pending + next.queue == now.pending + (now.queue + SendsIn(more, |more|))
    ensures Draining(m, next, inputs + more)
  {
    hide SendsIn, Arrivals;
    SendsInAll(inputs, more);
    ArrivalsSum(inputs, more);
    Regroup(m.log, Arrivals(inputs), Arrivals(more));
    Extend(now.pending, now.queue, m.pending + m.queue, SendsIn(inputs, |inputs|), SendsIn(more, |more|));
  }

  lemma SendsInAll(inputs: seq<Input>, more: seq<Input>)
    ensures SendsIn(inputs + more, |inputs + more|) == SendsIn(inputs, |inputs|) + SendsIn(more, |more|)
  {
    SendsInSum(inputs, more, |more|);
  }

  lemma OnePoll(pending: seq<RecOp>, queue: seq<RecOp>, sent: seq<RecOp>, pending': seq<RecOp>, queue': seq<RecOp>)
    requires var found := queue + sent;
             if found == [] then queue' == [] && pending' == pending
             else queue' == found[1..] && pending' == pending + [found[0]]
    ensures pending' + queue' == pending + (queue + sent)
  {
  }

  lemma Extend<T>(a: seq<T>, b: seq<T>, c: seq<T>, d: seq<T>, more: seq<T>)
    requires a + b == c + d
    ensures a + (b + more) == c + (d + more)
  {
    Regroup(a, b, more);
    Regroup(c, d, more);
  }

  lemma Regroup<T>(a: seq<T>, b: seq<T>, c: seq<T>)
    ensures a + b + c == a + (b + c)
  {
  }

  lemma DrainEnds(m: Mem, now: Mem, inputs: seq<Input>)
    requires Draining(m, now, inputs) && now.queue == []
    ensures now == Drained(m, inputs)
  {
    assert now.pending + [] == now.pending;
  }

  lemma NothingWaits(m: Mem, inputs: seq<Input>)
    ensures Drained(m, inputs).queue == []
  {
  }

  lemma OneTaken(pending: seq<RecOp>, queue: seq<RecOp>)
    requires queue != []
    ensures pending + [queue[0]] + queue[1..] == pending + queue
  {
  }

  lemma ArrivedLog(start: Tables, log: seq<Deed>, input: Input)
    requires InOrder(log, |log|)
    ensures var log' := log + [Arrived(input)];
            && World(start, log', |log'|) == (if input.Send? then World(start, log, |log|) else Did(World(start, log, |log|), input.other))
            && FlushesOf(log', |log'|) == FlushesOf(log, |log|) && ToldOf(start, log', |log'|) == ToldOf(start, log, |log|)
            && SendsOf(log', |log'|) == SendsOf(log, |log|) + (if input.Send? then [input.op] else [])
            && InputsOf(log', |log'|) == InputsOf(log, |log|) + [input] && InOrder(log', |log'|)
  {
    hide FlushedBy, Did, ResultsBy;
    InOrderGrows(start, log, Arrived(input));
    LogPrefix(start, log, Arrived(input), |log|);
  }

  lemma FlushedLog(start: Tables, log: seq<Deed>, ops: seq<RecOp>, plan: Plan, rest: seq<RecOp>)
    requires InOrder(log, |log|) && SendsOf(log, |log|) == FlushesOf(log, |log|) + (ops + rest)
    ensures var log', t := log + [Flushed(ops, plan)], World(start, log, |log|);
            && World(start, log', |log'|) == FlushedBy(t, ops, plan)
            && FlushesOf(log', |log'|) == FlushesOf(log, |log|) + ops
            && ToldOf(start, log', |log'|) == ToldOf(start, log, |log|) + ResultsBy(t, ops, plan)
            && SendsOf(log', |log'|) == SendsOf(log, |log|)
            && InputsOf(log', |log'|) == InputsOf(log, |log|) && InOrder(log', |log'|)
  {
    hide FlushedBy, Did, ResultsBy;
    LogPrefix(start, log, Flushed(ops, plan), |log|);
    InOrderGrows(start, log, Flushed(ops, plan));
  }

  lemma InOrderGrows(start: Tables, log: seq<Deed>, d: Deed)
    requires InOrder(log, |log|)
    requires d.Flushed? ==> FlushesOf(log, |log|) + d.ops <= SendsOf(log, |log|)
    ensures InOrder(log + [d], |log + [d]|)
  {
    hide World, ToldOf, InputsOf, SendsOf, FlushesOf;
    var log' := log + [d];
    forall i | 0 <= i <= |log'| ensures FlushesOf(log', i) <= SendsOf(log', i) {
      if i <= |log| {
        LogPrefix(start, log, d, i);
        assert FlushesOf(log, i) <= SendsOf(log, i);
      } else {
        InOrderLast(start, log, d);
      }
    }
  }

  lemma InOrderLast(start: Tables, log: seq<Deed>, d: Deed)
    requires FlushesOf(log, |log|) <= SendsOf(log, |log|)
    requires d.Flushed? ==> FlushesOf(log, |log|) + d.ops <= SendsOf(log, |log|)
    ensures FlushesOf(log + [d], |log + [d]|) <= SendsOf(log + [d], |log + [d]|)
  {
    LogPrefix(start, log, d, |log|);
  }
}
