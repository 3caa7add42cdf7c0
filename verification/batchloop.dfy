/** The channel loop of the batcher as a machine: what it has logged, what waits in the
    channel, and what it has taken and not flushed yet. Each wake-up of its select is one
    step; a stop drains the channel and flushes once more. */
module BatchLoop {
  import opened Common
  import opened Tables
  import opened BatchLog

  /** What happens next: an input from outside, or the loop's own receive or ticker. */
  datatype Wake = From(input: Input) | Receive | Tick

  datatype Mem = Mem(log: seq<Deed>, queue: seq<RecOp>, pending: seq<RecOp>)

  /** The operations an input sends. */
  function Sends(input: Input): seq<RecOp> {
    if input.Send? then [input.op] else []
  }

  function SendsIn(inputs: seq<Input>, k: nat): seq<RecOp>
    requires k <= |inputs|
  {
    if k == 0 then [] else SendsIn(inputs, k - 1) + Sends(inputs[k - 1])
  }

  function Arrivals(inputs: seq<Input>): seq<Deed> {
    seq(|inputs|, i requires 0 <= i < |inputs| => Arrived(inputs[i]))
  }

  function Flushing(m: Mem, plan: Plan): Mem {
    if m.pending == [] then m else Mem(m.log + [Flushed(m.pending, plan)], m.queue, [])
  }

  /** One wake-up: an input only arrives, the ticker flushes whatever is pending, and a
      receive flushes once the batch is full. */
  function Woken(m: Mem, wake: Wake, plan: Plan, maxSize: nat): Mem {
    match wake
    case From(input) => Mem(m.log + [Arrived(input)], m.queue + Sends(input), m.pending)
    case Tick => Flushing(m, plan)
    case Receive =>
      if m.queue == [] then m
      else
        var taken := Mem(m.log, m.queue[1..], m.pending + [m.queue[0]]);
        if |taken.pending| >= maxSize then Flushing(taken, plan) else taken
  }

  /** After the first k wake-ups of a script. */
  function Looped(script: seq<Wake>, plans: nat -> Plan, maxSize: nat, k: nat): Mem
    requires k <= |script|
  {
    if k == 0 then Mem([], [], []) else Woken(Looped(script, plans, maxSize, k - 1), script[k - 1], plans(k - 1), maxSize)
  }

  /** How many polls the drain makes before one finds the channel empty, the i-th of them
      after the i-th group of late inputs; beyond the last group only polls remain. */
  function DrainPolls(waiting: nat, late: seq<seq<Input>>, i: nat): (polls: nat)
    requires i <= |late|
    ensures i <= polls <= |late|
    decreases |late| - i
  {
    if i == |late| then i
    else
      var found := waiting + |SendsIn(late[i], |late[i]|)|;
      if found == 0 then i + 1 else DrainPolls(found - 1, late, i + 1)
  }

  /** Everything that arrives before the first k polls of the drain. */
  function Late(late: seq<seq<Input>>, k: nat): seq<Input>
    requires k <= |late|
  {
    if k == 0 then [] else Late(late, k - 1) + late[k - 1]
  }

  /** The drain takes what waits and what still arrives. */
  function Drained(m: Mem, inputs: seq<Input>): Mem {
    Mem(m.log + Arrivals(inputs), [], m.pending + m.queue + SendsIn(inputs, |inputs|))
  }

  /** After the stop: drained, and flushed once more. */
  function Stopped(script: seq<Wake>, late: seq<seq<Input>>, plans: nat -> Plan, maxSize: nat): Mem {
    var m := Looped(script, plans, maxSize, |script|);
    Flushing(Drained(m, Late(late, DrainPolls(|m.queue|, late, 0))), plans(|script|))
  }

  /** Before the stop the loop never holds a full batch between wake-ups, and no batch it
      flushes is larger than the limit: what is taken and not flushed never exceeds it. */
  lemma {:induction false} PendingBounded(script: seq<Wake>, plans: nat -> Plan, maxSize: nat, k: nat)
    requires k <= |script|
    ensures |Looped(script, plans, maxSize, k).pending| < Max(1, maxSize)
    ensures forall d :: d in Looped(script, plans, maxSize, k).log && d.Flushed? ==> 1 <= |d.ops| <= Max(1, maxSize)
  {
    hide Woken;
    if k > 0 {
      PendingBounded(script, plans, maxSize, k - 1);
      WokenBounded(Looped(script, plans, maxSize, k - 1), script[k - 1], plans(k - 1), maxSize);
    }
  }

  lemma WokenBounded(m: Mem, wake: Wake, plan: Plan, maxSize: nat)
    requires |m.pending| < Max(1, maxSize)
    ensures |Woken(m, wake, plan, maxSize).pending| < Max(1, maxSize)
    ensures forall d :: d in Woken(m, wake, plan, maxSize).log && d.Flushed? ==> d in m.log || 1 <= |d.ops| <= Max(1, maxSize)
  {
  }

  /** When the loop flushes, exactly: a tick with something pending, or a receive that fills
      the batch. It then flushes everything it has taken. */
  lemma FlushesWhenDue(script: seq<Wake>, plans: nat -> Plan, maxSize: nat, k: nat)
    requires k < |script|
    ensures var m, m' := Looped(script, plans, maxSize, k), Looped(script, plans, maxSize, k + 1);
            var full := script[k].Receive? && m.queue != [] && |m.pending| + 1 >= maxSize;
            var due := script[k].Tick? && m.pending != [];
            && m.log <= m'.log
            && (full || due <==> exists d :: d in m'.log[|m.log|..] && d.Flushed?)
            && (full ==> m'.log == m.log + [Flushed(m.pending + [m.queue[0]], plans(k))])
            && (due ==> m'.log == m.log + [Flushed(m.pending, plans(k))])
            && (full || script[k].Tick? ==> m'.pending == [])
  {
    var m, m' := Looped(script, plans, maxSize, k), Looped(script, plans, maxSize, k + 1);
    var full := script[k].Receive? && m.queue != [] && |m.pending| + 1 >= maxSize;
    if full || (script[k].Tick? && m.pending != []) {
      assert m'.log[|m.log|] in m'.log[|m.log|..];
    }
  }

  /** No operation is lost or reordered: what was sent is what was flushed, then what is held,
      then what waits. */
  lemma {:induction false} NothingLost(script: seq<Wake>, plans: nat -> Plan, maxSize: nat, k: nat)
    requires k <= |script|
    ensures var m := Looped(script, plans, maxSize, k);
            SendsOf(m.log, |m.log|) == FlushesOf(m.log, |m.log|) + m.pending + m.queue
  {
    hide Woken, SendsOf, FlushesOf;
    if k == 0 {
      NothingLogged();
    } else {
      NothingLost(script, plans, maxSize, k - 1);
      WokenLosesNothing(Looped(script, plans, maxSize, k - 1), script[k - 1], plans(k - 1), maxSize);
    }
  }

  lemma NothingLogged()
    ensures SendsOf([], 0) == [] && FlushesOf([], 0) == []
  {
  }

  lemma WokenLosesNothing(m: Mem, wake: Wake, plan: Plan, maxSize: nat)
    requires SendsOf(m.log, |m.log|) == FlushesOf(m.log, |m.log|) + m.pending + m.queue
    ensures var m' := Woken(m, wake, plan, maxSize);
            SendsOf(m'.log, |m'.log|) == FlushesOf(m'.log, |m'.log|) + m'.pending + m'.queue
  {
    match wake {
      case From(input) =>
        LogGrows(m.log, Arrived(input));
        assert FlushesOf(m.log, |m.log|) + [] == FlushesOf(m.log, |m.log|);
        assert FlushesOf(m.log, |m.log|) + m.pending + m.queue + Sends(input) == FlushesOf(m.log, |m.log|) + m.pending + (m.queue + Sends(input));
      case Tick =>
        FlushingLosesNothing(m, plan);
      case Receive =>
        if m.queue != [] {
          var taken := Mem(m.log, m.queue[1..], m.pending + [m.queue[0]]);
          assert taken.pending + taken.queue == m.pending + m.queue;
          assert FlushesOf(m.log, |m.log|) + m.pending + m.queue == FlushesOf(m.log, |m.log|) + taken.pending + taken.queue;
          FlushingLosesNothing(taken, plan);
        }
    }
  }

  lemma FlushingLosesNothing(m: Mem, plan: Plan)
    requires SendsOf(m.log, |m.log|) == FlushesOf(m.log, |m.log|) + m.pending + m.queue
    ensures var m' := Flushing(m, plan);
            SendsOf(m'.log, |m'.log|) == FlushesOf(m'.log, |m'.log|) + m'.pending + m'.queue
  {
    LogGrows(m.log, Flushed(m.pending, plan));
    assert SendsOf(m.log, |m.log|) + [] == SendsOf(m.log, |m.log|);
    assert FlushesOf(m.log, |m.log|) + m.pending + [] == FlushesOf(m.log, |m.log|) + m.pending;
  }

  const EMPTY := Tables(map[], map[], [])

  lemma LogGrows(log: seq<Deed>, d: Deed)
    ensures var log' := log + [d];
            && SendsOf(log', |log'|) == SendsOf(log, |log|) + (if d.Arrived? then Sends(d.input) else [])
            && FlushesOf(log', |log'|) == FlushesOf(log, |log|) + (if d.Flushed? then d.ops else [])
  {
    LogPrefix(EMPTY, log, d, |log|);
  }

  // ------------------------------------------------------------------ sums

  lemma {:induction false} SendsInPrefix(inputs: seq<Input>, more: seq<Input>, k: nat)
    requires k <= |inputs|
    ensures SendsIn(inputs + more, k) == SendsIn(inputs, k)
  {
    if k > 0 {
      SendsInPrefix(inputs, more, k - 1);
    }
  }

  lemma {:induction false} SendsInSum(inputs: seq<Input>, more: seq<Input>, k: nat)
    requires k <= |more|
    ensures SendsIn(inputs + more, |inputs| + k) == SendsIn(inputs, |inputs|) + SendsIn(more, k)
  {
    if k == 0 {
      SendsInPrefix(inputs, more, |inputs|);
    } else {
      SendsInSum(inputs, more, k - 1);
      assert (inputs + more)[|inputs| + k - 1] == more[k - 1];
    }
  }

  lemma ArrivalsSum(inputs: seq<Input>, more: seq<Input>)
    ensures Arrivals(inputs + more) == Arrivals(inputs) + Arrivals(more)
  {
  }
}
