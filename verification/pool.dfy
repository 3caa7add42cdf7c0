/** The bounded worker pool (internal/worker/pool.go): one dispatch loop, completions and
    resizes arriving between any two of its steps. */
module Pools {
  import opened Common

  type Item = int

  /** What other goroutines do between two steps of the loop. */
  datatype Event = Complete(item: Item) | SetTarget(n: int) | SetPaused(v: bool)

  /** One iteration as the world interleaves with it: between the two atomic loads, while
      the fetch is out, and after each start (or, as after(0), while waiting). */
  datatype Turn = Turn(atLoad: seq<Event>, atFetch: seq<Event>, after: nat -> seq<Event>)

  const MAX_ERR_BACKOFF := 5000
  const ERR_BACKOFF_STEP := 500

  /** FetchFunc honours its max. */
  ghost predicate Honours(fetch: (nat, int) -> Option<seq<Item>>) {
    forall i, n :: fetch(i, n).Some? ==> |fetch(i, n).value| <= Max(0, n)
  }

  /** The pause after fetch errors grows in steps up to its cap. */
  predicate Paced(errBackoff: int) {
    0 <= errBackoff <= MAX_ERR_BACKOFF && errBackoff % ERR_BACKOFF_STEP == 0
  }

  /** The largest target among the start and all targets stored by the first k events. */
  function Highest(events: seq<Event>, k: nat, start: int): int
    requires k <= |events|
  {
    if k == 0 then start
    else
      var before := Highest(events, k - 1, start);
      if events[k - 1].SetTarget? then Max(before, Max(1, events[k - 1].n)) else before
  }

  /** The target the first k events leave. */
  function Latest(events: seq<Event>, k: nat, start: int): int
    requires k <= |events|
  {
    if k == 0 then start
    else if events[k - 1].SetTarget? then Max(1, events[k - 1].n) else Latest(events, k - 1, start)
  }

  /** What is still running after the first k events; a completion of something that is not
      running cannot happen. */
  function Remaining(events: seq<Event>, k: nat, running: multiset<Item>): multiset<Item>
    requires k <= |events|
  {
    if k == 0 then running
    else
      var before := Remaining(events, k - 1, running);
      if events[k - 1].Complete? && events[k - 1].item in before then before - multiset{events[k - 1].item} else before
  }

  /** Whether the first k events leave the pool paused. */
  function PausedAfter(events: seq<Event>, k: nat, start: bool): bool
    requires k <= |events|
  {
    if k == 0 then start else if events[k - 1].SetPaused? then events[k - 1].v else PausedAfter(events, k - 1, start)
  }

  /** What the loop's decisions depend on. */
  datatype Snapshot = Snapshot(paused: bool, target: int, running: multiset<Item>)

  function After(s: Snapshot, events: seq<Event>, k: nat): Snapshot
    requires k <= |events|
  {
    Snapshot(PausedAfter(events, k, s.paused), Latest(events, k, s.target), Remaining(events, k, s.running))
  }

  function AfterAll(s: Snapshot, events: seq<Event>): Snapshot {
    After(s, events, |events|)
  }

  /** After the first k starts of a dispatch, each with the events that follow it. */
  function Dispatched(s: Snapshot, items: seq<Item>, after: nat -> seq<Event>, k: nat): Snapshot
    requires k <= |items|
  {
    if k == 0 then s
    else
      var before := Dispatched(s, items, after, k - 1);
      AfterAll(before.(running := before.running + multiset{items[k - 1]}), after(k - 1))
  }

  /** What an iteration asks for: the target is read before the active count. */
  function AskOf(turn: Turn, s: Snapshot, batchMax: int): Option<int> {
    Asked(s.paused, s.target, |AfterAll(s, turn.atLoad).running|, batchMax)
  }

  /** Where an iteration leaves the pool. */
  function Turned(turn: Turn, fetch: (nat, int) -> Option<seq<Item>>, i: nat, s: Snapshot, batchMax: int): Snapshot {
    var asked := AskOf(turn, s, batchMax);
    if s.paused then AfterAll(s, turn.after(0))
    else if asked.None? then AfterAll(AfterAll(s, turn.atLoad), turn.after(0))
    else Fetched(AfterAll(s, turn.atLoad), turn, fetch(i, asked.value))
  }

  function Fetched(s: Snapshot, turn: Turn, deliveries: Option<seq<Item>>): Snapshot {
    var back := AfterAll(s, turn.atFetch);
    if deliveries.None? then AfterAll(back, turn.after(0))
    else Dispatched(back, deliveries.value, turn.after, |deliveries.value|)
  }

  /** After the first k iterations. */
  function TurnedAll(turns: seq<Turn>, fetch: (nat, int) -> Option<seq<Item>>, s: Snapshot, batchMax: int, k: nat): Snapshot
    requires k <= |turns|
  {
    if k == 0 then s else Turned(turns[k - 1], fetch, k - 1, TurnedAll(turns, fetch, s, batchMax, k - 1), batchMax)
  }

  /** The events of k starts. */
  function Starts(after: nat -> seq<Event>, k: nat): seq<Event> {
    if k == 0 then [] else Starts(after, k - 1) + after(k - 1)
  }

  /** What the loop asks for: nothing while paused or full, otherwise the free slots up to
      the batch size. */
  function Asked(paused: bool, target: int, active: int, batchMax: int): Option<int> {
    if paused || target - active <= 0 then None else Some(Min(target - active, batchMax))
  }

  /** The pool uses its free slots: it asks exactly while it is not paused and fewer run than
      the target, and then for a full batch or for all that is free. */
  lemma FreeSlotsAreUsed(turn: Turn, s: Snapshot, batchMax: int)
    ensures var asked, busy := AskOf(turn, s, batchMax), |AfterAll(s, turn.atLoad).running|;
            && (asked.Some? <==> !s.paused && busy < s.target)
            && (asked.Some? ==>
                  && asked.value <= batchMax && busy + asked.value <= s.target
                  && (asked.value == batchMax || busy + asked.value == s.target)
                  && (batchMax >= 1 ==> asked.value >= 1))
  {
  }

  lemma FreeSlotsAreAlwaysUsed(turns: seq<Turn>, fetch: (nat, int) -> Option<seq<Item>>, start: Snapshot, batchMax: int,
                               asks: seq<Option<int>>)
    requires |asks| == |turns|
    requires forall i :: 0 <= i < |turns| ==> asks[i] == AskOf(turns[i], TurnedAll(turns, fetch, start, batchMax, i), batchMax)
    ensures forall i :: 0 <= i < |turns| ==>
              var s := TurnedAll(turns, fetch, start, batchMax, i);
              var busy := |AfterAll(s, turns[i].atLoad).running|;
              && (asks[i].Some? <==> !s.paused && busy < s.target)
              && (asks[i].Some? ==>
                    && asks[i].value <= batchMax && busy + asks[i].value <= s.target
                    && (asks[i].value == batchMax || busy + asks[i].value == s.target)
                    && (batchMax >= 1 ==> asks[i].value >= 1))
  {
    hide AskOf, AfterAll, TurnedAll;
    forall i | 0 <= i < |turns| {
      FreeSlotsAreUsed(turns[i], TurnedAll(turns, fetch, start, batchMax, i), batchMax);
    }
  }

  /** What an ask brings back; an error brings nothing. */
  function Got(fetch: (nat, int) -> Option<seq<Item>>, i: nat, asked: Option<int>): seq<Item> {
    if asked.None? || fetch(i, asked.value).None? then [] else fetch(i, asked.value).value
  }

  /** Everything the first k iterations brought back. */
  function GotAll(fetch: (nat, int) -> Option<seq<Item>>, asks: seq<Option<int>>, k: nat): seq<Item>
    requires k <= |asks|
  {
    if k == 0 then [] else GotAll(fetch, asks, k - 1) + Got(fetch, k - 1, asks[k - 1])
  }

  /** The events of one iteration. */
  function During(turn: Turn, fetch: (nat, int) -> Option<seq<Item>>, i: nat, paused: bool, asked: Option<int>): seq<Event> {
    if paused then turn.after(0)
    else if asked.None? then turn.atLoad + turn.after(0)
    else turn.atLoad + DuringFetch(turn, fetch(i, asked.value))
  }

  function DuringFetch(turn: Turn, deliveries: Option<seq<Item>>): seq<Event> {
    turn.atFetch + if deliveries.None? then turn.after(0) else Starts(turn.after, |deliveries.value|)
  }

  /** The events of the first k iterations. */
  function DuringAll(turns: seq<Turn>, fetch: (nat, int) -> Option<seq<Item>>, pauses: seq<bool>, asks: seq<Option<int>>,
                     k: nat): seq<Event>
    requires k <= |turns| && k <= |asks| == |pauses|
  {
    if k == 0 then []
    else DuringAll(turns, fetch, pauses, asks, k - 1) + During(turns[k - 1], fetch, k - 1, pauses[k - 1], asks[k - 1])
  }

  class Pool {
    const batchMax: int
    var target: int
    var active: int
    var processed: nat
    var paused: bool
    // the deliveries behind the two counters, the largest target ever stored, and the
    // largest number of deliveries ever running at once
    var running: multiset<Item>
    var finished: multiset<Item>
    var largest: int
    var peak: int
    // the target the pool began with, and every event since
    ghost const initial: int
    ghost var happened: seq<Event>

    constructor (initial: int, batchMax: int)
      ensures Valid() && target == largest == initial == this.initial && this.batchMax == batchMax
      ensures running == multiset{} && finished == multiset{} && peak == 0 && !paused && happened == []
    {
      this.batchMax, target, largest, this.initial := batchMax, initial, initial, initial;
      active, processed, paused, peak := 0, 0, false, 0;
      running, finished, happened := multiset{}, multiset{}, [];
    }

    /** The counters count, the target is the last one stored, and at no moment did more
        deliveries run than the largest target stored by then. */
    ghost predicate Valid()
      reads this
    {
      && active == |running| && processed == |finished|
      && target == Latest(happened, |happened|, initial)
      && largest == Highest(happened, |happened|, initial)
      && target <= largest && active <= peak <= Max(0, largest)
    }

    ghost function State(): Snapshot
      reads this
    {
      Snapshot(paused, target, running)
    }

    /** Every delivery ever started, running or done. */
    ghost function Started(): multiset<Item>
      reads this
    {
      running + finished
    }

    /** A delivery finishes, if it was running. */
    method Complete(item: Item)
      requires Valid()
      modifies this`active, this`processed, this`running, this`finished
      ensures Started() == old(Started()) && |running| == active && |finished| == processed
      ensures running == Remaining([Event.Complete(item)], 1, old(running)) && active <= old(active)
      ensures running == if item in old(running) then old(running) - multiset{item} else old(running)
    {
      OnlyEvent(Event.Complete(item), running);
      if item in running {
        OneDone(running, finished, item);
        running, finished := running - multiset{item}, finished + multiset{item};
        active, processed := active - 1, processed + 1;
      }
    }

    method SetTarget(n: int)
      modifies this`target, this`largest
      ensures target == Max(1, n) && largest == Max(old(largest), target)
    {
      target := Max(1, n);
      largest := Max(largest, target);
    }

    /** What an event does to the counters, the target and the flag. */
    method Apply(e: Event)
      requires Valid()
      modifies this`active, this`processed, this`running, this`finished, this`target, this`largest, this`paused
      ensures active == |running| && processed == |finished| && active <= old(active) && Started() == old(Started())
      ensures running == if e.Complete? && e.item in old(running) then old(running) - multiset{e.item} else old(running)
      ensures target == if e.SetTarget? then Max(1, e.n) else old(target)
      ensures largest == if e.SetTarget? then Max(old(largest), Max(1, e.n)) else old(largest)
      ensures paused == if e.SetPaused? then e.v else old(paused)
    {
      hide Highest, Latest, Remaining, PausedAfter;
      match e {
        case Complete(item) => Complete(item);
        case SetTarget(n) => SetTarget(n);
        case SetPaused(v) => paused := v;
      }
    }

    /** One event. */
    method Happen(e: Event)
      requires Valid()
      modifies this
      ensures Valid() && happened == old(happened) + [e] && Started() == old(Started()) && peak == old(peak)
      ensures running == Remaining([e], 1, old(running)) && active <= old(active)
      ensures !e.SetTarget? ==> largest == old(largest)
      ensures State() == AfterAll(old(State()), [e])
      ensures running == if e.Complete? && e.item in old(running) then old(running) - multiset{e.item} else old(running)
      ensures target == if e.SetTarget? then Max(1, e.n) else old(target)
      ensures paused == if e.SetPaused? then e.v else old(paused)
    {
      hide Highest, Latest, Remaining, AfterAll, PausedAfter, After;
      OnlyThis(State(), e);
      OnlyEvent(e, running);
      OneMoreEvent(happened, e, initial);
      Apply(e);
      happened := happened + [e];
    }

    method Meanwhile(events: seq<Event>)
      requires Valid()
      modifies this
      ensures Valid() && happened == old(happened) + events && Started() == old(Started()) && peak == old(peak)
      ensures State() == AfterAll(old(State()), events) && active <= old(active) && largest >= old(largest)
    {
      hide Latest, Remaining, After, AfterAll, State;
      NoEvents(events, State());
      for i := 0 to |events|
        invariant Valid() && happened == old(happened) + events[..i]
        invariant Started() == old(Started()) && peak == old(peak) && active <= old(active)
        invariant State() == After(old(State()), events, i)
      {
        OneMoreAfter(old(State()), events, i);
        Happen(events[i]);
        assert events[..i + 1] == events[..i] + [events[i]];
      }
      assert events[..|events|] == events;
      HighestOfSum(old(happened), events, |events|, initial);
      AllEvents(old(State()), events);
    }

    method Start(item: Item)
      requires Valid() && active < largest
      modifies this`active, this`running, this`peak
      ensures Valid() && Started() == old(Started()) + multiset{item}
      ensures State() == old(State()).(running := old(running) + multiset{item})
      ensures active == old(active) + 1 && peak == Max(old(peak), active)
    {
      active, running := active + 1, running + multiset{item};
      peak := Max(peak, active);
      assert Started() == old(Started()) + multiset{item};
    }

    /** Starts every fetched delivery; at no moment do more run than the bound allows. */
    method Dispatch(items: seq<Item>, after: nat -> seq<Event>, bound: int)
      requires Valid() && active + |items| <= bound <= largest
      modifies this
      ensures Valid() && Started() == old(Started()) + multiset(items)
      ensures happened == old(happened) + Starts(after, |items|)
      ensures State() == Dispatched(old(State()), items, after, |items|)
      ensures largest >= old(largest) && active <= bound && peak <= Max(old(peak), bound)
    {
      hide Highest, Latest, Remaining, Started, Starts, AfterAll, Dispatched, PausedAfter;
      NothingStarted(after);
      NothingDispatched(State(), items, after);
      for i := 0 to |items|
        invariant Valid() && Started() == old(Started()) + multiset(items[..i])
        invariant happened == old(happened) + Starts(after, i) && State() == Dispatched(old(State()), items, after, i)
        invariant active + |items| - i <= bound <= largest && largest >= old(largest) && peak <= Max(old(peak), bound)
      {
        Start(items[i]);
        OneMoreItem(old(Started()), items, i);
        OneMoreStart(old(happened), after, i);
        OneMoreDispatched(old(State()), items, after, i);
        Meanwhile(after(i));
      }
      assert items[..|items|] == items;
    }

    /** One iteration. It reads the target, then the active count; what it asks for is decided
        by the two; what it starts is exactly what that ask brought back; and while it starts
        them no more deliveries run than the target it read. */
    method Iterate(i: nat, turn: Turn, fetch: (nat, int) -> Option<seq<Item>>, errBackoff: int)
      returns (asked: Option<int>, backoff: int)
      requires Valid() && Honours(fetch) && Paced(errBackoff)
      modifies this
      ensures Valid() && Started() == old(Started()) + multiset(Got(fetch, i, asked)) && Paced(backoff)
      ensures asked == AskOf(turn, old(State()), batchMax)
      ensures var busy := |AfterAll(old(State()), turn.atLoad).running|;
              && (asked.Some? <==> !old(paused) && busy < old(target))
              && (asked.Some? ==>
                    && asked.value <= batchMax && busy + asked.value <= old(target)
                    && (asked.value == batchMax || busy + asked.value == old(target))
                    && (batchMax >= 1 ==> asked.value >= 1))
      ensures var brought := if asked.Some? && fetch(i, asked.value).Some? then fetch(i, asked.value).value else [];
              Started() == old(Started()) + multiset(brought)
      ensures State() == Turned(turn, fetch, i, old(State()), batchMax)
      ensures backoff == if asked.None? then errBackoff
                         else if fetch(i, asked.value).Some? then 0 else Min(5000, errBackoff + 500)
      ensures happened == old(happened) + During(turn, fetch, i, old(paused), asked)
      ensures asked.Some? ==> active <= old(target)
      ensures peak <= Max(old(peak), old(target)) && largest >= old(largest)
    {
      hide Highest, Latest, Remaining, Starts, Started, DuringFetch, AfterAll, Fetched;
      var read := target;
      asked, backoff := None, errBackoff;
      if paused {
        Meanwhile(turn.after(0));
        return;
      }
      Meanwhile(turn.atLoad);
      var free := read - active;
      if free <= 0 {
        Meanwhile(turn.after(0));
        return;
      }
      asked := Some(if free > batchMax then batchMax else free);
      backoff := Obtain(turn, fetch(i, asked.value), read, errBackoff);
    }

    /** The fetch comes back while others went on, and what it brought is started. */
    method Obtain(turn: Turn, deliveries: Option<seq<Item>>, read: int, errBackoff: int) returns (backoff: int)
      requires Valid() && Paced(errBackoff) && active <= read <= largest
      requires deliveries.Some? ==> active + |deliveries.value| <= read
      modifies this
      ensures Valid() && Paced(backoff) && happened == old(happened) + DuringFetch(turn, deliveries)
      ensures Started() == old(Started()) + multiset(if deliveries.None? then [] else deliveries.value)
      ensures active <= read && peak <= Max(old(peak), read) && largest >= old(largest)
      ensures State() == Fetched(old(State()), turn, deliveries)
      ensures backoff == if deliveries.Some? then 0 else Min(5000, errBackoff + 500)
    {
      hide Highest, Latest, Remaining, Starts, Started, AfterAll, Dispatched;
      backoff := errBackoff;
      Meanwhile(turn.atFetch);
      if deliveries.None? {
        if backoff < MAX_ERR_BACKOFF {
          backoff := backoff + ERR_BACKOFF_STEP;
        }
        Meanwhile(turn.after(0));
        assert old(happened) + turn.atFetch + turn.after(0) == old(happened) + DuringFetch(turn, deliveries);
        return;
      }
      backoff := 0;
      Dispatch(deliveries.value, turn.after, read);
      assert old(happened) + turn.atFetch + Starts(turn.after, |deliveries.value|) == old(happened) + DuringFetch(turn, deliveries);
    }

    /** The wait group: everything still in flight finishes. */
    method Wait()
      requires Valid()
      modifies this
      ensures Valid() && Started() == old(Started()) && running == multiset{} && active == 0 && largest == old(largest)
      ensures old(happened) <= happened && forall e :: e in happened[|old(happened)|..] ==> e.Complete?
    {
      hide Latest, Highest, Remaining, Started, PausedAfter;
      while true
        invariant Valid() && largest == old(largest) && Started() == old(Started())
        invariant old(happened) <= happened && forall e :: e in happened[|old(happened)|..] ==> e.Complete?
        decreases |running|
      {
        if item :| item in running {
          OnlyEvent(Event.Complete(item), running);
          Happen(Event.Complete(item));
        } else {
          break;
        }
      }
      assert forall item :: running[item] == 0;
    }

    /** The loop until the fetch context is cancelled, then the wait for everything in flight.
        Everything the asks brought back was started once and has finished once, nothing runs
        any more, and at no moment did more deliveries run than the largest target stored:
        the one the pool began with and those of the events of the iterations. */
    method Run(turns: seq<Turn>, fetch: (nat, int) -> Option<seq<Item>>)
      returns (asks: seq<Option<int>>, ghost pauses: seq<bool>)
      requires Valid() && Honours(fetch)
      modifies this
      ensures Valid() && |asks| == |pauses| == |turns| && active == 0 && running == multiset{}
      ensures forall i :: 0 <= i < |turns| ==>
                var s := TurnedAll(turns, fetch, old(State()), batchMax, i);
                asks[i] == AskOf(turns[i], s, batchMax) && pauses[i] == s.paused
      ensures forall i :: 0 <= i < |turns| ==>
                var s := TurnedAll(turns, fetch, old(State()), batchMax, i);
                var busy := |AfterAll(s, turns[i].atLoad).running|;
                && (asks[i].Some? <==> !s.paused && busy < s.target)
                && (asks[i].Some? ==>
                      && asks[i].value <= batchMax && busy + asks[i].value <= s.target
                      && (asks[i].value == batchMax || busy + asks[i].value == s.target)
                      && (batchMax >= 1 ==> asks[i].value >= 1))
      ensures finished == old(Started()) + multiset(GotAll(fetch, asks, |asks|)) && processed == |finished|
      ensures old(happened) + DuringAll(turns, fetch, pauses, asks, |turns|) <= happened
      ensures forall e :: e in happened[|old(happened) + DuringAll(turns, fetch, pauses, asks, |turns|)|..] ==> e.Complete?
      ensures peak <= Max(0, Highest(happened, |happened|, initial))
    {
      hide Highest, Latest, During, Got, Started, GotAll, DuringAll, Turned, AskOf, AfterAll, Remaining, PausedAfter;
      asks, pauses := [], [];
      NothingYet(turns, fetch);
      var errBackoff := 0;
      for i := 0 to |turns|
        invariant Valid() && |asks| == |pauses| == i && Paced(errBackoff)
        invariant State() == TurnedAll(turns, fetch, old(State()), batchMax, i)
        invariant forall j :: 0 <= j < i ==>
                    var s := TurnedAll(turns, fetch, old(State()), batchMax, j);
                    asks[j] == AskOf(turns[j], s, batchMax) && pauses[j] == s.paused
        invariant happened == old(happened) + DuringAll(turns, fetch, pauses, asks, i)
        invariant Started() == old(Started()) + multiset(GotAll(fetch, asks, i))
      {
        ghost var wasPaused := paused;
        var asked, backoff := Iterate(i, turns[i], fetch, errBackoff);
        OneMoreAsk(old(Started()), fetch, asks, asked);
        OneMoreTurn(old(happened), turns, fetch, pauses, asks, wasPaused, asked);
        asks, pauses, errBackoff := asks + [asked], pauses + [wasPaused], backoff;
      }
      Wait();
      NothingRuns();
      FreeSlotsAreAlwaysUsed(turns, fetch, old(State()), batchMax, asks);
    }

    lemma NothingRuns()
      requires running == multiset{}
      ensures Started() == finished
    {
    }
  }

  lemma OneMoreEvent(events: seq<Event>, e: Event, start: int)
    ensures Highest(events + [e], |events| + 1, start)
            == if e.SetTarget? then Max(Highest(events, |events|, start), Max(1, e.n)) else Highest(events, |events|, start)
    ensures Latest(events + [e], |events| + 1, start) == if e.SetTarget? then Max(1, e.n) else Latest(events, |events|, start)
  {
    SameSoFar(events, e, |events|, start);
  }

  lemma {:induction false} SameSoFar(events: seq<Event>, e: Event, k: nat, start: int)
    requires k <= |events|
    ensures Highest(events + [e], k, start) == Highest(events, k, start)
    ensures Latest(events + [e], k, start) == Latest(events, k, start)
  {
    if k > 0 {
      SameSoFar(events, e, k - 1, start);
    }
  }

  /** Later events only raise the largest target. */
  lemma {:induction false} HighestOfSum(events: seq<Event>, more: seq<Event>, k: nat, start: int)
    requires k <= |more|
    ensures Highest(events + more, |events| + k, start) >= Highest(events, |events|, start)
  {
    if k == 0 {
      HighestPrefix(events, more, |events|, start);
    } else {
      HighestOfSum(events, more, k - 1, start);
    }
  }

  lemma {:induction false} HighestPrefix(events: seq<Event>, more: seq<Event>, k: nat, start: int)
    requires k <= |events|
    ensures Highest(events + more, k, start) == Highest(events, k, start)
  {
    if k > 0 {
      HighestPrefix(events, more, k - 1, start);
    }
  }

  lemma OnlyEvent(e: Event, running: multiset<Item>)
    ensures Remaining([e], 1, running) == if e.Complete? && e.item in running then running - multiset{e.item} else running
  {
    assert Remaining([e], 0, running) == running;
  }

  lemma OnlyTarget(e: Event, target: int, paused: bool)
    ensures Latest([e], 1, target) == if e.SetTarget? then Max(1, e.n) else target
    ensures PausedAfter([e], 1, paused) == if e.SetPaused? then e.v else paused
  {
    assert Latest([e], 0, target) == target && PausedAfter([e], 0, paused) == paused;
  }

  lemma OnlyThis(s: Snapshot, e: Event)
    ensures AfterAll(s, [e]) == match e
              case Complete(item) => s.(running := if item in s.running then s.running - multiset{item} else s.running)
              case SetTarget(n) => s.(target := Max(1, n))
              case SetPaused(v) => s.(paused := v)
  {
    hide Remaining, Latest, PausedAfter;
    OnlyEvent(e, s.running);
    OnlyTarget(e, s.target, s.paused);
  }

  lemma NoEvents(events: seq<Event>, s: Snapshot)
    ensures After(s, events, 0) == s
  {
  }

  lemma AllEvents(s: Snapshot, events: seq<Event>)
    ensures After(s, events, |events|) == AfterAll(s, events)
  {
  }

  lemma OneMoreAfter(s: Snapshot, events: seq<Event>, i: nat)
    requires i < |events|
    ensures After(s, events, i + 1) == AfterAll(After(s, events, i), [events[i]])
  {
    hide Remaining;
    var before := After(s, events, i);
    OnlyEvent(events[i], before.running);
    OnlyTarget(events[i], before.target, before.paused);
    RemainsOneMore(events, i, s.running);
  }

  lemma RemainsOneMore(events: seq<Event>, i: nat, running: multiset<Item>)
    requires i < |events|
    ensures var before := Remaining(events, i, running);
            Remaining(events, i + 1, running)
            == if events[i].Complete? && events[i].item in before then before - multiset{events[i].item} else before
  {
  }

  lemma OneMoreAsk(started: multiset<Item>, fetch: (nat, int) -> Option<seq<Item>>, asks: seq<Option<int>>, asked: Option<int>)
    ensures started + multiset(GotAll(fetch, asks, |asks|)) + multiset(Got(fetch, |asks|, asked))
            == started + multiset(GotAll(fetch, asks + [asked], |asks| + 1))
  {
    hide Got;
    GotSoFar(fetch, asks, asked, |asks|);
  }

  lemma NothingYet(turns: seq<Turn>, fetch: (nat, int) -> Option<seq<Item>>)
    ensures GotAll(fetch, [], 0) == [] && DuringAll(turns, fetch, [], [], 0) == []
  {
  }

  lemma OneMoreTurn(events: seq<Event>, turns: seq<Turn>, fetch: (nat, int) -> Option<seq<Item>>, pauses: seq<bool>, asks: seq<Option<int>>,
                    paused: bool, asked: Option<int>)
    requires |asks| == |pauses| < |turns|
    ensures events + DuringAll(turns, fetch, pauses, asks, |asks|) + During(turns[|asks|], fetch, |asks|, paused, asked)
            == events + DuringAll(turns, fetch, pauses + [paused], asks + [asked], |asks| + 1)
  {
    hide During, DuringAll;
    UnfoldTurn(turns, fetch, pauses + [paused], asks + [asked], |asks| + 1);
    TurnsSoFar(turns, fetch, pauses, asks, paused, asked, |asks|);
    SumAgain(events, DuringAll(turns, fetch, pauses, asks, |asks|), During(turns[|asks|], fetch, |asks|, paused, asked));
  }

  lemma SumAgain(a: seq<Event>, b: seq<Event>, c: seq<Event>)
    ensures a + b + c == a + (b + c)
  {
  }

  lemma UnfoldTurn(turns: seq<Turn>, fetch: (nat, int) -> Option<seq<Item>>, pauses: seq<bool>, asks: seq<Option<int>>, k: nat)
    requires 0 < k <= |turns| && k <= |asks| == |pauses|
    ensures DuringAll(turns, fetch, pauses, asks, k)
            == DuringAll(turns, fetch, pauses, asks, k - 1) + During(turns[k - 1], fetch, k - 1, pauses[k - 1], asks[k - 1])
  {
  }

  lemma {:induction false} TurnsSoFar(turns: seq<Turn>, fetch: (nat, int) -> Option<seq<Item>>, pauses: seq<bool>,
                                      asks: seq<Option<int>>, paused: bool, asked: Option<int>, k: nat)
    requires k <= |asks| == |pauses| < |turns|
    ensures DuringAll(turns, fetch, pauses + [paused], asks + [asked], k) == DuringAll(turns, fetch, pauses, asks, k)
  {
    hide During;
    if k > 0 {
      TurnsSoFar(turns, fetch, pauses, asks, paused, asked, k - 1);
    }
  }

  lemma {:induction false} GotSoFar(fetch: (nat, int) -> Option<seq<Item>>, asks: seq<Option<int>>, asked: Option<int>, k: nat)
    requires k <= |asks|
    ensures GotAll(fetch, asks + [asked], k) == GotAll(fetch, asks, k)
  {
    if k > 0 {
      GotSoFar(fetch, asks, asked, k - 1);
    }
  }

  lemma OneDone(running: multiset<Item>, finished: multiset<Item>, item: Item)
    requires item in running
    ensures (running - multiset{item}) + (finished + multiset{item}) == running + finished
    ensures |running - multiset{item}| == |running| - 1
  {
  }

  lemma OneMoreItem(started: multiset<Item>, items: seq<Item>, i: nat)
    requires i < |items|
    ensures started + multiset(items[..i]) + multiset{items[i]} == started + multiset(items[..i + 1])
  {
    assert items[..i + 1] == items[..i] + [items[i]];
  }

  lemma NothingStarted(after: nat -> seq<Event>)
    ensures Starts(after, 0) == []
  {
  }

  lemma NothingDispatched(s: Snapshot, items: seq<Item>, after: nat -> seq<Event>)
    ensures Dispatched(s, items, after, 0) == s
  {
  }

  lemma OneMoreDispatched(s: Snapshot, items: seq<Item>, after: nat -> seq<Event>, i: nat)
    requires i < |items|
    ensures var before := Dispatched(s, items, after, i);
            Dispatched(s, items, after, i + 1) == AfterAll(before.(running := before.running + multiset{items[i]}), after(i))
  {
  }

  lemma OneMoreStart(events: seq<Event>, after: nat -> seq<Event>, i: nat)
    ensures events + Starts(after, i) + after(i) == events + Starts(after, i + 1)
  {
  }
}
