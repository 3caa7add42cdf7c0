/** The Redis transport (internal/queue/queue.go): one stream with one consumer group and
    one delayed set per priority. An entry whose envelope does not decode is "poison". */
module Queues {
  import opened Common
  import opened Job
  import opened Rows

  type Consumer = int
  const REAPER: Consumer := -1

  /** A stream entry; env is None when it does not decode. */
  datatype Msg = Msg(id: int, env: Option<Envelope>)

  datatype Hold = Hold(consumer: Consumer, since: int)

  /** A stream, the position just after the group's last-delivered entry, and the
      pending-entries list of the group. */
  datatype Stream = Stream(entries: seq<Msg>, cursor: nat, pel: map<int, Hold>)

  datatype Delivery = Delivery(env: Envelope, entry: int, priority: Priority)

  function Ids(ms: seq<Msg>): set<int> {
    set m | m in ms :: m.id
  }

  /** Ids ascend below the next one to be issued, and the pending list holds exactly the
      delivered entries that are still in the stream. */
  ghost predicate StreamOk(st: Stream, next: int) {
    && AscendingIds(st.entries)
    && (forall m :: m in st.entries ==> m.id < next)
    && st.cursor <= |st.entries|
    && st.pel.Keys == Ids(st.entries[..st.cursor])
  }

  /** What XREADGROUP with ">" has yet to deliver. */
  function Ready(st: Stream): seq<Msg> {
    st.entries[Min(st.cursor, |st.entries|)..]
  }

  /** XADD. */
  function Added(st: Stream, m: Msg): Stream {
    st.(entries := st.entries + [m])
  }

  lemma AddKeeps(st: Stream, m: Msg, next: int)
    requires StreamOk(st, next) && m.id == next
    ensures StreamOk(Added(st, m), next + 1) && Ready(Added(st, m)) == Ready(st) + [m]
  {
    assert Added(st, m).entries[..st.cursor] == st.entries[..st.cursor];
  }

  // ------------------------------------------------------------------ reading

  /** XREADGROUP COUNT n for one consumer. */
  function Delivered(st: Stream, n: nat, c: Consumer, now: int): Stream {
    var k := Min(n, |Ready(st)|);
    st.(cursor := st.cursor + k, pel := st.pel + map id | id in Ids(Ready(st)[..k]) :: Hold(c, now))
  }

  lemma IdsOfSum(a: seq<Msg>, b: seq<Msg>)
    ensures Ids(a + b) == Ids(a) + Ids(b)
  {
  }

  lemma DeliveredPel(st: Stream, n: nat, c: Consumer, now: int)
    ensures Delivered(st, n, c, now).pel.Keys == st.pel.Keys + Ids(Ready(st)[..Min(n, |Ready(st)|)])
  {
  }

  lemma DeliveredSplit(st: Stream, n: nat, c: Consumer, now: int)
    requires st.cursor <= |st.entries|
    ensures var st', k := Delivered(st, n, c, now), Min(n, |Ready(st)|);
            && st'.entries == st.entries && st'.cursor <= |st.entries| && Ready(st') == Ready(st)[k..]
            && st'.entries[..st'.cursor] == st.entries[..st.cursor] + Ready(st)[..k]
  {
  }

  /** A read moves exactly the first n undelivered entries into the pending list. */
  lemma DeliveredMoves(st: Stream, n: nat, c: Consumer, now: int, next: int)
    requires StreamOk(st, next)
    ensures var st', k := Delivered(st, n, c, now), Min(n, |Ready(st)|);
            && StreamOk(st', next) && st'.entries == st.entries && Ready(st') == Ready(st)[k..]
            && st'.pel.Keys == st.pel.Keys + Ids(Ready(st)[..k])
  {
    hide Delivered, Ready, Ids, AscendingIds;
    DeliveredPel(st, n, c, now);
    DeliveredSplit(st, n, c, now);
    IdsOfSum(st.entries[..st.cursor], Ready(st)[..Min(n, |Ready(st)|)]);
  }

  /** What was read is held by the reader, from now on. */
  lemma ReadIsHeld(st: Stream, n: nat, c: Consumer, now: int)
    ensures forall m :: m in Ready(st)[..Min(n, |Ready(st)|)] ==>
              m.id in Delivered(st, n, c, now).pel && Delivered(st, n, c, now).pel[m.id] == Hold(c, now)
  {
  }

  lemma ReadyAscends(st: Stream, n: nat, next: int)
    requires StreamOk(st, next)
    ensures AscendingIds(Ready(st)[..Min(n, |Ready(st)|)])
  {
  }

  // ------------------------------------------------------------------ acking

  /** Where an entry sits in a stream. */
  function Position(entries: seq<Msg>, id: int): (r: Option<nat>)
    ensures r.Some? ==> r.value < |entries| && entries[r.value].id == id
    ensures r.None? ==> forall i :: 0 <= i < |entries| ==> entries[i].id != id
  {
    if entries == [] then None
    else if entries[0].id == id then Some(0)
    else
      var rest := Position(entries[1..], id);
      assert forall i :: 1 <= i < |entries| ==> entries[i] == entries[1..][i - 1];
      if rest.None? then None else Some(rest.value + 1)
  }

  /** XACK and XDEL: the entry leaves the stream and the pending list. */
  function Acked(st: Stream, id: int): Stream {
    var at := Position(st.entries, id);
    if at.None? then st.(pel := st.pel - {id})
    else Stream(st.entries[..at.value] + st.entries[at.value + 1..],
                if at.value < st.cursor then st.cursor - 1 else st.cursor, st.pel - {id})
  }

  function Dropped(ms: seq<Msg>, i: nat): seq<Msg>
    requires i < |ms|
  {
    ms[..i] + ms[i + 1..]
  }

  ghost predicate AscendingIds(ms: seq<Msg>) {
    forall i, j :: 0 <= i < j < |ms| ==> ms[i].id < ms[j].id
  }

  lemma DroppedMembers(ms: seq<Msg>, i: nat)
    requires i < |ms| && AscendingIds(ms)
    ensures forall m :: m in Dropped(ms, i) <==> m in ms && m.id != ms[i].id
    ensures AscendingIds(Dropped(ms, i))
  {
    DroppedAscend(ms, i);
    var left, right := ms[..i], ms[i + 1..];
    assert ms == left + [ms[i]] + right;
    forall m ensures m in ms <==> m in left || m == ms[i] || m in right {
    }
    assert forall m :: m in left || m in right ==> m.id != ms[i].id;
  }

  lemma DroppedAscend(ms: seq<Msg>, i: nat)
    requires i < |ms| && AscendingIds(ms)
    ensures AscendingIds(Dropped(ms, i))
  {
  }

  lemma DroppedIds(ms: seq<Msg>, i: nat)
    requires i < |ms| && AscendingIds(ms)
    ensures Ids(Dropped(ms, i)) == Ids(ms) - {ms[i].id}
  {
    DroppedMembers(ms, i);
  }

  /** Acking a delivered entry removes it and leaves the undelivered ones alone. */
  lemma AckKeeps(st: Stream, id: int, next: int)
    requires StreamOk(st, next) && id in st.pel
    ensures var st' := Acked(st, id);
            && StreamOk(st', next) && Ready(st') == Ready(st) && st'.pel == st.pel - {id}
            && (forall m :: m in st'.entries <==> m in st.entries && m.id != id)
  {
    hide Acked, Dropped, AscendingIds;
    var i := HeldAt(st, id, next);
    DroppedMembers(st.entries, i);
    DroppedIds(st.entries[..st.cursor], i);
    AckSlices(st.entries, st.cursor, i);
    assert (st.pel - {id}).Keys == st.pel.Keys - {id};
  }

  /** Not waiting for delivery: it was read before, and may have been acked since. */
  ghost predicate WasRead(st: Stream, id: int) {
    forall m :: m in Ready(st) ==> m.id != id
  }

  /** Acking twice does nothing the second time. */
  lemma AckAgain(st: Stream, id: int, next: int)
    requires StreamOk(st, next) && WasRead(st, id) && id !in st.pel
    ensures Acked(st, id) == st
  {
    NotThere(st, id, next);
    assert Position(st.entries, id).None?;
    assert st.pel - {id} == st.pel;
  }

  /** Acking an entry that was read at some point, whoever holds it now. */
  lemma AckSafe(st: Stream, id: int, next: int)
    requires StreamOk(st, next) && WasRead(st, id)
    ensures var st' := Acked(st, id);
            && StreamOk(st', next) && Ready(st') == Ready(st) && st'.pel == st.pel - {id}
            && (forall m :: m in st'.entries <==> m in st.entries && m.id != id)
  {
    hide Acked, Ready, WasRead, StreamOk;
    if id in st.pel {
      AckKeeps(st, id, next);
    } else {
      AckAgain(st, id, next);
      assert st.pel - {id} == st.pel;
      NotThere(st, id, next);
    }
  }

  /** Acking an entry nobody has read yet deletes it from what waits, and nothing else. */
  lemma AckUnread(st: Stream, id: int, next: int)
    requires StreamOk(st, next) && !WasRead(st, id)
    ensures var st' := Acked(st, id);
            && StreamOk(st', next) && st'.pel == st.pel
            && (exists i :: 0 <= i < |Ready(st)| && Ready(st)[i].id == id && Ready(st') == Dropped(Ready(st), i))
            && (forall m :: m in st'.entries <==> m in st.entries && m.id != id)
  {
    hide Acked, Dropped, AscendingIds, Ids;
    var j := UnreadAt(st, id, next);
    var i := st.cursor + j;
    AckPositionUnread(st, i);
    DroppedMembers(st.entries, i);
    DropAfter(st.entries, st.cursor, i);
    assert st.pel - {id} == st.pel;
  }

  lemma UnreadAt(st: Stream, id: int, next: int) returns (j: nat)
    requires StreamOk(st, next) && !WasRead(st, id)
    ensures j < |Ready(st)| && Ready(st)[j].id == id && Ready(st) == st.entries[st.cursor..]
    ensures st.entries[st.cursor + j].id == id && id !in st.pel && AscendingIds(st.entries)
  {
    var m :| m in Ready(st) && m.id == id;
    j :| 0 <= j < |Ready(st)| && Ready(st)[j] == m;
    if id in st.pel {
      HeldWasRead(st, id, next);
      assert false;
    }
  }

  lemma AckPositionUnread(st: Stream, i: nat)
    requires st.cursor <= i < |st.entries| && AscendingIds(st.entries)
    ensures Acked(st, st.entries[i].id) == Stream(Dropped(st.entries, i), st.cursor, st.pel - {st.entries[i].id})
  {
    var at := Position(st.entries, st.entries[i].id);
    assert at == Some(i);
  }

  lemma PelWithout(st: Stream, id: int, next: int)
    requires StreamOk(st, next) && !WasRead(st, id)
    ensures st.pel - {id} == st.pel
  {
    var _ := UnreadAt(st, id, next);
    assert st.pel - {id} == st.pel;
  }

  lemma DropAfter(ms: seq<Msg>, c: nat, i: nat)
    requires c <= i < |ms|
    ensures |Dropped(ms, i)| == |ms| - 1 && Dropped(ms, i)[..c] == ms[..c]
    ensures Dropped(ms, i)[c..] == Dropped(ms[c..], i - c)
  {
  }

  lemma NotThere(st: Stream, id: int, next: int)
    requires StreamOk(st, next) && WasRead(st, id) && id !in st.pel
    ensures forall m :: m in st.entries ==> m.id != id
  {
    assert st.entries == st.entries[..st.cursor] + Ready(st);
  }

  lemma HeldAt(st: Stream, id: int, next: int) returns (i: nat)
    requires StreamOk(st, next) && id in st.pel
    ensures i < st.cursor && st.entries[i].id == id && AscendingIds(st.entries[..st.cursor])
    ensures Acked(st, id) == Stream(Dropped(st.entries, i), st.cursor - 1, st.pel - {id})
  {
    hide Acked, Dropped, Ids;
    i := HeldIndex(st, id, next);
    AckPosition(st, i);
  }

  lemma HeldIndex(st: Stream, id: int, next: int) returns (i: nat)
    requires StreamOk(st, next) && id in st.pel
    ensures i < st.cursor && st.entries[i].id == id && AscendingIds(st.entries[..st.cursor])
  {
    var held := st.entries[..st.cursor];
    var m :| m in held && m.id == id;
    i :| 0 <= i < |held| && held[i] == m;
  }

  lemma AckPosition(st: Stream, i: nat)
    requires st.cursor <= |st.entries| && AscendingIds(st.entries) && i < st.cursor
    ensures Acked(st, st.entries[i].id) == Stream(Dropped(st.entries, i), st.cursor - 1, st.pel - {st.entries[i].id})
  {
    var at := Position(st.entries, st.entries[i].id);
    assert at == Some(i);
  }

  lemma AckSlices(ms: seq<Msg>, c: nat, i: nat)
    requires i < c <= |ms|
    ensures |Dropped(ms, i)| == |ms| - 1
    ensures Dropped(ms, i)[..c - 1] == Dropped(ms[..c], i)
    ensures Dropped(ms, i)[c - 1..] == ms[c..]
  {
  }

  lemma HeldWasRead(st: Stream, id: int, next: int)
    requires StreamOk(st, next) && id in st.pel
    ensures WasRead(st, id)
  {
    var held := st.entries[..st.cursor];
    var i :| 0 <= i < |held| && held[i].id == id;
    forall m | m in Ready(st) ensures m.id != id {
      var j :| 0 <= j < |Ready(st)| && Ready(st)[j] == m;
      assert m == st.entries[st.cursor + j] && st.entries[i].id == id;
    }
  }

  /** A heartbeat touches nothing but the idle clock of an entry still held. */
  function Renewed(st: Stream, c: Consumer, id: int, now: int): (r: Stream)
    ensures r.entries == st.entries && r.cursor == st.cursor && r.pel.Keys == st.pel.Keys
  {
    if id in st.pel then st.(pel := st.pel[id := Hold(c, now)]) else st
  }

  lemma RenewedExactly(st: Stream, c: Consumer, id: int, now: int, next: int)
    requires StreamOk(st, next)
    ensures var st' := Renewed(st, c, id, now);
            && StreamOk(st', next) && Ready(st') == Ready(st) && st'.pel.Keys == st.pel.Keys
            && (forall e :: e in st'.pel && e != id ==> st'.pel[e] == st.pel[e])
            && (id in st'.pel ==> st'.pel[id] == Hold(c, now))
  {
  }

  // ------------------------------------------------------------------ counting

  /** XLEN minus the pending count is the true number of ready entries. */
  lemma ReadyIsLengthMinusPending(st: Stream, next: int)
    requires StreamOk(st, next)
    ensures |st.entries| - |st.pel| == |Ready(st)|
  {
    DistinctIds(st.entries[..st.cursor]);
    assert |st.pel| == |st.pel.Keys|;
  }

  lemma {:induction false} DistinctIds(ms: seq<Msg>)
    requires AscendingIds(ms)
    ensures |Ids(ms)| == |ms|
  {
    if ms == [] {
      assert Ids(ms) == {};
    } else {
      var init, m := ms[..|ms| - 1], ms[|ms| - 1];
      DistinctIds(init);
      assert ms == init + [m];
      assert Ids(ms) == Ids(init) + {m.id};
    }
  }

  // ------------------------------------------------------------------ the queue

  predicate Decodes(m: Msg) {
    m.env.Some?
  }

  /** The deliveries a list of read entries makes: poison is acked away, not returned. */
  function Deliveries(ms: seq<Msg>, p: Priority): seq<Delivery> {
    if ms == [] then []
    else Deliveries(ms[..|ms| - 1], p)
         + if Decodes(ms[|ms| - 1]) then [Delivery(ms[|ms| - 1].env.value, ms[|ms| - 1].id, p)] else []
  }

  function PoisonIds(ms: seq<Msg>): set<int> {
    set m | m in ms && !Decodes(m) :: m.id
  }

  lemma {:induction false} DeliveriesOfSound(ms: seq<Msg>, p: Priority)
    requires forall m :: m in ms ==> Decodes(m)
    ensures |Deliveries(ms, p)| == |ms|
  {
    if ms != [] {
      assert ms[|ms| - 1] in ms;
      DeliveriesOfSound(ms[..|ms| - 1], p);
    }
  }

  lemma {:induction false} DeliveriesBounded(ms: seq<Msg>, p: Priority)
    ensures |Deliveries(ms, p)| <= |ms|
  {
    if ms != [] {
      DeliveriesBounded(ms[..|ms| - 1], p);
    }
  }

  /** What decodes is delivered as it stands, ... */
  lemma {:induction false} DecodedAsTheyStand(ms: seq<Msg>, p: Priority)
    ensures forall m :: m in ms && m.env.Some? ==> Delivery(m.env.value, m.id, p) in Deliveries(ms, p)
    ensures forall d :: d in Deliveries(ms, p) ==> d.priority == p && Msg(d.entry, Some(d.env)) in ms
  {
    if ms != [] {
      var init, last := ms[..|ms| - 1], ms[|ms| - 1];
      DecodedAsTheyStand(init, p);
      assert ms == init + [last];
    }
  }

  /** ... what does not is poison, and nothing is both. */
  lemma PoisonExactly(ms: seq<Msg>)
    requires AscendingIds(ms)
    ensures forall m :: m in ms ==> (m.id in PoisonIds(ms) <==> m.env.None?)
    ensures forall m :: m in ms ==> m.id in Ids(ms)
  {
    forall m, m' | m in ms && m' in ms && m.id == m'.id ensures m == m' {
      var i, j :| 0 <= i < |ms| && 0 <= j < |ms| && ms[i] == m && ms[j] == m';
    }
  }

  lemma DecodedNothing(p: Priority)
    ensures Deliveries([], p) == [] && PoisonIds([]) == {}
  {
  }

  lemma DecodedPrefix(ms: seq<Msg>, i: nat, p: Priority)
    requires i < |ms| && AscendingIds(ms)
    ensures Deliveries(ms[..i + 1], p)
            == Deliveries(ms[..i], p) + if Decodes(ms[i]) then [Delivery(ms[i].env.value, ms[i].id, p)] else []
    ensures PoisonIds(ms[..i + 1]) == PoisonIds(ms[..i]) + if Decodes(ms[i]) then {} else {ms[i].id}
    ensures ms[i].id in Ids(ms) && ms[i].id !in PoisonIds(ms[..i])
  {
    assert ms[..i + 1][..i] == ms[..i];
    assert forall x :: x in ms[..i + 1] <==> x in ms[..i] || x == ms[i];
  }

  // ------------------------------------------------------------------ strict priority

  /** What a fetch of max returns from the first i streams: each stream is offered only what
      the sound deliveries of the higher ones left free. */
  function Fetched(ready: seq<seq<Msg>>, max: nat, i: nat): (out: seq<Delivery>)
    requires i <= |ready| && |ready| == |PRIORITY_ORDER|
    ensures |out| <= max
  {
    if i == 0 then []
    else
      var before := Fetched(ready, max, i - 1);
      var batch := ready[i - 1][..Min(max - |before|, |ready[i - 1]|)];
      DeliveriesBounded(batch, PRIORITY_ORDER[i - 1]);
      before + Deliveries(batch, PRIORITY_ORDER[i - 1])
  }

  /** How many entries a fetch of max reads from stream i. */
  function Share(ready: seq<seq<Msg>>, max: nat, i: nat): (k: nat)
    requires i < |ready| && |ready| == |PRIORITY_ORDER|
    ensures k <= |ready[i]|
  {
    Min(max - |Fetched(ready, max, i)|, |ready[i]|)
  }

  lemma {:induction false} FullFetchStops(ready: seq<seq<Msg>>, max: nat, i: nat, j: nat)
    requires i <= j <= |ready| && |ready| == |PRIORITY_ORDER| && |Fetched(ready, max, i)| == max
    ensures Fetched(ready, max, j) == Fetched(ready, max, i)
    ensures j < |ready| ==> Share(ready, max, j) == 0
  {
    if i < j {
      FullFetchStops(ready, max, i, j - 1);
    }
  }

  predicate AllDecode(ms: seq<Msg>) {
    forall m :: m in ms ==> Decodes(m)
  }

  lemma {:induction false} DeliveriesPrefix(ms: seq<Msg>, k: nat, p: Priority)
    requires k <= |ms| && AllDecode(ms)
    ensures |Deliveries(ms, p)| == |ms| && Deliveries(ms[..k], p) == Deliveries(ms, p)[..k]
    decreases |ms|
  {
    DeliveriesOfSound(ms, p);
    if k < |ms| {
      assert ms[|ms| - 1] in ms;
      DeliveriesPrefix(ms[..|ms| - 1], k, p);
      assert ms[..|ms| - 1][..k] == ms[..k];
    } else {
      assert ms[..k] == ms;
    }
  }

  /** The first i streams end to end, in dispatch order. */
  function Merged(ready: seq<seq<Msg>>, i: nat): seq<Delivery>
    requires i <= |ready| && |ready| == |PRIORITY_ORDER|
  {
    if i == 0 then [] else Merged(ready, i - 1) + Deliveries(ready[i - 1], PRIORITY_ORDER[i - 1])
  }

  lemma PrefixOfSum<T>(a: seq<T>, b: seq<T>, max: nat)
    ensures a[..Min(max, |a|)] + b[..Min(max - Min(max, |a|), |b|)] == (a + b)[..Min(max, |a + b|)]
  {
  }

  /** Without poison a fetch returns exactly the first max of high, then default, then low,
      each in FIFO order. */
  lemma {:induction false} FetchIsStrictPriority(ready: seq<seq<Msg>>, max: nat, i: nat)
    requires i <= |ready| && |ready| == |PRIORITY_ORDER|
    requires forall j :: 0 <= j < i ==> AllDecode(ready[j])
    ensures Fetched(ready, max, i) == Merged(ready, i)[..Min(max, |Merged(ready, i)|)]
  {
    if i > 0 {
      FetchIsStrictPriority(ready, max, i - 1);
      var k := Share(ready, max, i - 1);
      DeliveriesPrefix(ready[i - 1], k, PRIORITY_ORDER[i - 1]);
      PrefixOfSum(Merged(ready, i - 1), Deliveries(ready[i - 1], PRIORITY_ORDER[i - 1]), max);
    }
  }

  /** An identifier from the counter never collides. */
  lemma StreamOkMonotone(st: Stream, next: int)
    requires StreamOk(st, next)
    ensures StreamOk(st, next + 1)
  {
  }

  /** ZADD on the envelope's own priority. */
  function Parked(delayed: map<Priority, map<Envelope, int>>, env: Envelope, at: int): map<Priority, map<Envelope, int>>
  {
    delayed[env.priority := (if env.priority in delayed then delayed[env.priority] else map[])[env := at]]
  }

  /** Everything Redis holds, as one value, and what the commands make of it. */
  datatype Held = Held(streams: map<Priority, Stream>, delayed: map<Priority, map<Envelope, int>>, next: int)
  {
    /** Every priority has its stream. */
    predicate Complete() {
      forall p: Priority :: p in streams
    }

    function Put(env: Envelope): (w: Held)
      requires Complete()
      ensures w.Complete()
    {
      this.(streams := streams[env.priority := Added(streams[env.priority], Msg(next, Some(env)))], next := next + 1)
    }

    function Park(env: Envelope, at: int): Held {
      this.(delayed := Parked(delayed, env, at))
    }

    function Ack(p: Priority, e: int): (w: Held)
      requires Complete()
      ensures w.Complete()
    {
      this.(streams := streams[p := Acked(streams[p], e)])
    }

    function Renew(p: Priority, c: Consumer, e: int, now: int): (w: Held)
      requires Complete()
      ensures w.Complete()
    {
      this.(streams := streams[p := Renewed(streams[p], c, e, now)])
    }

    /** The first n undelivered entries of a stream become pending. */
    function Read(p: Priority, n: nat, c: Consumer, now: int): (w: Held)
      requires Complete()
      ensures w.Complete()
    {
      this.(streams := streams[p := Delivered(streams[p], n, c, now)])
    }

    /** Claimed entries of a stream change hands. */
    function Take(p: Priority, claimed: seq<Msg>, now: int): (w: Held)
      requires Complete()
      ensures w.Complete()
    {
      this.(streams := streams[p := TakenOver(streams[p], claimed, now)])
    }

    /** One member leaves a delayed set for the back of its stream. */
    function Move(p: Priority, env: Envelope): (w: Held)
      requires Complete()
      ensures w.Complete()
    {
      Held(streams[p := Added(streams[p], Msg(next, Some(env)))],
           if p in delayed then delayed[p := delayed[p] - {env}] else delayed, next + 1)
    }

    /** The first k members of a list, one after the other. */
    function MoveAll(p: Priority, moved: seq<Envelope>, k: nat): (w: Held)
      requires Complete() && k <= |moved|
      ensures w.Complete()
    {
      if k == 0 then this else MoveAll(p, moved, k - 1).Move(p, moved[k - 1])
    }

    /** What a pass moved on the first i priorities. */
    function MoveParts(parts: seq<seq<Envelope>>, i: nat): (w: Held)
      requires Complete() && i <= |parts| <= |PRIORITY_ORDER|
      ensures w.Complete()
    {
      if i == 0 then this else MoveParts(parts, i - 1).MoveAll(PRIORITY_ORDER[i - 1], parts[i - 1], |parts[i - 1]|)
    }
  }

  lemma {:induction false} MoveAllPrefix(w: Held, p: Priority, moved: seq<Envelope>, env: Envelope, k: nat)
    requires w.Complete() && k <= |moved|
    ensures w.MoveAll(p, moved + [env], k) == w.MoveAll(p, moved, k)
  {
    if k > 0 {
      MoveAllPrefix(w, p, moved, env, k - 1);
    }
  }

  lemma OneMoreMove(w: Held, p: Priority, moved: seq<Envelope>, env: Envelope)
    requires w.Complete()
    ensures w.MoveAll(p, moved, |moved|).Move(p, env) == w.MoveAll(p, moved + [env], |moved + [env]|)
  {
    MoveAllPrefix(w, p, moved, env, |moved|);
  }

  lemma {:induction false} MovePartsPrefix(w: Held, parts: seq<seq<Envelope>>, moved: seq<Envelope>, i: nat)
    requires w.Complete() && i <= |parts| < |PRIORITY_ORDER|
    ensures w.MoveParts(parts + [moved], i) == w.MoveParts(parts, i)
  {
    if i > 0 {
      MovePartsPrefix(w, parts, moved, i - 1);
    }
  }

  lemma OneMorePart(w: Held, parts: seq<seq<Envelope>>, moved: seq<Envelope>)
    requires w.Complete() && |parts| < |PRIORITY_ORDER|
    ensures w.MoveParts(parts, |parts|).MoveAll(PRIORITY_ORDER[|parts|], moved, |moved|) == w.MoveParts(parts + [moved], |parts + [moved]|)
  {
    MovePartsPrefix(w, parts, moved, |parts|);
  }

  lemma NoMoves(w: Held, p: Priority)
    requires w.Complete()
    ensures w.MoveAll(p, [], 0) == w && w.MoveParts([], 0) == w
  {
  }

  class Queue {
    var streams: map<Priority, Stream>
    var delayed: map<Priority, map<Envelope, int>>
    var next: int
    // the cooperative cancel flags
    var cancels: set<JobId>

    constructor ()
      ensures Valid() && next == 0 && cancels == {}
      ensures forall p :: streams[p] == Stream([], 0, map[]) && delayed[p] == map[]
    {
      var empty := Stream([], 0, map[]);
      streams := map[High := empty, Default := empty, Low := empty];
      delayed := map[High := map[], Default := map[], Low := map[]];
      next, cancels := 0, {};
      new;
      forall p: Priority ensures p in streams && p in delayed && streams[p] == empty {
        assert p == High || p == Default || p == Low;
      }
    }

    function View(): Held
      reads this
    {
      Held(streams, delayed, next)
    }

    /** In every stream the pending list is exactly the delivered entries still present. */
    ghost predicate Valid()
      reads this
    {
      forall p: Priority :: p in streams && p in delayed && StreamOk(streams[p], next)
    }

    /** XADD: the entry goes to the back of its own stream and nowhere else. */
    method XAdd(p: Priority, env: Option<Envelope>) returns (id: int)
      requires Valid()
      modifies this`streams, this`next
      ensures Valid() && id == old(next) && next == id + 1
      ensures streams == old(streams)[p := Added(old(streams)[p], Msg(id, env))]
      ensures Ready(streams[p]) == Ready(old(streams)[p]) + [Msg(id, env)] && streams[p].pel == old(streams)[p].pel
    {
      hide StreamOk;
      id := next;
      forall q: Priority ensures StreamOk(streams[q], next + 1) {
        StreamOkMonotone(streams[q], next);
      }
      AddKeeps(streams[p], Msg(id, env), next);
      streams, next := streams[p := Added(streams[p], Msg(id, env))], next + 1;
    }

    /** Raises the flag a running job's heartbeat polls. */
    method RequestCancel(id: JobId)
      modifies this`cancels
      ensures cancels == old(cancels) + {id}
    {
      cancels := cancels + {id};
    }

    /** ZADD: the envelope is parked once, under this score, whatever score it had before, and
        nothing else parked changes. */
    method ScheduleRetry(env: Envelope, at: int)
      requires Valid()
      modifies this`delayed
      ensures Valid()
      ensures delayed == old(delayed)[env.priority := old(delayed)[env.priority][env := at]]
      ensures env in delayed[env.priority] && delayed[env.priority][env] == at
      ensures forall p, e :: e in delayed[p] <==> e in old(delayed)[p] || (p == env.priority && e == env)
      ensures forall p, e :: e in old(delayed)[p] && !(p == env.priority && e == env) ==> delayed[p][e] == old(delayed)[p][e]
    {
      delayed := delayed[env.priority := delayed[env.priority][env := at]];
    }

    /** A future job parks in the delayed set, any other goes on its stream. */
    method Enqueue(env: Envelope, at: Option<int>, now: int) returns (ref: StreamRef)
      requires Valid()
      modifies this`streams, this`delayed, this`next
      ensures Valid()
      ensures at.Some? && at.value > now ==>
                && ref == InDelayedSet && next == old(next) && streams == old(streams)
                && delayed == old(delayed)[env.priority := old(delayed)[env.priority][env := at.value]]
      ensures !(at.Some? && at.value > now) ==>
                && ref == InStream(old(next)) && delayed == old(delayed) && next == old(next) + 1
                && streams == old(streams)[env.priority := Added(old(streams)[env.priority], Msg(old(next), Some(env)))]
                && Ready(streams[env.priority]) == Ready(old(streams)[env.priority]) + [Msg(old(next), Some(env))]
    {
      hide StreamOk, Added;
      if at.Some? && at.value > now {
        ScheduleRetry(env, at.value);
        return InDelayedSet;
      }
      var id := XAdd(env.priority, Some(env));
      return InStream(id);
    }

    /** XACK and XDEL: exactly this entry leaves, held or acked before or never read; what
        waits loses it only if nobody had read it. */
    method Ack(p: Priority, id: int)
      requires Valid()
      modifies this`streams
      ensures Valid() && streams == old(streams)[p := Acked(old(streams)[p], id)]
      ensures streams[p].pel == old(streams)[p].pel - {id}
      ensures forall m :: m in streams[p].entries <==> m in old(streams)[p].entries && m.id != id
      ensures WasRead(old(streams)[p], id) ==> Ready(streams[p]) == Ready(old(streams)[p])
      ensures !WasRead(old(streams)[p], id) ==>
                exists i :: 0 <= i < |Ready(old(streams)[p])| && Ready(old(streams)[p])[i].id == id
                            && Ready(streams[p]) == Dropped(Ready(old(streams)[p]), i)
    {
      hide Acked, Ready, WasRead, StreamOk, Dropped;
      if WasRead(streams[p], id) {
        AckSafe(streams[p], id, next);
      } else {
        AckUnread(streams[p], id, next);
        PelWithout(streams[p], id, next);
      }
      streams := streams[p := Acked(streams[p], id)];
    }

    /** XCLAIM JUSTID: the idle clock of an entry still held restarts under this consumer; an
        entry acked in the meantime stays gone; no entry arrives, moves or leaves, and no other
        entry's holder or clock changes. */
    method Heartbeat(c: Consumer, p: Priority, id: int, now: int)
      requires Valid()
      modifies this`streams
      ensures Valid() && streams == old(streams)[p := Renewed(old(streams)[p], c, id, now)]
      ensures forall q :: streams[q].entries == old(streams)[q].entries && Ready(streams[q]) == Ready(old(streams)[q])
      ensures forall q :: streams[q].pel.Keys == old(streams)[q].pel.Keys
      ensures forall q, e :: e in streams[q].pel && !(q == p && e == id) ==> streams[q].pel[e] == old(streams)[q].pel[e]
      ensures id in streams[p].pel ==> streams[p].pel[id] == Hold(c, now)
    {
      hide StreamOk, Ready, Renewed;
      RenewedExactly(streams[p], c, id, now, next);
      streams := streams[p := Renewed(streams[p], c, id, now)];
    }

    /** Decoding what was read: poison is acked away on the spot. */
    method Decode(p: Priority, batch: seq<Msg>) returns (out: seq<Delivery>)
      requires Valid() && AscendingIds(batch) && Ids(batch) <= streams[p].pel.Keys
      modifies this`streams
      ensures Valid() && streams.Keys == old(streams).Keys && forall q :: q != p ==> streams[q] == old(streams)[q]
      ensures out == Deliveries(batch, p) && Ready(streams[p]) == Ready(old(streams)[p])
      ensures streams[p].pel.Keys == old(streams)[p].pel.Keys - PoisonIds(batch)
      ensures forall m :: m in batch ==> (m.id in streams[p].pel <==> m.env.Some?)
      ensures forall m :: m in batch && m.env.Some? ==> Delivery(m.env.value, m.id, p) in out
      ensures forall d :: d in out ==> d.priority == p && Msg(d.entry, Some(d.env)) in batch
      ensures forall e :: e in streams[p].pel ==> streams[p].pel[e] == old(streams)[p].pel[e]
      ensures AllDecode(batch) ==> View() == old(View())
    {
      hide StreamOk, Acked, Ready, PoisonIds, Ids, AscendingIds, Deliveries;
      DecodedNothing(p);
      out := [];
      for i := 0 to |batch|
        invariant Valid() && streams == old(streams)[p := streams[p]]
        invariant Ready(streams[p]) == Ready(old(streams)[p]) && out == Deliveries(batch[..i], p)
        invariant streams[p].pel.Keys == old(streams)[p].pel.Keys - PoisonIds(batch[..i])
        invariant AllDecode(batch) ==> View() == old(View())
        invariant forall e :: e in streams[p].pel ==> e in old(streams)[p].pel && streams[p].pel[e] == old(streams)[p].pel[e]
      {
        var m := batch[i];
        DecodedPrefix(batch, i, p);
        if Decodes(m) {
          out := out + [Delivery(m.env.value, m.id, p)];
        } else {
          HeldWasRead(streams[p], m.id, next);
          Ack(p, m.id);
        }
      }
      assert batch[..|batch|] == batch;
      DecodedAsTheyStand(batch, p);
      PoisonExactly(batch);
    }

    /** XREADGROUP on one stream: its first n undelivered entries, and only those, become
        pending, or are acked away if they do not decode. */
    method ReadStream(p: Priority, n: nat, c: Consumer, now: int) returns (out: seq<Delivery>)
      requires Valid()
      modifies this`streams
      ensures Valid() && streams.Keys == old(streams).Keys && forall q :: q != p ==> streams[q] == old(streams)[q]
      ensures var ready := Ready(old(streams)[p]);
              var k := Min(n, |ready|);
              && out == Deliveries(ready[..k], p) && Ready(streams[p]) == ready[k..]
              && streams[p].pel.Keys == old(streams)[p].pel.Keys + Ids(ready[..k]) - PoisonIds(ready[..k])
              && (AllDecode(ready[..k]) ==> View() == old(View()).Read(p, n, c, now))
      ensures forall d :: d in out ==> d.priority == p && d.entry in streams[p].pel && streams[p].pel[d.entry] == Hold(c, now)
    {
      hide Delivered, Acked, StreamOk, Ready, Ids, PoisonIds, Deliveries, AscendingIds, AllDecode;
      ReadyAscends(streams[p], n, next);
      var batch := Ready(streams[p])[..Min(n, |Ready(streams[p])|)];
      DeliveredMoves(streams[p], n, c, now, next);
      ReadIsHeld(streams[p], n, c, now);
      streams := streams[p := Delivered(streams[p], n, c, now)];
      out := Decode(p, batch);
    }
  
    /** The undelivered entries of the three streams, in dispatch order. */
    ghost function Backlog(): seq<seq<Msg>>
      requires Valid()
      reads this
    {
      [Ready(streams[High]), Ready(streams[Default]), Ready(streams[Low])]
    }

    /** The non-blocking pass: each priority is drained in order until max is reached. Every
        stream gives up exactly its share of oldest entries, and nothing else moves. */
    method Fetch(c: Consumer, max: nat, now: int) returns (out: seq<Delivery>)
      requires Valid()
      modifies this`streams
      ensures Valid() && out == Fetched(old(Backlog()), max, 3) && |out| <= max
      ensures ServedSoFar(old(streams), streams, old(Backlog()), max, 3)
      ensures var high, normal, low := Ready(old(streams)[High]), Ready(old(streams)[Default]), Ready(old(streams)[Low]);
              var h := Min(max, |high|);
              var first := Deliveries(high[..h], High);
              var n := Min(Max(0, max - |first|), |normal|);
              var second := Deliveries(normal[..n], Default);
              var l := Min(Max(0, max - |first| - |second|), |low|);
              && out == first + second + Deliveries(low[..l], Low)
              && Ready(streams[High]) == high[h..] && Ready(streams[Default]) == normal[n..] && Ready(streams[Low]) == low[l..]
      ensures forall d :: d in out ==> d.entry in streams[d.priority].pel && streams[d.priority].pel[d.entry] == Hold(c, now)
    {
      hide StreamOk, Ready, Ids, PoisonIds, Deliveries, Fetched, Served, Share, ServedSoFar, Untouched, HeldBy;
      ghost var backlog := Backlog();
      ghost var before := streams;
      FetchedNothing(before, streams, backlog, max);
      NothingHeld(streams, Hold(c, now));
      out := [];
      for i := 0 to 3
        invariant Valid() && out == Fetched(backlog, max, i)
        invariant |backlog| == 3 && Untouched(before, streams, backlog, i)
        invariant ServedSoFar(before, streams, backlog, max, i)
        invariant HeldBy(streams, out, Hold(c, now), i)
      {
        var p := PRIORITY_ORDER[i];
        if |out| >= max {
          StopEarly(before, streams, backlog, max, i);
          AllHeld(streams, out, Hold(c, now), i);
          FetchedSpelledOut(before, streams, backlog, max);
          return;
        }
        ghost var middle := streams;
        NextUntouched(before, streams, backlog, i);
        var more := ReadStream(p, max - |out|, c, now);
        ShareIs(backlog, max, i);
        FetchedMore(backlog, max, i);
        MoreHeld(middle, streams, out, more, Hold(c, now), i);
        out := out + more;
        OneMoreServed(before, middle, streams, backlog, max, i);
      }
      AllHeld(streams, out, Hold(c, now), 3);
      FetchedSpelledOut(before, streams, backlog, max);
    }

    // ---------------------------------------------------------------- promotion

    /** The due member with the smallest score, if any member is due. */
    method Earliest(p: Priority, now: int) returns (env: Option<Envelope>)
      requires Valid()
      ensures env.None? ==> forall e :: e in delayed[p] ==> delayed[p][e] > now
      ensures env.Some? ==>
                && env.value in delayed[p] && delayed[p][env.value] <= now
                && forall e :: e in delayed[p] ==> delayed[p][env.value] <= delayed[p][e]
    {
      env := None;
      var rest := delayed[p].Keys;
      while true
        invariant rest <= delayed[p].Keys
        invariant env.None? ==> forall e :: e in delayed[p] && e !in rest ==> delayed[p][e] > now
        invariant env.Some? ==>
                    && env.value in delayed[p] && delayed[p][env.value] <= now
                    && forall e :: e in delayed[p] && e !in rest ==> delayed[p][env.value] <= delayed[p][e]
        decreases rest
      {
        if e :| e in rest {
          rest := rest - {e};
          if delayed[p][e] <= now && (env.None? || delayed[p][e] < delayed[p][env.value]) {
            env := Some(e);
          }
        } else {
          break;
        }
      }
    }

    /** XADD and ZREM of one due member. */
    method Move(p: Priority, env: Envelope)
      requires Valid() && env in delayed[p]
      modifies this`streams, this`delayed, this`next
      ensures Valid() && next == old(next) + 1
      ensures forall q :: q != p ==> streams[q] == old(streams)[q] && delayed[q] == old(delayed)[q]
      ensures delayed[p] == old(delayed)[p] - {env}
      ensures Ready(streams[p]) == Ready(old(streams)[p]) + [Msg(old(next), Some(env))]
      ensures streams[p].pel == old(streams)[p].pel
      ensures View() == old(View()).Move(p, env)
    {
      hide StreamOk;
      var _ := XAdd(p, Some(env));
      delayed := delayed[p := delayed[p] - {env}];
    }

    /** The promote script on one priority: due members move from the delayed set to the back
        of the stream, earliest first; none is lost, none is moved early, and none that is
        due stays behind unless the batch is full. */
    method PromoteStream(p: Priority, batch: nat, now: int) returns (moved: seq<Envelope>)
      requires Valid()
      modifies this`streams, this`delayed, this`next
      ensures Valid() && |moved| <= batch && next == old(next) + |moved|
      ensures forall q :: q != p ==> streams[q] == old(streams)[q] && delayed[q] == old(delayed)[q]
      ensures InDueOrder(old(delayed)[p], moved, now)
      ensures delayed[p] == old(delayed)[p] - (set e | e in moved)
      ensures |moved| < batch ==> forall e :: e in delayed[p] ==> delayed[p][e] > now
      ensures Ready(streams[p]) == Ready(old(streams)[p]) + Wired(moved, old(next))
      ensures streams[p].pel == old(streams)[p].pel
      ensures View() == old(View()).MoveAll(p, moved, |moved|)
    {
      hide StreamOk, Ready, InDueOrder, Added, Wired, Held.Move, Held.MoveAll;
      NothingWired(Ready(streams[p]), next);
      moved := [];
      ghost var scores, first := delayed[p], next;
      NothingMoved(scores, now);
      NoMoves(View(), p);
      while |moved| < batch
        invariant Valid() && |moved| <= batch && next == first + |moved|
        invariant forall q :: q != p ==> streams[q] == old(streams)[q] && delayed[q] == old(delayed)[q]
        invariant InDueOrder(scores, moved, now) && delayed[p] == scores - (set e | e in moved)
        invariant Ready(streams[p]) == Ready(old(streams)[p]) + Wired(moved, first)
        invariant streams[p].pel == old(streams)[p].pel && View() == old(View()).MoveAll(p, moved, |moved|)
      {
        var env := Earliest(p, now);
        if env.None? {
          break;
        }
        assert forall e :: e in scores && e !in moved ==> e in delayed[p] && delayed[p][e] == scores[e];
        OneMoreMoved(scores, moved, env.value, now);
        OneMoreMove(old(View()), p, moved, env.value);
        OneMoreWired(Ready(old(streams)[p]), moved, env.value, first);
        OneLessParked(scores, moved, env.value);
        Move(p, env.value);
        moved := moved + [env.value];
      }
    }

    /** The promoter's pass over the three priorities. A Redis error after the first few
        leaves those promoted and the others alone. */
    method PromoteDue(batch: nat, now: int, reached: nat) returns (promoted: seq<Envelope>, err: bool, ghost parts: seq<seq<Envelope>>)
      requires Valid()
      modifies this`streams, this`delayed, this`next
      ensures Valid() && next >= old(next) && err == (reached < 3)
      ensures |parts| == Min(reached, 3) && promoted == Flat(parts) && View() == old(View()).MoveParts(parts, |parts|)
      ensures forall i :: 0 <= i < |parts| ==>
                var p := PRIORITY_ORDER[i];
                Moved(old(streams)[p], streams[p], old(delayed)[p], delayed[p], parts[i], batch, now, old(next))
      ensures forall i :: |parts| <= i < 3 ==>
                streams[PRIORITY_ORDER[i]] == old(streams)[PRIORITY_ORDER[i]]
                && delayed[PRIORITY_ORDER[i]] == old(delayed)[PRIORITY_ORDER[i]]
    {
      hide StreamOk, Ready, InDueOrder, Moved, Held.Move, Held.MoveAll, Held.MoveParts, Wired, Flat;
      NothingFlat();
      NoMoves(View(), High);
      promoted, parts := [], [];
      for i := 0 to Min(reached, 3)
        invariant Valid() && |parts| == i && promoted == Flat(parts) && next >= old(next)
        invariant View() == old(View()).MoveParts(parts, |parts|)
        invariant forall j :: 0 <= j < i ==>
                    var p := PRIORITY_ORDER[j];
                    Moved(old(streams)[p], streams[p], old(delayed)[p], delayed[p], parts[j], batch, now, old(next))
        invariant forall j :: i <= j < 3 ==>
                    streams[PRIORITY_ORDER[j]] == old(streams)[PRIORITY_ORDER[j]]
                    && delayed[PRIORITY_ORDER[j]] == old(delayed)[PRIORITY_ORDER[j]]
      {
        var p := PRIORITY_ORDER[i];
        ghost var first := next;
        var moved := PromoteStream(p, batch, now);
        MovedOnce(old(streams)[p], streams[p], old(delayed)[p], delayed[p], moved, batch, now, first, old(next));
        OneMorePart(old(View()), parts, moved);
        OneMoreFlat(parts, moved);
        promoted, parts := promoted + moved, parts + [moved];
      }
      err := reached < 3;
    }

    // ---------------------------------------------------------------- reaping

    /** XAUTOCLAIM: the oldest pending entries idle for long enough change hands; the
        pending list keeps the same entries. */
    method AutoClaim(p: Priority, minIdle: int, batch: nat, now: int) returns (claimed: seq<Msg>)
      requires Valid()
      modifies this`streams
      ensures Valid() && claimed == Abandoned(old(streams)[p], minIdle, batch, now, old(streams)[p].cursor)
      ensures streams == old(streams)[p := TakenOver(old(streams)[p], claimed, now)]
      ensures streams[p].pel.Keys == old(streams)[p].pel.Keys
      ensures forall m :: m in claimed ==> m.id in streams[p].pel && streams[p].pel[m.id] == Hold(REAPER, now)
      ensures forall e :: e in streams[p].pel && e !in Ids(claimed) ==> streams[p].pel[e] == old(streams)[p].pel[e]
    {
      hide StreamOk, Ids, TakenOver;
      var st := streams[p];
      AbandonedSound(st, minIdle, batch, now, 0, next);
      claimed := [];
      for i := 0 to st.cursor
        invariant claimed == Abandoned(st, minIdle, batch, now, i)
      {
        if |claimed| < batch && IdleEntry(st, i, minIdle, now) {
          claimed := claimed + [st.entries[i]];
        }
      }
      AbandonedSound(st, minIdle, batch, now, st.cursor, next);
      TakeOverKeeps(st, claimed, now, next);
      TakenOverExactly(st, claimed, now);
      streams := streams[p := TakenOver(st, claimed, now)];
    }

    /** The abandoned deliveries of one priority, now held by the reaper. */
    method ReapStream(p: Priority, minIdle: int, batch: nat, now: int) returns (out: seq<Delivery>)
      requires Valid()
      modifies this`streams
      ensures Valid() && streams.Keys == old(streams).Keys && forall q :: q != p ==> streams[q] == old(streams)[q]
      ensures Ready(streams[p]) == Ready(old(streams)[p])
      ensures var claimed := Abandoned(old(streams)[p], minIdle, batch, now, old(streams)[p].cursor);
              && out == Deliveries(claimed, p) && |claimed| <= batch
              && streams[p].pel.Keys == old(streams)[p].pel.Keys - PoisonIds(claimed)
              && (AllDecode(claimed) ==> View() == old(View()).Take(p, claimed, now))
    {
      hide Abandoned, PoisonIds, Deliveries, Ids, Ready, TakenOver, AscendingIds, IdleEntry, StreamOk;
      AbandonedSound(streams[p], minIdle, batch, now, streams[p].cursor, next);
      ghost var st := streams[p];
      var claimed := AutoClaim(p, minIdle, batch, now);
      TakeOverKeeps(st, claimed, now, next);
      out := Decode(p, claimed);
    }

    /** This delivery's entry was handed out at some point. */
    ghost predicate Known(d: Delivery)
      reads this
    {
      d.priority in streams && d.entry < next && WasRead(streams[d.priority], d.entry)
    }

    /** The abandoned deliveries of all three priorities, highest first; an error part-way
        returns what was already claimed. */
    method ReapAbandoned(minIdle: int, batch: nat, now: int, reached: nat) returns (out: seq<Delivery>)
      requires Valid()
      modifies this`streams
      ensures Valid() && out == Reapable(old(streams), minIdle, batch, now, Min(reached, 3))
      ensures forall p :: Ready(streams[p]) == Ready(old(streams)[p])
      ensures forall d :: d in out ==>
                && Known(d) && d.entry in old(streams)[d.priority].pel
                && Msg(d.entry, Some(d.env)) in old(streams)[d.priority].entries
      ensures forall p, e | e in old(streams)[p].pel && e !in streams[p].pel :: PoisonEntry(old(streams)[p], e)
    {
      hide StreamOk, Ready, PoisonIds, Abandoned, Deliveries, WasRead, PoisonEntry;
      out := [];
      for i := 0 to Min(reached, 3)
        invariant Valid() && out == Reapable(old(streams), minIdle, batch, now, i)
        invariant forall p :: Ready(streams[p]) == Ready(old(streams)[p])
        invariant forall j :: i <= j < 3 ==> streams[PRIORITY_ORDER[j]] == old(streams)[PRIORITY_ORDER[j]]
        invariant forall d :: d in out ==>
                    && d.priority in streams && d.entry in old(streams)[d.priority].pel
                    && d.entry < next && WasRead(old(streams)[d.priority], d.entry)
                    && Msg(d.entry, Some(d.env)) in old(streams)[d.priority].entries
        invariant forall p, e | e in old(streams)[p].pel && e !in streams[p].pel :: PoisonEntry(old(streams)[p], e)
      {
        var p := PRIORITY_ORDER[i];
        var more := ReapStream(p, minIdle, batch, now);
        ReapedWereHeld(old(streams)[p], minIdle, batch, now, p, next);
        out := out + more;
      }
      forall d | d in out ensures Known(d) {
        SameReadySameRead(old(streams)[d.priority], streams[d.priority], d.entry);
      }
    }

    // ---------------------------------------------------------------- depths

    /** XLEN minus the pending count, clamped at zero: the clamp never bites, and the result
        is the true number of entries a fetch could return. */
    method Depth(p: Priority) returns (ready: nat, inFlight: nat, parked: nat)
      requires Valid()
      ensures ready == |Ready(streams[p])| && inFlight == |streams[p].pel| && parked == |delayed[p]|
    {
      ReadyIsLengthMinusPending(streams[p], next);
      ready := Max(0, |streams[p].entries| - |streams[p].pel|);
      inFlight, parked := |streams[p].pel|, |delayed[p]|;
    }
  }

  // ------------------------------------------------------------------ promotion order

  /** The entries XADD makes of a list of members. */
  function Wired(moved: seq<Envelope>, first: int): seq<Msg> {
    seq(|moved|, i requires 0 <= i < |moved| => Msg(first + i, Some(moved[i])))
  }

  lemma NothingWired(ready: seq<Msg>, first: int)
    ensures ready + Wired([], first) == ready
  {
  }

  lemma OneMoreWired(ready: seq<Msg>, moved: seq<Envelope>, env: Envelope, first: int)
    ensures ready + Wired(moved, first) + [Msg(first + |moved|, Some(env))] == ready + Wired(moved + [env], first)
  {
  }

  lemma OneLessParked(scores: map<Envelope, int>, moved: seq<Envelope>, env: Envelope)
    ensures scores - (set e | e in moved) - {env} == scores - (set e | e in moved + [env])
  {
  }

  /** Distinct due members, by ascending score, and none left behind that was due earlier. */
  ghost predicate InDueOrder(scores: map<Envelope, int>, moved: seq<Envelope>, now: int) {
    && (forall i :: 0 <= i < |moved| ==> moved[i] in scores && scores[moved[i]] <= now)
    && (forall i, j :: 0 <= i < j < |moved| ==> moved[i] != moved[j] && scores[moved[i]] <= scores[moved[j]])
    && (forall i, e :: 0 <= i < |moved| && e in scores && e !in moved ==> scores[moved[i]] <= scores[e])
  }

  lemma NothingMoved(scores: map<Envelope, int>, now: int)
    ensures InDueOrder(scores, [], now)
  {
  }

  lemma OneMoreMoved(scores: map<Envelope, int>, moved: seq<Envelope>, env: Envelope, now: int)
    requires InDueOrder(scores, moved, now) && env in scores && env !in moved && scores[env] <= now
    requires forall e :: e in scores && e !in moved ==> scores[env] <= scores[e]
    ensures InDueOrder(scores, moved + [env], now)
  {
  }

  function Flat(parts: seq<seq<Envelope>>): seq<Envelope> {
    if parts == [] then [] else Flat(parts[..|parts| - 1]) + parts[|parts| - 1]
  }

  lemma NothingFlat()
    ensures Flat([]) == []
  {
  }

  lemma OneMoreFlat(parts: seq<seq<Envelope>>, moved: seq<Envelope>)
    ensures Flat(parts + [moved]) == Flat(parts) + moved
  {
    assert (parts + [moved])[..|parts|] == parts;
  }

  /** One priority after a promotion: the moved members, and only those, left the delayed set
      for the back of the stream. */
  ghost predicate Moved(before: Stream, after: Stream, scores: map<Envelope, int>, left: map<Envelope, int>,
                        moved: seq<Envelope>, batch: nat, now: int, since: int)
  {
    && InDueOrder(scores, moved, now) && |moved| <= batch
    && left == scores - (set e | e in moved)
    && (|moved| < batch ==> forall e :: e in left ==> left[e] > now)
    && after.pel == before.pel
    && (exists first :: first >= since && Ready(after) == Ready(before) + Wired(moved, first))
  }

  lemma MovedOnce(before: Stream, after: Stream, scores: map<Envelope, int>, left: map<Envelope, int>,
                  moved: seq<Envelope>, batch: nat, now: int, first: int, since: int)
    requires InDueOrder(scores, moved, now) && |moved| <= batch && left == scores - (set e | e in moved)
    requires |moved| < batch ==> forall e :: e in left ==> left[e] > now
    requires after.pel == before.pel && first >= since && Ready(after) == Ready(before) + Wired(moved, first)
    ensures Moved(before, after, scores, left, moved, batch, now, since)
  {
  }

  /** Every moved member is now ready on its stream. */
  lemma MovedIsReady(before: Stream, after: Stream, scores: map<Envelope, int>, left: map<Envelope, int>,
                     moved: seq<Envelope>, batch: nat, now: int, since: int, env: Envelope)
    requires Moved(before, after, scores, left, moved, batch, now, since) && env in moved
    ensures exists m :: m in Ready(after) && m.env == Some(env) && m.id >= since
  {
    var first :| first >= since && Ready(after) == Ready(before) + Wired(moved, first);
    var i :| 0 <= i < |moved| && moved[i] == env;
    var m := Wired(moved, first)[i];
    assert m in Ready(after);
  }

  // ------------------------------------------------------------------ abandoned entries

  predicate IdleEntry(st: Stream, i: nat, minIdle: int, now: int)
    requires i < |st.entries|
  {
    st.entries[i].id in st.pel && st.pel[st.entries[i].id].since + minIdle <= now
  }

  /** The oldest batch of entries, among the first k, whose holder went silent. */
  function Abandoned(st: Stream, minIdle: int, batch: nat, now: int, k: nat): seq<Msg> {
    if k == 0 then []
    else
      var before := Abandoned(st, minIdle, batch, now, k - 1);
      if k <= |st.entries| && |before| < batch && IdleEntry(st, k - 1, minIdle, now) then before + [st.entries[k - 1]] else before
  }

  lemma {:induction false} AbandonedAscends(st: Stream, minIdle: int, batch: nat, now: int, k: nat)
    requires AscendingIds(st.entries) && k <= |st.entries|
    ensures var claimed := Abandoned(st, minIdle, batch, now, k);
            && AscendingIds(claimed) && |claimed| <= batch
            && (forall m :: m in claimed ==> k > 0 && m.id <= st.entries[k - 1].id)
  {
    hide IdleEntry;
    if k > 0 {
      AbandonedAscends(st, minIdle, batch, now, k - 1);
    }
  }

  lemma {:induction false} AbandonedIdle(st: Stream, minIdle: int, batch: nat, now: int, k: nat)
    ensures forall m :: m in Abandoned(st, minIdle, batch, now, k) ==> m.id in st.pel && st.pel[m.id].since + minIdle <= now
  {
    if k > 0 {
      AbandonedIdle(st, minIdle, batch, now, k - 1);
    }
  }

  lemma AbandonedSound(st: Stream, minIdle: int, batch: nat, now: int, k: nat, next: int)
    requires StreamOk(st, next) && k <= st.cursor
    ensures var claimed := Abandoned(st, minIdle, batch, now, k);
            && st.cursor <= |st.entries| && |claimed| <= batch && AscendingIds(claimed)
            && (forall m :: m in claimed ==> m.id in st.pel && st.pel[m.id].since + minIdle <= now)
            && Ids(claimed) <= st.pel.Keys
  {
    hide Abandoned;
    AbandonedAscends(st, minIdle, batch, now, k);
    AbandonedIdle(st, minIdle, batch, now, k);
  }

  /** A heartbeat protects its entry: no auto-claim takes it before the minimum idle time has
      passed again. */
  lemma HeartbeatProtects(st: Stream, c: Consumer, id: int, now: int, minIdle: int, batch: nat, at: int, k: nat)
    requires id in st.pel && at < now + minIdle
    ensures id !in Ids(Abandoned(Renewed(st, c, id, now), minIdle, batch, at, k))
  {
    hide Abandoned;
    AbandonedIdle(Renewed(st, c, id, now), minIdle, batch, at, k);
  }

  /** Every entry whose holder went silent is among them, unless the batch is full of older
      ones. */
  lemma {:induction false} AbandonedComplete(st: Stream, minIdle: int, batch: nat, now: int, k: nat)
    requires k <= |st.entries| && AscendingIds(st.entries)
    ensures var claimed := Abandoned(st, minIdle, batch, now, k);
            forall i :: 0 <= i < k && st.entries[i].id in st.pel && st.pel[st.entries[i].id].since + minIdle <= now ==>
              st.entries[i] in claimed || (|claimed| == batch && forall m :: m in claimed ==> m.id < st.entries[i].id)
  {
    if k > 0 {
      AbandonedComplete(st, minIdle, batch, now, k - 1);
      AbandonedAscends(st, minIdle, batch, now, k - 1);
    }
  }

  /** What a reap pass over the first i priorities returns. */
  function Reapable(streams: map<Priority, Stream>, minIdle: int, batch: nat, now: int, i: nat): seq<Delivery>
    requires i <= |PRIORITY_ORDER| && forall p: Priority :: p in streams
  {
    if i == 0 then []
    else
      var p := PRIORITY_ORDER[i - 1];
      Reapable(streams, minIdle, batch, now, i - 1)
      + Deliveries(Abandoned(streams[p], minIdle, batch, now, streams[p].cursor), p)
  }

  lemma {:induction false} DeliveriesMembers(ms: seq<Msg>, p: Priority)
    ensures forall d :: d in Deliveries(ms, p) ==> d.priority == p && Msg(d.entry, Some(d.env)) in ms && d.entry in Ids(ms)
  {
    if ms != [] {
      DeliveriesMembers(ms[..|ms| - 1], p);
      assert forall m :: m in ms[..|ms| - 1] ==> m in ms;
    }
  }

  ghost predicate PoisonEntry(st: Stream, id: int) {
    exists m :: m in st.entries && m.id == id && !Decodes(m)
  }

  lemma PoisonWasThere(st: Stream, ms: seq<Msg>)
    requires forall m :: m in ms ==> m in st.entries
    ensures forall e :: e in PoisonIds(ms) ==> PoisonEntry(st, e)
  {
  }

  lemma {:induction false} AbandonedArePresent(st: Stream, minIdle: int, batch: nat, now: int, k: nat)
    ensures forall m :: m in Abandoned(st, minIdle, batch, now, k) ==> m in st.entries
  {
    if k > 0 {
      AbandonedArePresent(st, minIdle, batch, now, k - 1);
    }
  }

  lemma ReapedWereHeld(st: Stream, minIdle: int, batch: nat, now: int, p: Priority, next: int)
    requires StreamOk(st, next)
    ensures forall d :: d in Deliveries(Abandoned(st, minIdle, batch, now, st.cursor), p) ==>
              && d.priority == p && d.entry in st.pel && d.entry < next && WasRead(st, d.entry)
              && Msg(d.entry, Some(d.env)) in st.entries
    ensures forall e :: e in PoisonIds(Abandoned(st, minIdle, batch, now, st.cursor)) ==> PoisonEntry(st, e)
  {
    AbandonedArePresent(st, minIdle, batch, now, st.cursor);
    PoisonWasThere(st, Abandoned(st, minIdle, batch, now, st.cursor));
    hide Deliveries, Abandoned, WasRead, PoisonEntry;
    var claimed := Abandoned(st, minIdle, batch, now, st.cursor);
    AbandonedSound(st, minIdle, batch, now, st.cursor, next);
    DeliveriesMembers(claimed, p);
    forall d | d in Deliveries(claimed, p) ensures d.entry < next && WasRead(st, d.entry) {
      HeldWasRead(st, d.entry, next);
      HeldBelowNext(st, d.entry, next);
    }
  }

  lemma HeldBelowNext(st: Stream, id: int, next: int)
    requires StreamOk(st, next) && id in st.pel
    ensures id < next
  {
    var m :| m in st.entries[..st.cursor] && m.id == id;
  }

  lemma SameReadySameRead(st: Stream, st': Stream, id: int)
    requires Ready(st) == Ready(st') && WasRead(st, id)
    ensures WasRead(st', id)
  {
  }

  /** XAUTOCLAIM changes who holds an entry and restarts its idle clock, nothing else. */
  function TakenOver(st: Stream, claimed: seq<Msg>, now: int): Stream {
    st.(pel := st.pel + map id | id in Ids(claimed) :: Hold(REAPER, now))
  }

  lemma TakenOverExactly(st: Stream, claimed: seq<Msg>, now: int)
    requires Ids(claimed) <= st.pel.Keys
    ensures TakenOver(st, claimed, now).pel.Keys == st.pel.Keys
    ensures forall m :: m in claimed ==> m.id in TakenOver(st, claimed, now).pel && TakenOver(st, claimed, now).pel[m.id] == Hold(REAPER, now)
    ensures forall e :: e in st.pel && e !in Ids(claimed) ==> TakenOver(st, claimed, now).pel[e] == st.pel[e]
  {
  }

  lemma TakeOverKeeps(st: Stream, claimed: seq<Msg>, now: int, next: int)
    requires StreamOk(st, next) && Ids(claimed) <= st.pel.Keys
    ensures StreamOk(TakenOver(st, claimed, now), next) && Ready(TakenOver(st, claimed, now)) == Ready(st)
    ensures TakenOver(st, claimed, now).pel.Keys == st.pel.Keys
  {
  }

  /** Stream i has given up its share of a fetch. */
  ghost predicate Served(before: map<Priority, Stream>, after: map<Priority, Stream>, backlog: seq<seq<Msg>>,
                         max: nat, i: nat)
    requires i < |backlog| == |PRIORITY_ORDER|
  {
    var p, ready := PRIORITY_ORDER[i], backlog[i];
    var k := Share(backlog, max, i);
    && p in before && p in after && Ready(after[p]) == ready[k..]
    && after[p].pel.Keys == before[p].pel.Keys + Ids(ready[..k]) - PoisonIds(ready[..k])
  }

  lemma ServedRead(before: map<Priority, Stream>, after: map<Priority, Stream>, backlog: seq<seq<Msg>>, max: nat, i: nat)
    requires i < |backlog| == |PRIORITY_ORDER|
    requires var p, k := PRIORITY_ORDER[i], Share(backlog, max, i);
             && p in before && p in after && Ready(after[p]) == backlog[i][k..]
             && after[p].pel.Keys == before[p].pel.Keys + Ids(backlog[i][..k]) - PoisonIds(backlog[i][..k])
    ensures Served(before, after, backlog, max, i)
  {
  }

  lemma ServedStays(before: map<Priority, Stream>, middle: map<Priority, Stream>, after: map<Priority, Stream>,
                    backlog: seq<seq<Msg>>, max: nat, i: nat)
    requires i < |backlog| == |PRIORITY_ORDER| && Served(before, middle, backlog, max, i)
    requires PRIORITY_ORDER[i] in after && after[PRIORITY_ORDER[i]] == middle[PRIORITY_ORDER[i]]
    ensures Served(before, after, backlog, max, i)
  {
  }

  lemma ServedNothing(before: map<Priority, Stream>, after: map<Priority, Stream>, backlog: seq<seq<Msg>>,
                      max: nat, i: nat)
    requires i < |backlog| == |PRIORITY_ORDER|
    requires PRIORITY_ORDER[i] in before && PRIORITY_ORDER[i] in after
    requires Share(backlog, max, i) == 0 && after[PRIORITY_ORDER[i]] == before[PRIORITY_ORDER[i]]
    requires backlog[i] == Ready(before[PRIORITY_ORDER[i]])
    ensures Served(before, after, backlog, max, i)
  {
  }

  lemma FetchedNothing(before: map<Priority, Stream>, after: map<Priority, Stream>, ready: seq<seq<Msg>>, max: nat)
    requires |ready| == |PRIORITY_ORDER|
    requires |ready| == 3 && forall j :: 0 <= j < 3 ==>
               && PRIORITY_ORDER[j] in before && PRIORITY_ORDER[j] in after
               && after[PRIORITY_ORDER[j]] == before[PRIORITY_ORDER[j]] && ready[j] == Ready(before[PRIORITY_ORDER[j]])
    ensures Fetched(ready, max, 0) == [] && ServedSoFar(before, after, ready, max, 0) && Untouched(before, after, ready, 0)
  {
  }

  /** The streams from i on are as they were when the backlog was taken. */
  ghost predicate Untouched(before: map<Priority, Stream>, after: map<Priority, Stream>, backlog: seq<seq<Msg>>, i: nat)
    requires |backlog| == 3
  {
    forall j :: i <= j < 3 ==>
      && PRIORITY_ORDER[j] in before && PRIORITY_ORDER[j] in after
      && after[PRIORITY_ORDER[j]] == before[PRIORITY_ORDER[j]] && backlog[j] == Ready(before[PRIORITY_ORDER[j]])
  }

  lemma NextUntouched(before: map<Priority, Stream>, after: map<Priority, Stream>, backlog: seq<seq<Msg>>, i: nat)
    requires i < |backlog| == 3 && Untouched(before, after, backlog, i)
    ensures PRIORITY_ORDER[i] in before && PRIORITY_ORDER[i] in after
    ensures after[PRIORITY_ORDER[i]] == before[PRIORITY_ORDER[i]] && Ready(after[PRIORITY_ORDER[i]]) == backlog[i]
  {
  }

  /** The first i streams have given up their shares. */
  ghost predicate ServedSoFar(before: map<Priority, Stream>, after: map<Priority, Stream>, backlog: seq<seq<Msg>>,
                              max: nat, i: nat)
    requires i <= |backlog| == |PRIORITY_ORDER|
  {
    forall j :: 0 <= j < i ==> Served(before, after, backlog, max, j)
  }

  /** What was fetched from the first i priorities is held. */
  ghost predicate HeldBy(streams: map<Priority, Stream>, out: seq<Delivery>, h: Hold, i: nat)
    requires i <= |PRIORITY_ORDER|
  {
    forall d :: d in out ==>
      && (exists j :: 0 <= j < i && d.priority == PRIORITY_ORDER[j])
      && d.priority in streams && d.entry in streams[d.priority].pel && streams[d.priority].pel[d.entry] == h
  }

  lemma NothingHeld(streams: map<Priority, Stream>, h: Hold)
    ensures HeldBy(streams, [], h, 0)
  {
  }

  lemma MoreHeld(middle: map<Priority, Stream>, after: map<Priority, Stream>, out: seq<Delivery>, more: seq<Delivery>, h: Hold, i: nat)
    requires i < |PRIORITY_ORDER| && HeldBy(middle, out, h, i) && PRIORITY_ORDER[i] in after
    requires middle.Keys == after.Keys && forall q :: q in middle && q != PRIORITY_ORDER[i] ==> after[q] == middle[q]
    requires forall d :: d in more ==>
               d.priority == PRIORITY_ORDER[i] && d.entry in after[d.priority].pel && after[d.priority].pel[d.entry] == h
    ensures HeldBy(after, out + more, h, i + 1)
  {
    assert forall j :: 0 <= j < i ==> PRIORITY_ORDER[j] != PRIORITY_ORDER[i];
    forall d | d in out + more ensures exists j :: 0 <= j < i + 1 && d.priority == PRIORITY_ORDER[j] {
      if d in more {
        assert d.priority == PRIORITY_ORDER[i];
      }
    }
  }

  lemma AllHeld(streams: map<Priority, Stream>, out: seq<Delivery>, h: Hold, i: nat)
    requires i <= |PRIORITY_ORDER| && HeldBy(streams, out, h, i)
    ensures forall d :: d in out ==> d.priority in streams && d.entry in streams[d.priority].pel && streams[d.priority].pel[d.entry] == h
  {
  }

  /** A fetch priority by priority: each stream is read for what the sound deliveries of those
      above it left free. */
  lemma FetchedSpelledOut(before: map<Priority, Stream>, after: map<Priority, Stream>, backlog: seq<seq<Msg>>, max: nat)
    requires |backlog| == 3 && ServedSoFar(before, after, backlog, max, 3)
    ensures var high, normal, low := backlog[0], backlog[1], backlog[2];
            var h := Min(max, |high|);
            var first := Deliveries(high[..h], High);
            var n := Min(Max(0, max - |first|), |normal|);
            var second := Deliveries(normal[..n], Default);
            var l := Min(Max(0, max - |first| - |second|), |low|);
            && Fetched(backlog, max, 3) == first + second + Deliveries(low[..l], Low)
            && High in after && Default in after && Low in after
            && Ready(after[High]) == high[h..] && Ready(after[Default]) == normal[n..] && Ready(after[Low]) == low[l..]
  {
    hide Deliveries, Ready, Ids, PoisonIds;
    assert Fetched(backlog, max, 0) == [];
    assert Fetched(backlog, max, 1) == Deliveries(backlog[0][..Share(backlog, max, 0)], High);
    assert Fetched(backlog, max, 2) == Fetched(backlog, max, 1) + Deliveries(backlog[1][..Share(backlog, max, 1)], Default);
    assert Fetched(backlog, max, 3) == Fetched(backlog, max, 2) + Deliveries(backlog[2][..Share(backlog, max, 2)], Low);
    assert Served(before, after, backlog, max, 0) && Served(before, after, backlog, max, 1) && Served(before, after, backlog, max, 2);
  }

  lemma StopEarly(before: map<Priority, Stream>, after: map<Priority, Stream>, backlog: seq<seq<Msg>>, max: nat, i: nat)
    requires i < |backlog| == |PRIORITY_ORDER| && ServedSoFar(before, after, backlog, max, i)
    requires |Fetched(backlog, max, i)| == max && Untouched(before, after, backlog, i)
    ensures ServedSoFar(before, after, backlog, max, 3) && Fetched(backlog, max, 3) == Fetched(backlog, max, i)
  {
    hide Ready, Fetched, Served, Share;
    forall j | i <= j < 3 ensures Served(before, after, backlog, max, j) {
      FullFetchStops(backlog, max, i, j);
      ServedNothing(before, after, backlog, max, j);
    }
    FullFetchStops(backlog, max, i, 3);
  }

  lemma OneMoreServed(before: map<Priority, Stream>, middle: map<Priority, Stream>, after: map<Priority, Stream>,
                      backlog: seq<seq<Msg>>, max: nat, i: nat)
    requires i < |backlog| == |PRIORITY_ORDER| && ServedSoFar(before, middle, backlog, max, i) && Untouched(before, middle, backlog, i)
    requires forall q: Priority :: q in middle && q in after && (q != PRIORITY_ORDER[i] ==> after[q] == middle[q])
    requires var p, k := PRIORITY_ORDER[i], Share(backlog, max, i);
             && p in before && Ready(after[p]) == backlog[i][k..]
             && after[p].pel.Keys == before[p].pel.Keys + Ids(backlog[i][..k]) - PoisonIds(backlog[i][..k])
    ensures ServedSoFar(before, after, backlog, max, i + 1) && Untouched(before, after, backlog, i + 1)
  {
    hide Ready, Fetched, Served, Share, Ids, PoisonIds;
    ServedRead(before, after, backlog, max, i);
    forall j | 0 <= j < i ensures Served(before, after, backlog, max, j) {
      ServedStays(before, middle, after, backlog, max, j);
    }
  }

  /** How many entries stream i is asked for. */
  lemma ShareIs(ready: seq<seq<Msg>>, max: nat, i: nat)
    requires i < |ready| == |PRIORITY_ORDER|
    ensures Share(ready, max, i) == Min(max - |Fetched(ready, max, i)|, |ready[i]|)
  {
  }

  lemma FetchedMore(ready: seq<seq<Msg>>, max: nat, i: nat)
    requires i < |ready| == |PRIORITY_ORDER|
    ensures Fetched(ready, max, i + 1)
            == Fetched(ready, max, i) + Deliveries(ready[i][..Share(ready, max, i)], PRIORITY_ORDER[i])
  {
  }
}
