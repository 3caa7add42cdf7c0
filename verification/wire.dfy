/** The queue's streams and delayed sets against the wire of the protocol: what each Redis
    command does to the one, it does to the other. */
module Wire {
  import opened Common
  import opened Job
  import opened Queues
  import P = Protocol

  /** One priority: its entries are envelopes of that priority, ... */
  ghost predicate SoundAt(w: Held, p: Priority) {
    && p in w.streams && p in w.delayed && StreamOk(w.streams[p], w.next)
    && (forall m | m in w.streams[p].entries :: 0 <= m.id && m.env.Some? && m.env.value.priority == p)
    && (forall env | env in w.delayed[p] :: env.priority == p)
  }

  /** ... the protocol's stream holds the same ones, ... */
  ghost predicate EntriesSame(entries: seq<Msg>, p: Priority, stream: map<P.EntryId, Envelope>) {
    && (forall m | m in entries :: 0 <= m.id && m.id in stream && Some(stream[m.id]) == m.env)
    && (forall e | e in stream && stream[e].priority == p :: Msg(e, Some(stream[e])) in entries)
  }

  /** ... the same ones are pending, under the same clocks, ... */
  ghost predicate PendingSame(pel: map<int, Hold>, p: Priority, stream: map<P.EntryId, Envelope>, pending: map<P.EntryId, int>) {
    && (forall e | e in pel :: 0 <= e && e in pending && pending[e] == pel[e].since)
    && (forall e | e in pending && e in stream && stream[e].priority == p :: e in pel)
  }

  /** ... and the same members are parked. */
  ghost predicate ParkedSame(parked: map<Envelope, int>, p: Priority, delayed: map<Envelope, int>) {
    && (forall env | env in parked :: env in delayed && delayed[env] == parked[env])
    && (forall env | env in delayed && env.priority == p :: env in parked)
  }

  ghost predicate SameAt(w: Held, redis: P.Redis, p: Priority) {
    && SoundAt(w, p) && EntriesSame(w.streams[p].entries, p, redis.stream)
    && PendingSame(w.streams[p].pel, p, redis.stream, redis.pel) && ParkedSame(w.delayed[p], p, redis.delayed)
  }

  /** The protocol's wire holds what the queue holds. */
  ghost predicate Carries(w: Held, redis: P.Redis) {
    && 0 <= w.next == redis.next && redis.pel.Keys <= redis.stream.Keys
    && forall p: Priority :: SameAt(w, redis, p)
  }

  // ------------------------------------------------------------------ the delayed set

  /** ZADD. */
  lemma ParkCarries(w: Held, redis: P.Redis, env: Envelope, at: int)
    requires Carries(w, redis)
    ensures Carries(w.Park(env, at), redis.ZAdd(env, at))
  {
    hide StreamOk, EntriesSame, PendingSame;
    var w', redis' := w.Park(env, at), redis.ZAdd(env, at);
    forall p: Priority ensures SameAt(w', redis', p) {
      assert SameAt(w, redis, p);
    }
  }

  /** ZREM. */
  lemma UnparkCarries(w: Held, redis: P.Redis, env: Envelope)
    requires Carries(w, redis)
    ensures env.priority in w.delayed
    ensures Carries(w.(delayed := w.delayed[env.priority := w.delayed[env.priority] - {env}]), redis.(delayed := redis.delayed - {env}))
  {
    hide StreamOk, EntriesSame, PendingSame;
    assert SameAt(w, redis, env.priority);
    var w', redis' := w.(delayed := w.delayed[env.priority := w.delayed[env.priority] - {env}]), redis.(delayed := redis.delayed - {env});
    forall p: Priority ensures SameAt(w', redis', p) {
      assert SameAt(w, redis, p);
    }
  }

  /** ZREM and XADD in one script. */
  lemma MoveCarries(w: Held, redis: P.Redis, env: Envelope)
    requires Carries(w, redis) && w.Complete()
    ensures Carries(w.Move(env.priority, env), redis.Move(env))
  {
    hide StreamOk, EntriesSame, PendingSame, ParkedSame, Added, Carries;
    AddCarries(w, redis, env);
    UnparkCarries(w.Put(env), redis.XAdd(env), env);
  }

  // ------------------------------------------------------------------ adding

  /** XADD. */
  lemma AddCarries(w: Held, redis: P.Redis, env: Envelope)
    requires Carries(w, redis) && w.Complete()
    ensures Carries(w.Put(env), redis.XAdd(env))
  {
    hide StreamOk, EntriesSame, PendingSame, ParkedSame, Added;
    var m := Msg(w.next, Some(env));
    var w', redis' := w.Put(env), redis.XAdd(env);
    NextIsFree(w, redis);
    forall p: Priority ensures SameAt(w', redis', p) {
      assert SameAt(w, redis, p);
      StreamOkMonotone(w.streams[p], w.next);
      if p == env.priority {
        AddKeeps(w.streams[p], m, w.next);
        AddedMembers(w.streams[p], m);
        AddedSame(w.streams[p].entries, w'.streams[p].entries, p, redis.stream, redis.next, env);
        AddedPending(w.streams[p].pel, p, redis.stream, redis.pel, redis.next, env);
      } else {
        OtherEntriesSame(w.streams[p].entries, p, redis.stream, redis.next, env);
        AddedPending(w.streams[p].pel, p, redis.stream, redis.pel, redis.next, env);
      }
    }
  }

  lemma AddedMembers(st: Stream, m: Msg)
    ensures Added(st, m).pel == st.pel
    ensures forall x :: x in Added(st, m).entries <==> x in st.entries || x == m
  {
  }

  lemma AddedSame(entries: seq<Msg>, entries': seq<Msg>, p: Priority, stream: map<P.EntryId, Envelope>, next: P.EntryId, env: Envelope)
    requires EntriesSame(entries, p, stream) && next !in stream
    requires forall x :: x in entries' <==> x in entries || x == Msg(next, Some(env))
    ensures EntriesSame(entries', p, stream[next := env])
  {
  }

  lemma OtherEntriesSame(entries: seq<Msg>, p: Priority, stream: map<P.EntryId, Envelope>, next: P.EntryId, env: Envelope)
    requires EntriesSame(entries, p, stream) && next !in stream && env.priority != p
    ensures EntriesSame(entries, p, stream[next := env])
  {
  }

  lemma AddedPending(pel: map<int, Hold>, p: Priority, stream: map<P.EntryId, Envelope>, pending: map<P.EntryId, int>, next: P.EntryId,
                     env: Envelope)
    requires PendingSame(pel, p, stream, pending) && next !in stream && pending.Keys <= stream.Keys
    ensures PendingSame(pel, p, stream[next := env], pending)
  {
  }

  /** The next identifier is on neither side. */
  lemma NextIsFree(w: Held, redis: P.Redis)
    requires Carries(w, redis)
    ensures redis.next !in redis.stream
  {
    if redis.next in redis.stream {
      EntryIsIssued(w, redis, redis.next);
      assert false;
    }
  }

  lemma EntryIsIssued(w: Held, redis: P.Redis, e: P.EntryId)
    requires Carries(w, redis) && e in redis.stream
    ensures e < w.next
  {
    var p := redis.stream[e].priority;
    assert SameAt(w, redis, p);
    assert Msg(e, Some(redis.stream[e])) in w.streams[p].entries;
  }

  // ------------------------------------------------------------------ one entry, one stream

  /** What the protocol knows of an entry places it in one stream. */
  lemma ElsewhereAbsent(w: Held, redis: P.Redis, e: P.EntryId, env: Envelope, p: Priority)
    requires Carries(w, redis) && (e in redis.stream ==> redis.stream[e] == env) && p != env.priority
    ensures p in w.streams && (forall m | m in w.streams[p].entries :: m.id != e) && e !in w.streams[p].pel
  {
    assert SameAt(w, redis, p);
    if e in w.streams[p].pel {
      HeldIsThere(w.streams[p], e, w.next);
      assert false;
    }
  }

  lemma HeldIsThere(st: Stream, e: int, next: int)
    requires StreamOk(st, next) && e in st.pel
    ensures exists m :: m in st.entries && m.id == e
  {
    var m :| m in st.entries[..st.cursor] && m.id == e;
    assert m in st.entries;
  }

  // ------------------------------------------------------------------ acking

  /** XACK and XDEL of an entry that was read. */
  lemma AckCarries(w: Held, redis: P.Redis, e: P.EntryId, env: Envelope)
    requires Carries(w, redis) && (e in redis.stream ==> redis.stream[e] == env)
    requires w.Complete() && WasRead(w.streams[env.priority], e)
    ensures Carries(w.Ack(env.priority, e), redis.Ack(e))
  {
    hide StreamOk, Acked, Ready, WasRead, EntriesSame, PendingSame, ParkedSame;
    var st, st' := w.streams[env.priority], Acked(w.streams[env.priority], e);
    var w', redis' := w.Ack(env.priority, e), redis.Ack(e);
    forall p: Priority ensures SameAt(w', redis', p) {
      assert SameAt(w, redis, p);
      if p == env.priority {
        AckSafe(st, e, w.next);
      } else {
        ElsewhereAbsent(w, redis, e, env, p);
        assert w.streams[p].pel - {e} == w.streams[p].pel;
      }
      AckedEntries(w.streams[p].entries, w'.streams[p].entries, p, redis.stream, e);
      AckedPending(w.streams[p].pel, p, redis.stream, redis.pel, e);
    }
  }

  lemma AckedEntries(entries: seq<Msg>, entries': seq<Msg>, p: Priority, stream: map<P.EntryId, Envelope>, e: P.EntryId)
    requires EntriesSame(entries, p, stream) && forall m :: m in entries' <==> m in entries && m.id != e
    ensures EntriesSame(entries', p, stream - {e})
  {
  }

  lemma AckedPending(pel: map<int, Hold>, p: Priority, stream: map<P.EntryId, Envelope>, pending: map<P.EntryId, int>, e: P.EntryId)
    requires PendingSame(pel, p, stream, pending)
    ensures PendingSame(pel - {e}, p, stream - {e}, pending - {e})
  {
  }

  // ------------------------------------------------------------------ holding

  /** XCLAIM of an entry still held. */
  lemma RenewCarries(w: Held, redis: P.Redis, c: Consumer, e: P.EntryId, env: Envelope, now: int)
    requires Carries(w, redis) && e in redis.stream && redis.stream[e] == env
    requires w.Complete() && e in w.streams[env.priority].pel
    ensures Carries(w.Renew(env.priority, c, e, now), redis.Hold(e, now))
  {
    hide StreamOk, Ready, EntriesSame, PendingSame, ParkedSame, Renewed;
    var st, st' := w.streams[env.priority], Renewed(w.streams[env.priority], c, e, now);
    var w', redis' := w.Renew(env.priority, c, e, now), redis.Hold(e, now);
    forall p: Priority ensures SameAt(w', redis', p) {
      assert SameAt(w, redis, p);
      if p == env.priority {
        RenewedExactly(st, c, e, now, w.next);
      } else {
        ElsewhereAbsent(w, redis, e, env, p);
      }
      RenewedPending(w.streams[p].pel, w'.streams[p].pel, p, redis.stream, redis.pel, e, now);
    }
  }

  lemma RenewedPending(pel: map<int, Hold>, pel': map<int, Hold>, p: Priority, stream: map<P.EntryId, Envelope>,
                       pending: map<P.EntryId, int>, e: P.EntryId, now: int)
    requires PendingSame(pel, p, stream, pending) && pel'.Keys == pel.Keys && (e in stream && stream[e].priority == p ==> e in pel)
    requires (forall x | x in pel && x != e :: pel'[x] == pel[x]) && (e in pel ==> pel'[e].since == now)
    ensures PendingSame(pel', p, stream, pending[e := now])
  {
  }

  lemma CarriedIsComplete(w: Held, redis: P.Redis)
    requires Carries(w, redis)
    ensures w.Complete()
  {
    forall p: Priority ensures p in w.streams {
      assert SameAt(w, redis, p);
    }
  }

  /** What is pending in the queue is held in the protocol, and the other way round. */
  lemma PendingBothWays(w: Held, redis: P.Redis, e: P.EntryId, env: Envelope)
    requires Carries(w, redis) && (e in redis.stream ==> redis.stream[e] == env)
    ensures env.priority in w.streams && (e in w.streams[env.priority].pel <==> e in redis.pel)
  {
    assert SameAt(w, redis, env.priority);
    if e in w.streams[env.priority].pel {
      HeldIsThere(w.streams[env.priority], e, w.next);
    }
  }

  // ------------------------------------------------------------------ reading

  /** What a read of one stream comes to next. */
  lemma NextReady(w: Held, redis: P.Redis, p: Priority)
    requires Carries(w, redis) && w.Complete() && Ready(w.streams[p]) != []
    ensures var m := Ready(w.streams[p])[0];
            && 0 <= m.id && m.env.Some? && m.env.value.priority == p && m.id in redis.stream && redis.stream[m.id] == m.env.value
            && m.id !in redis.pel && m.id !in w.streams[p].pel && WasRead(Delivered(w.streams[p], 1, REAPER, 0), m.id)
  {
    assert SameAt(w, redis, p);
    var st := w.streams[p];
    var m := Ready(st)[0];
    assert m in st.entries;
    if m.id in st.pel {
      HeldWasRead(st, m.id, w.next);
      assert false;
    }
    PendingBothWays(w, redis, m.id, m.env.value);
    DeliveredMoves(st, 1, REAPER, 0, w.next);
  }

  lemma ReadOne(st: Stream, c: Consumer, now: int)
    requires Ready(st) != []
    ensures var e := Ready(st)[0].id;
            && Delivered(st, 1, c, now).pel.Keys == st.pel.Keys + {e} && Delivered(st, 1, c, now).pel[e] == Hold(c, now)
            && forall x :: x in st.pel && x != e ==> Delivered(st, 1, c, now).pel[x] == st.pel[x]
  {
    assert Ready(st)[..1] == [Ready(st)[0]];
    assert Ids(Ready(st)[..1]) == {Ready(st)[0].id};
  }

  /** XREADGROUP of one entry. */
  lemma ReadCarries(w: Held, redis: P.Redis, p: Priority, c: Consumer, now: int)
    requires Carries(w, redis) && w.Complete() && Ready(w.streams[p]) != []
    ensures var e := Ready(w.streams[p])[0].id; 0 <= e && Carries(w.Read(p, 1, c, now), redis.Hold(e, now))
  {
    hide StreamOk, Ready, EntriesSame, PendingSame, ParkedSame, Delivered, WasRead;
    NextReady(w, redis, p);
    var st := w.streams[p];
    var e, env := Ready(st)[0].id, Ready(st)[0].env.value;
    var w', redis' := w.Read(p, 1, c, now), redis.Hold(e, now);
    forall q: Priority ensures SameAt(w', redis', q) {
      assert SameAt(w, redis, q);
      if q == p {
        DeliveredMoves(st, 1, c, now, w.next);
        ReadOne(st, c, now);
        ReadPending(st.pel, w'.streams[p].pel, p, redis.stream, redis.pel, e, now);
      } else {
        ElsewhereAbsent(w, redis, e, env, q);
        RenewedPending(w.streams[q].pel, w'.streams[q].pel, q, redis.stream, redis.pel, e, now);
      }
    }
  }

  lemma ReadPending(pel: map<int, Hold>, pel': map<int, Hold>, p: Priority, stream: map<P.EntryId, Envelope>,
                    pending: map<P.EntryId, int>, e: P.EntryId, now: int)
    requires PendingSame(pel, p, stream, pending) && pel'.Keys == pel.Keys + {e} && pel'[e].since == now
    requires forall x | x in pel && x != e :: pel'[x] == pel[x]
    ensures PendingSame(pel', p, stream, pending[e := now])
  {
  }

  /** XAUTOCLAIM of one entry. */
  lemma TakeCarries(w: Held, redis: P.Redis, m: Msg, env: Envelope, now: int)
    requires Carries(w, redis) && 0 <= m.id && m.id in redis.stream && redis.stream[m.id] == env
    requires w.Complete() && m.id in w.streams[env.priority].pel
    ensures Carries(w.Take(env.priority, [m], now), redis.Hold(m.id, now))
  {
    hide StreamOk, Ready, EntriesSame, PendingSame, ParkedSame, TakenOver;
    var st, st' := w.streams[env.priority], TakenOver(w.streams[env.priority], [m], now);
    var w', redis' := w.Take(env.priority, [m], now), redis.Hold(m.id, now);
    assert Ids([m]) == {m.id} by { OneId(m); }
    TakenOverExactly(st, [m], now);
    assert m in [m];
    forall p: Priority ensures SameAt(w', redis', p) {
      assert SameAt(w, redis, p);
      if p == env.priority {
        TakeOverKeeps(st, [m], now, w.next);
        TakenEntries(st, [m], now);
      } else {
        ElsewhereAbsent(w, redis, m.id, env, p);
      }
      RenewedPending(w.streams[p].pel, w'.streams[p].pel, p, redis.stream, redis.pel, m.id, now);
    }
  }

  lemma OneId(m: Msg)
    ensures Ids([m]) == {m.id}
  {
  }

  lemma TakenEntries(st: Stream, ms: seq<Msg>, now: int)
    ensures TakenOver(st, ms, now).entries == st.entries
  {
  }
}
