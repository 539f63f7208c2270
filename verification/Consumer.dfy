/** The handlers of the Cassandra consumer as programs (server/transfer/cassandra/main.cc), each run
    without interruption: what one call does to the counters, the inbox operations, the pool and the
    outgoing calls. */
module Consumer {
  import opened Options
  import opened Wire
  import opened Messages
  import opened Topic
  import opened Transfer
  import Rpc

  /** The state after a user's counter was raised, the inbox written and the call started. */
  function Sent(t: State, mq: MqMessage, uid: Uid, ok: bool, i: Rpc.Id): State {
    if !ok || CounterOf(t, uid) == MAX_SEQ then t.(dropped := t.dropped + {(mq, uid)})
    else
      var x := Ticket(uid, CounterOf(t, uid) + 1, mq);
      t.(counters := t.counters[uid := x.no], handed := t.handed + [x], ops := t.ops + multiset{InsertOf(x)},
         calls := t.calls[i := Flying(x)])
  }

  predicate AllBack(calls: map<Rpc.Id, Call>, tags: seq<Rpc.Id>) {
    forall i <- tags :: i in calls && calls[i].Back?
  }

  /** Those of these calls that came back OK for this user and number. */
  function Confirmed(calls: map<Rpc.Id, Call>, tags: seq<Rpc.Id>, uid: Uid, no: int64): set<Rpc.Id>
    requires AllBack(calls, tags)
  {
    set i <- tags | calls[i].status == Rpc.OK && calls[i].x.uid == uid && calls[i].x.no == no
  }

  lemma ConfirmedNext(calls: map<Rpc.Id, Call>, tags: seq<Rpc.Id>, i: Rpc.Id)
    requires AllBack(calls, tags) && i in calls && calls[i].Back? && i !in tags
    ensures AllBack(calls, tags + [i])
    ensures forall uid, no :: |Confirmed(calls, tags + [i], uid, no)|
                           == |Confirmed(calls, tags, uid, no)|
                            + if calls[i].status == Rpc.OK && calls[i].x.uid == uid && calls[i].x.no == no then 1 else 0
  {
    forall uid, no
      ensures |Confirmed(calls, tags + [i], uid, no)|
           == |Confirmed(calls, tags, uid, no)|
            + if calls[i].status == Rpc.OK && calls[i].x.uid == uid && calls[i].x.no == no then 1 else 0
    {
      var more := if calls[i].status == Rpc.OK && calls[i].x.uid == uid && calls[i].x.no == no then {i} else {};
      assert Confirmed(calls, tags + [i], uid, no) == Confirmed(calls, tags, uid, no) + more;
    }
  }

  ghost predicate Acknowledges(calls: map<Rpc.Id, Call>, tags: seq<Rpc.Id>, x: Ticket)
    requires AllBack(calls, tags)
  {
    exists i <- tags :: calls[i].status == Rpc.OK && calls[i].x == x
  }

  lemma Acknowledged(calls: map<Rpc.Id, Call>, tags: seq<Rpc.Id>, i: Rpc.Id)
    requires AllBack(calls, tags) && i in calls && calls[i].Back? && AllBack(calls, tags + [i])
    ensures forall x :: Acknowledges(calls, tags + [i], x)
                   <==> Acknowledges(calls, tags, x) || (calls[i].status == Rpc.OK && calls[i].x == x)
  {
    assert i in tags + [i] && forall j <- tags :: j in tags + [i];
  }

  /** What the completion loop has done from state a to state b. */
  ghost predicate Progress(a: State, b: State, tags: seq<Rpc.Id>)
    requires AllBack(a.calls, tags)
  {
    && b == a.(calls := b.calls, pool := b.pool, acked := b.acked)
    && b.calls.Keys == a.calls.Keys
    && (forall i <- b.calls :: b.calls[i] == if i in tags then Deleted(a.calls[i].x) else a.calls[i])
    && (forall uid, no :: b.pool[Remove(uid, no)] == a.pool[Remove(uid, no)] + |Confirmed(a.calls, tags, uid, no)|)
    && (forall k: Task :: k.Remove? || b.pool[k] == a.pool[k])
    && (forall x :: x in b.acked <==> x in a.acked || Acknowledges(a.calls, tags, x))
  }

  lemma ProgressNone(a: State)
    ensures Progress(a, a, [])
  {
  }

  lemma StillBack(a: State, b: State, tags: seq<Rpc.Id>, i: Rpc.Id)
    requires AllBack(a.calls, tags) && Progress(a, b, tags) && i !in tags && i in a.calls
    ensures i in b.calls && b.calls[i] == a.calls[i]
  {
    hide Confirmed, Acknowledges;
  }

  lemma ProgressNext(a: State, b: State, c: State, tags: seq<Rpc.Id>, i: Rpc.Id)
    requires AllBack(a.calls, tags) && Progress(a, b, tags) && i !in tags && i in a.calls && a.calls[i].Back?
    requires c == b.(calls := c.calls, pool := c.pool, acked := c.acked)
    requires c.calls == b.calls[i := Deleted(a.calls[i].x)]
    requires var (x, ok) := (a.calls[i].x, a.calls[i].status == Rpc.OK);
             && c.pool == b.pool + (if ok then multiset{Remove(x.uid, x.no)} else multiset{})
             && c.acked == b.acked + (if ok then {x} else {})
    ensures AllBack(a.calls, tags + [i]) && Progress(a, c, tags + [i])
  {
    hide Confirmed, Acknowledges;
    ConfirmedNext(a.calls, tags, i);
    Acknowledged(a.calls, tags, i);
  }

  lemma ProgressMeans(a: State, b: State, tags: seq<Rpc.Id>)
    requires AllBack(a.calls, tags) && Progress(a, b, tags)
    ensures b == a.(calls := b.calls, pool := b.pool, acked := b.acked) && b.calls.Keys == a.calls.Keys
    ensures forall i <- b.calls :: b.calls[i] == if i in tags then Deleted(a.calls[i].x) else a.calls[i]
    ensures forall uid, no ::
              b.pool[Remove(uid, no)]
              == a.pool[Remove(uid, no)]
               + |set i <- tags | a.calls[i].status == Rpc.OK && a.calls[i].x.uid == uid && a.calls[i].x.no == no|
    ensures forall k: Task :: k.Remove? || b.pool[k] == a.pool[k]
    ensures forall x :: x in b.acked <==>
              x in a.acked || exists i <- tags :: a.calls[i].status == Rpc.OK && a.calls[i].x == x
  {
    forall uid, no
      ensures b.pool[Remove(uid, no)]
           == a.pool[Remove(uid, no)]
            + |set i <- tags | a.calls[i].status == Rpc.OK && a.calls[i].x.uid == uid && a.calls[i].x.no == no|
    {
      assert Confirmed(a.calls, tags, uid, no)
          == set i <- tags | a.calls[i].status == Rpc.OK && a.calls[i].x.uid == uid && a.calls[i].x.no == no;
    }
  }

  lemma Cut(tags: seq<Rpc.Id>, n: nat)
    requires n < |tags| && forall i, j | 0 <= i < j < |tags| :: tags[i] != tags[j]
    ensures tags[..n + 1] == tags[..n] + [tags[n]] && tags[n] in tags && tags[n] !in tags[..n]
    ensures forall i <- tags[..n] :: i in tags
  {
  }

  /** Spelled out: unless the counter fails, the number is one more than the counter, or 1, and the counter, the
      insert and the call all carry it. */
  lemma SentMeans(t: State, mq: MqMessage, uid: Uid, ok: bool, i: Rpc.Id)
    ensures var count := if uid in t.counters then t.counters[uid] else 0;
            var t' := Sent(t, mq, uid, ok, i);
            if !ok || count == 0x7FFF_FFFF_FFFF_FFFF then t' == t.(dropped := t.dropped + {(mq, uid)})
            else
              && t'.counters == t.counters[uid := count + 1] && t'.handed == t.handed + [Ticket(uid, count + 1, mq)]
              && t'.ops == t.ops + multiset{Insert(Row(ReadInt64(uid), count + 1), MsgidOf(HandleResult(mq)))}
              && t'.calls == t.calls[i := Flying(Ticket(uid, count + 1, mq))]
              && t' == t.(counters := t'.counters, handed := t'.handed, ops := t'.ops, calls := t'.calls)
  {
  }

  /** What `Sent` gives is what the state machine has after its steps Increment, WriteInbox and AsyncPush. */
  lemma SentIsThreeSteps(t: State, mq: MqMessage, uid: Uid, ok: bool, i: Rpc.Id)
    ensures var a := DoIncrement(With(t, Count(mq, uid)), mq, uid, ok);
            if !ok || CounterOf(t, uid) == MAX_SEQ then Sent(t, mq, uid, ok, i) == a
            else
              var x := Ticket(uid, CounterOf(t, uid) + 1, mq);
              Write(x) in a.running && Emit(x) in DoWrite(a, x).running
              && Sent(t, mq, uid, ok, i) == DoPush(DoWrite(a, x), x, i)
  {
    hide InsertOf, DoIncrement, DoWrite, DoPush;
    if ok && CounterOf(t, uid) != MAX_SEQ {
      var x := Ticket(uid, CounterOf(t, uid) + 1, mq);
      Counts(t, mq, uid);
      Writes(Counted(t, x), x);
      Pushes(Counted(t, x).(ops := t.ops + multiset{InsertOf(x)}), x, i);
    } else {
      Drops(t, mq, uid, ok);
    }
  }

  lemma Drops(t: State, mq: MqMessage, uid: Uid, ok: bool)
    requires !ok || CounterOf(t, uid) == MAX_SEQ
    ensures DoIncrement(With(t, Count(mq, uid)), mq, uid, ok) == t.(dropped := t.dropped + {(mq, uid)})
  {
    Without(t, Count(mq, uid));
  }

  lemma Counts(t: State, mq: MqMessage, uid: Uid)
    requires CounterOf(t, uid) != MAX_SEQ
    ensures var x := Ticket(uid, CounterOf(t, uid) + 1, mq);
            DoIncrement(With(t, Count(mq, uid)), mq, uid, true) == With(Counted(t, x), Write(x))
  {
    Without(t, Count(mq, uid));
  }

  lemma Writes(t: State, x: Ticket)
    ensures DoWrite(With(t, Write(x)), x) == With(t.(ops := t.ops + multiset{InsertOf(x)}), Emit(x))
  {
    hide InsertOf;
    Without(t, Write(x));
  }

  lemma Pushes(t: State, x: Ticket, i: Rpc.Id)
    ensures DoPush(With(t, Emit(x)), x, i) == t.(calls := t.calls[i := Flying(x)])
  {
    Without(t, Emit(x));
  }

  /** The same state seen while a thread of the machine still has frame f. */
  function With(t: State, f: Frame): State {
    t.(running := t.running + multiset{f})
  }

  /** A frame that is taken out of the machine's threads leaves the rest as it was. */
  lemma Without(t: State, f: Frame)
    ensures With(t, f).running - multiset{f} == t.running
  {
  }

  function Counted(t: State, x: Ticket): State {
    t.(counters := t.counters[x.uid := x.no], handed := t.handed + [x])
  }

  lemma CountKeeps(t: State, mq: MqMessage, uid: Uid)
    requires Inv(With(t, Count(mq, uid))) && CounterOf(t, uid) != MAX_SEQ
    ensures var x := Ticket(uid, CounterOf(t, uid) + 1, mq); Inv(With(Counted(t, x), Write(x)))
  {
    hide Inv, DoIncrement;
    InvIncrement(With(t, Count(mq, uid)), mq, uid, true);
    Counts(t, mq, uid);
  }

  lemma WriteKeeps(t: State, x: Ticket)
    requires Inv(With(t, Write(x)))
    ensures Inv(With(t.(ops := t.ops + multiset{InsertOf(x)}), Emit(x)))
  {
    hide Inv, InsertOf, DoWrite;
    InvWrite(With(t, Write(x)), x);
    Writes(t, x);
  }

  lemma PushKeeps(t: State, x: Ticket, i: Rpc.Id)
    requires Inv(With(t, Emit(x))) && i !in t.calls
    ensures Inv(t.(calls := t.calls[i := Flying(x)]))
  {
    hide Inv, DoPush;
    InvPush(With(t, Emit(x)), x, i);
    Pushes(t, x, i);
  }

  lemma SentKeeps(t: State, mq: MqMessage, uid: Uid, ok: bool, i: Rpc.Id)
    requires Inv(With(t, Count(mq, uid))) && i !in t.calls
    ensures Inv(Sent(t, mq, uid, ok, i))
  {
    hide Inv, With, InsertOf;
    if !ok || CounterOf(t, uid) == MAX_SEQ {
      DropKeeps(t, mq, uid, ok);
    } else {
      var x := Ticket(uid, CounterOf(t, uid) + 1, mq);
      CountKeeps(t, mq, uid);
      WriteKeeps(Counted(t, x), x);
      PushKeeps(Counted(t, x).(ops := t.ops + multiset{InsertOf(x)}), x, i);
    }
  }

  lemma DropKeeps(t: State, mq: MqMessage, uid: Uid, ok: bool)
    requires Inv(With(t, Count(mq, uid))) && (!ok || CounterOf(t, uid) == MAX_SEQ)
    ensures Inv(t.(dropped := t.dropped + {(mq, uid)}))
  {
    hide Inv, DoIncrement;
    InvIncrement(With(t, Count(mq, uid)), mq, uid, ok);
    Drops(t, mq, uid, ok);
  }

  /** One turn of the fan-out loop. */
  lemma SpreadOnce(t: State, mq: MqMessage, todo: seq<Uid>)
    requires Inv(With(t, FanOut(mq, todo)))
    ensures Inv(if todo == [] then t
                else With(t.(pool := t.pool + multiset{Deliver(mq, todo[0])}), FanOut(mq, todo[1..])))
  {
    hide Inv;
    var a := With(t, FanOut(mq, todo));
    InvSpread(a, mq, todo);
    Without(t, FanOut(mq, todo));
    assert DoSpread(a, mq, todo)
        == if todo == [] then t else With(t.(pool := t.pool + multiset{Deliver(mq, todo[0])}), FanOut(mq, todo[1..]));
  }

  function Taken(t: State, r: Record): State {
    t.(pool := t.pool - multiset{Consume(r)}, consumed := t.consumed + {r})
  }

  /** What is left to do once a record has been looked at. */
  lemma HandleKeeps(t: State, r: Record, rows: Option<seq<Uid>>)
    requires Inv(t) && Possible(t, Handle(r, rows))
    ensures var t0 := Taken(t, r);
            match Accepts(r)
            case None => Inv(t0)
            case Some(mq) =>
              if !ToGroup(mq) then Inv(With(t0, Count(mq, OriginReq(mq).toId)))
              else if rows.None? then Inv(t0.(skipped := t0.skipped + {r}))
              else Inv(With(t0, FanOut(mq, rows.value)))
  {
    hide Inv, Accepts, ToGroup, OriginReq, Possible;
    InvHandle(t, r, rows);
    assert Accepts(r).None? || Skips(r, rows) ==> DoHandle(t, r, rows).running == t.running;
  }

  class CassandraConsumer {
    var t: State

    constructor (members: Members)
      ensures t == Boot(members) && Inv(t)
    {
      t := Boot(members);
      InvBoot(members);
    }

    /** hincrby, AsyncWriteInbox and AsyncPush, as both branches of the handler do them. */
    method SendTo(mq: MqMessage, uid: Uid, ok: bool, i: Rpc.Id)
      requires Inv(With(t, Count(mq, uid))) && i !in t.calls
      modifies this
      ensures Inv(t) && t == Sent(old(t), mq, uid, ok, i)
      ensures var count := if uid in old(t).counters then old(t).counters[uid] else 0;
              if !ok || count == 0x7FFF_FFFF_FFFF_FFFF then t == old(t).(dropped := old(t).dropped + {(mq, uid)})
              else
                && t.counters == old(t).counters[uid := count + 1]
                && t.handed == old(t).handed + [Ticket(uid, count + 1, mq)]
                && t.ops == old(t).ops + multiset{Insert(Row(ReadInt64(uid), count + 1), MsgidOf(HandleResult(mq)))}
                && t.calls == old(t).calls[i := Flying(Ticket(uid, count + 1, mq))]
                && t == old(t).(counters := t.counters, handed := t.handed, ops := t.ops, calls := t.calls)
    {
      hide Inv;
      SentKeeps(t, mq, uid, ok, i);
      if !ok || CounterOf(t, uid) == MAX_SEQ {
        t := t.(dropped := t.dropped + {(mq, uid)});
        return;
      }
      var no := CounterOf(t, uid) + 1;
      t := t.(counters := t.counters[uid := no], handed := t.handed + [Ticket(uid, no, mq)]);
      t := t.(ops := t.ops + multiset{Insert(Row(ReadInt64(uid), no), IdOf(mq))});
      t := t.(calls := t.calls[i := Flying(Ticket(uid, no, mq))]);
    }

    /** The task that the fan-out enqueues. */
    method DeliverTask(mq: MqMessage, uid: Uid, ok: bool, i: Rpc.Id)
      requires Inv(t) && Deliver(mq, uid) in t.pool && i !in t.calls
      modifies this
      ensures Inv(t) && t == Sent(old(t).(pool := old(t).pool - multiset{Deliver(mq, uid)}), mq, uid, ok, i)
    {
      hide Inv, Sent;
      InvBegin(t, mq, uid);
      t := t.(pool := t.pool - multiset{Deliver(mq, uid)});
      SendTo(mq, uid, ok, i);
    }

    /** A direct message is numbered, written and pushed at once; for a group one task per member is
        enqueued; a record that fails a check, or whose member query fails, does nothing more. */
    method CassandraHandle(r: Record, rows: Option<seq<Uid>>, ok: bool, i: Rpc.Id)
      requires Inv(t) && Possible(t, Handle(r, rows)) && i !in t.calls
      modifies this
      ensures Inv(t)
      ensures var t0 := old(t).(pool := old(t).pool - multiset{Consume(r)}, consumed := old(t).consumed + {r});
              match ParseMq(r.payload)
              case Ok(mq) =>
                if MsgidOf(HandleResult(mq)) != r.key then t == t0
                else if OriginReq(mq).kind != 5 && OriginReq(mq).kind != 6
                then t == Sent(t0, mq, OriginReq(mq).toId, ok, i)
                else if rows.None? then t == t0.(skipped := t0.skipped + {r})
                else
                  && t == t0.(pool := t.pool)
                  && forall k ::
                       t.pool[k] == t0.pool[k] + if k.Deliver? && k.mq == mq then multiset(rows.value)[k.uid] else 0
              case _ => t == t0
    {
      hide Inv, Sent, OriginReq, HandleResult, MsgidOf, Possible;
      HandleKeeps(t, r, rows);
      t := t.(pool := t.pool - multiset{Consume(r)}, consumed := t.consumed + {r});
      var parsed := ParseMq(r.payload);
      if !parsed.Ok? { return; }
      var mq := parsed.value;
      if IdOf(mq) != r.key { return; }
      if OriginReq(mq).kind == 6 || OriginReq(mq).kind == 5 {
        if rows.None? {
          t := t.(skipped := t.skipped + {r});
          return;
        }
        Spread(mq, rows.value);
      } else {
        SendTo(mq, OriginReq(mq).toId, ok, i);
      }
    }

    method Spread(mq: MqMessage, uids: seq<Uid>)
      requires Inv(With(t, FanOut(mq, uids)))
      modifies this
      ensures Inv(t) && t == old(t).(pool := t.pool)
      ensures forall k :: t.pool[k] == old(t).pool[k] + if k.Deliver? && k.mq == mq then multiset(uids)[k.uid] else 0
    {
      hide Inv, With;
      var n := 0;
      assert uids[0..] == uids;
      while n < |uids|
        invariant n <= |uids| && t == old(t).(pool := t.pool) && Inv(With(t, FanOut(mq, uids[n..])))
        invariant forall k ::
                    t.pool[k] == old(t).pool[k] + if k.Deliver? && k.mq == mq then multiset(uids[..n])[k.uid] else 0
      {
        SpreadOnce(t, mq, uids[n..]);
        t := t.(pool := t.pool + multiset{Deliver(mq, uids[n])});
        assert uids[n..][1..] == uids[n + 1..];
        assert uids[..n + 1] == uids[..n] + [uids[n]];
        n := n + 1;
      }
      assert uids[n..] == [] && uids[..n] == uids;
      SpreadOnce(t, mq, []);
    }

    /** One turn of the completion loop. */
    method Completed(i: Rpc.Id)
      requires Inv(t) && i in t.calls && t.calls[i].Back?
      modifies this
      ensures Inv(t) && t == old(t).(calls := t.calls, pool := t.pool, acked := t.acked)
      ensures t.calls == old(t).calls[i := Deleted(old(t).calls[i].x)]
      ensures var (x, ok) := (old(t).calls[i].x, old(t).calls[i].status == Rpc.OK);
              && t.pool == old(t).pool + (if ok then multiset{Remove(x.uid, x.no)} else multiset{})
              && t.acked == old(t).acked + (if ok then {x} else {})
    {
      hide Inv;
      InvComplete(t, i);
      var x := t.calls[i].x;
      if t.calls[i].status == Rpc.OK {
        t := t.(pool := t.pool + multiset{Remove(x.uid, x.no)}, acked := t.acked + {x});
      }
      t := t.(calls := t.calls[i := Deleted(x)]);
    }

    /** The completion loop over the tags that the queue yields: each context is freed, and for every ticket
        exactly as many DELETE tasks are enqueued as calls for it came back OK. */
    method AsyncRpcComplete(tags: seq<Rpc.Id>)
      requires Inv(t) && AllBack(t.calls, tags)
      requires forall m, n | 0 <= m < n < |tags| :: tags[m] != tags[n]
      modifies this
      ensures Inv(t) && t == old(t).(calls := t.calls, pool := t.pool, acked := t.acked)
      ensures t.calls.Keys == old(t).calls.Keys
      ensures forall i <- t.calls :: t.calls[i] == if i in tags then Deleted(old(t).calls[i].x) else old(t).calls[i]
      ensures forall uid, no ::
                t.pool[Remove(uid, no)]
                == old(t).pool[Remove(uid, no)]
                 + |set i <- tags | old(t).calls[i].status == Rpc.OK
                                    && old(t).calls[i].x.uid == uid && old(t).calls[i].x.no == no|
      ensures forall k: Task :: k.Remove? || t.pool[k] == old(t).pool[k]
      ensures forall x :: x in t.acked <==>
                x in old(t).acked || exists i <- tags :: old(t).calls[i].status == Rpc.OK && old(t).calls[i].x == x
    {
      hide Inv, Progress;
      ProgressNone(t);
      var n := 0;
      while n < |tags|
        invariant n <= |tags| && Inv(t) && AllBack(old(t).calls, tags[..n]) && Progress(old(t), t, tags[..n])
      {
        Cut(tags, n);
        StillBack(old(t), t, tags[..n], tags[n]);
        ghost var before := t;
        Completed(tags[n]);
        ProgressNext(old(t), before, t, tags[..n], tags[n]);
        n := n + 1;
      }
      assert tags[..n] == tags;
      ProgressMeans(old(t), t, tags);
    }
  }
}
