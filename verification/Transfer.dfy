/** The Cassandra consumer (server/transfer/cassandra/main.cc): it numbers messages per user, writes
    the inbox and pushes, all asynchronously, and deletes an inbox row once its push came back OK. Pool
    tasks, database operations and completed calls interleave in any order. */
module Transfer {
  import opened Options
  import opened Wire
  import opened Messages
  import opened Rpc
  import opened Topic

  const MAX_SEQ: int64 := 0x7FFF_FFFF_FFFF_FFFF

  /** A message and the number it was given in a user's inbox. */
  datatype Ticket = Ticket(uid: Uid, no: int64, mq: MqMessage)

  /** The primary key of user_inbox. The uid is cast to a signed integer. */
  datatype Row = Row(uid: int64, no: int64)

  datatype Op = Insert(row: Row, msgid: bytes) | Delete(row: Row)

  datatype Task = Consume(r: Record) | Deliver(mq: MqMessage, uid: Uid) | Remove(uid: Uid, no: int64)

  /** What a pool thread still has to do. */
  datatype Frame =
    | FanOut(mq: MqMessage, todo: seq<Uid>)   // the loop over the group's members
    | Count(mq: MqMessage, uid: Uid)          // hincrby
    | Write(x: Ticket)                        // AsyncWriteInbox
    | Emit(x: Ticket)                         // AsyncPush

  /** An AsyncCallContext. */
  datatype Call = Flying(x: Ticket) | Back(x: Ticket, status: Status) | Deleted(x: Ticket)

  /** From `consumed` on: history. `handed` are the numbers given out, `acked` those whose push came
      back OK, `removed` the rows a DELETE was applied to, `lost` the failed operations, `skipped` the
      records whose member query failed, `dropped` the tasks whose hincrby failed. */
  datatype State = State(
    members: Members, pool: multiset<Task>, running: multiset<Frame>, counters: map<Uid, int64>, calls: map<Id, Call>,
    ops: multiset<Op>, inbox: map<Row, bytes>,
    consumed: set<Record>, skipped: set<Record>, dropped: set<(MqMessage, Uid)>, handed: seq<Ticket>,
    acked: set<Ticket>, removed: set<Row>, lost: set<Op>)

  function RowOf(x: Ticket): Row {
    Row(ReadInt64(x.uid), x.no)
  }

  function InsertOf(x: Ticket): Op {
    Insert(RowOf(x), IdOf(x.mq))
  }

  function ReqOf(x: Ticket): PushReq {
    PushReq(Some(x.mq), x.no, x.uid)
  }

  function CounterOf(t: State, u: Uid): int64 {
    if u in t.counters then t.counters[u] else 0
  }

  // ---------------------------------------------------------------- steps

  datatype Event =
    | Fetch(r: Record)
    | Handle(r: Record, rows: Option<seq<Uid>>)   // CassandraHandle; rows is the query's answer, None an exception
    | Spread(mq: MqMessage, todo: seq<Uid>)       // one turn of the fan-out loop
    | Begin(mq: MqMessage, uid: Uid)
    | Increment(mq: MqMessage, uid: Uid, ok: bool)
    | WriteInbox(x: Ticket)
    | AsyncPush(x: Ticket, i: Id)
    | Complete(i: Id)
    | OnPushSuccess(uid: Uid, no: int64)
    | Applied(op: Op)
    | Failed(op: Op)

  /** The rows of the query, in any order. */
  predicate Lists(rows: seq<Uid>, us: set<Uid>) {
    (forall u <- rows :: u in us) && (forall u <- us :: u in rows)
  }

  predicate Possible(t: State, e: Event) {
    match e
    case Fetch(r) => !ParseMq(r.payload).Unknown?
    case Handle(r, rows) =>
      && Consume(r) in t.pool
      && (rows.Some? && Accepts(r).Some? && ToGroup(Accepts(r).value) ==>
            Lists(rows.value, Recipients(t.members, Accepts(r).value)))
    case Spread(mq, todo) => FanOut(mq, todo) in t.running
    case Begin(mq, uid) => Deliver(mq, uid) in t.pool
    case Increment(mq, uid, _) => Count(mq, uid) in t.running
    case WriteInbox(x) => Write(x) in t.running
    case AsyncPush(x, i) => Emit(x) in t.running && i !in t.calls
    case Complete(i) => i in t.calls && t.calls[i].Back?
    case OnPushSuccess(uid, no) => Remove(uid, no) in t.pool
    case Applied(op) => op in t.ops
    case Failed(op) => op in t.ops
  }

  /** The work that CassandraHandle starts. */
  function Started(r: Record, rows: Option<seq<Uid>>): multiset<Frame> {
    match Accepts(r)
    case None => multiset{}
    case Some(mq) =>
      if !ToGroup(mq) then multiset{Count(mq, OriginReq(mq).toId)}
      else if rows.Some? then multiset{FanOut(mq, rows.value)}
      else multiset{}
  }

  predicate Skips(r: Record, rows: Option<seq<Uid>>) {
    Accepts(r).Some? && ToGroup(Accepts(r).value) && rows.None?
  }

  function DoHandle(t: State, r: Record, rows: Option<seq<Uid>>): State {
    t.(pool := t.pool - multiset{Consume(r)}, running := t.running + Started(r, rows), consumed := t.consumed + {r},
       skipped := if Skips(r, rows) then t.skipped + {r} else t.skipped)
  }

  function DoSpread(t: State, mq: MqMessage, todo: seq<Uid>): State {
    if todo == [] then t.(running := t.running - multiset{FanOut(mq, todo)})
    else t.(running := t.running - multiset{FanOut(mq, todo)} + multiset{FanOut(mq, todo[1..])},
            pool := t.pool + multiset{Deliver(mq, todo[0])})
  }

  /** hincrby fails when the counter would overflow (or Redis does); the task then ends. */
  function DoIncrement(t: State, mq: MqMessage, uid: Uid, ok: bool): State {
    if !ok || CounterOf(t, uid) == MAX_SEQ then
      t.(running := t.running - multiset{Count(mq, uid)}, dropped := t.dropped + {(mq, uid)})
    else
      var x := Ticket(uid, CounterOf(t, uid) + 1, mq);
      t.(counters := t.counters[uid := x.no], handed := t.handed + [x],
         running := t.running - multiset{Count(mq, uid)} + multiset{Write(x)})
  }

  function DoComplete(t: State, i: Id): State
    requires i in t.calls && t.calls[i].Back?
  {
    var x := t.calls[i].x;
    if t.calls[i].status != OK then t.(calls := t.calls[i := Deleted(x)])
    else t.(calls := t.calls[i := Deleted(x)], pool := t.pool + multiset{Remove(x.uid, x.no)}, acked := t.acked + {x})
  }

  function DoApply(t: State, op: Op): State {
    match op
    case Insert(row, msgid) => t.(ops := t.ops - multiset{op}, inbox := t.inbox[row := msgid])
    case Delete(row) => t.(ops := t.ops - multiset{op}, inbox := t.inbox - {row}, removed := t.removed + {row})
  }

  function DoFetch(t: State, r: Record): State {
    t.(pool := t.pool + multiset{Consume(r)})
  }

  function DoBegin(t: State, mq: MqMessage, uid: Uid): State {
    t.(pool := t.pool - multiset{Deliver(mq, uid)}, running := t.running + multiset{Count(mq, uid)})
  }

  function DoWrite(t: State, x: Ticket): State {
    t.(running := t.running - multiset{Write(x)} + multiset{Emit(x)}, ops := t.ops + multiset{InsertOf(x)})
  }

  function DoPush(t: State, x: Ticket, i: Id): State {
    t.(running := t.running - multiset{Emit(x)}, calls := t.calls[i := Flying(x)])
  }

  function DoDelete(t: State, uid: Uid, no: int64): State {
    t.(pool := t.pool - multiset{Remove(uid, no)}, ops := t.ops + multiset{Delete(Row(ReadInt64(uid), no))})
  }

  function DoFail(t: State, op: Op): State {
    t.(ops := t.ops - multiset{op}, lost := t.lost + {op})
  }

  function Apply(t: State, e: Event): State
    requires Possible(t, e)
  {
    match e
    case Fetch(r) => DoFetch(t, r)
    case Handle(r, rows) => DoHandle(t, r, rows)
    case Spread(mq, todo) => DoSpread(t, mq, todo)
    case Begin(mq, uid) => DoBegin(t, mq, uid)
    case Increment(mq, uid, ok) => DoIncrement(t, mq, uid, ok)
    case WriteInbox(x) => DoWrite(t, x)
    case AsyncPush(x, i) => DoPush(t, x, i)
    case Complete(i) => DoComplete(t, i)
    case OnPushSuccess(uid, no) => DoDelete(t, uid, no)
    case Applied(op) => DoApply(t, op)
    case Failed(op) => DoFail(t, op)
  }

  /** The push server's answer, or the failure of the connection, arrives. */
  function Return(t: State, i: Id, status: Status): State
    requires i in t.calls
  {
    t.(calls := t.calls[i := Back(t.calls[i].x, status)])
  }

  // ---------------------------------------------------------------- numbers

  /** The numbers given to user u, in the order in which they were given. */
  function NumbersOf(xs: seq<Ticket>, u: Uid): seq<int> {
    if xs == [] then []
    else NumbersOf(xs[..|xs| - 1], u) + if xs[|xs| - 1].uid == u then [xs[|xs| - 1].no] else []
  }

  function UpTo(n: nat): seq<int> {
    seq(n, i => i + 1)
  }

  /** Without gap or repeat: the numbers of each user are 1, 2, …, up to the counter. */
  ghost predicate Numbered(t: State) {
    forall u :: 0 <= CounterOf(t, u) && NumbersOf(t.handed, u) == UpTo(CounterOf(t, u))
  }

  lemma NumbersAppend(xs: seq<Ticket>, x: Ticket, u: Uid)
    ensures NumbersOf(xs + [x], u) == NumbersOf(xs, u) + if x.uid == u then [x.no] else []
  {
    assert (xs + [x])[..|xs|] == xs;
  }

  lemma NumberedSame(t: State, t': State)
    requires Numbered(t) && t'.handed == t.handed && t'.counters == t.counters
    ensures Numbered(t')
  {
    hide NumbersOf;
    forall u ensures 0 <= CounterOf(t', u) && NumbersOf(t'.handed, u) == UpTo(CounterOf(t', u)) {
      assert 0 <= CounterOf(t, u) && NumbersOf(t.handed, u) == UpTo(CounterOf(t, u));
    }
  }

  lemma NumberedNext(t: State, t': State, x: Ticket)
    requires Numbered(t) && t'.handed == t.handed + [x] && t'.counters == t.counters[x.uid := x.no]
    requires x.no == CounterOf(t, x.uid) + 1
    ensures Numbered(t')
  {
    hide NumbersOf;
    forall u ensures 0 <= CounterOf(t', u) && NumbersOf(t'.handed, u) == UpTo(CounterOf(t', u)) {
      NumbersAppend(t.handed, x, u);
      assert 0 <= CounterOf(t, u) && NumbersOf(t.handed, u) == UpTo(CounterOf(t, u));
    }
  }

  lemma {:induction false} NumberAt(xs: seq<Ticket>, i: nat, u: Uid)
    requires i < |xs| && xs[i].uid == u
    ensures var k := |NumbersOf(xs[..i], u)|; k < |NumbersOf(xs, u)| && NumbersOf(xs, u)[k] == xs[i].no
    decreases |xs|
  {
    var ys := xs[..|xs| - 1];
    if i < |ys| {
      NumberAt(ys, i, u);
      assert ys[..i] == xs[..i];
    }
  }

  lemma {:induction false} NumbersGrow(xs: seq<Ticket>, i: nat, j: nat, u: Uid)
    requires i < j <= |xs| && xs[i].uid == u
    ensures |NumbersOf(xs[..i], u)| < |NumbersOf(xs[..j], u)|
    decreases j
  {
    assert xs[..j][..j - 1] == xs[..j - 1];
    if i < j - 1 {
      NumbersGrow(xs, i, j - 1, u);
    }
  }

  /** No two tickets have the same user and number. */
  lemma TicketsAreUnique(t: State, x: Ticket, y: Ticket)
    requires Numbered(t) && x in t.handed && y in t.handed && x.uid == y.uid && x.no == y.no
    ensures x == y
  {
    hide NumbersOf;
    var i :| 0 <= i < |t.handed| && t.handed[i] == x;
    var j :| 0 <= j < |t.handed| && t.handed[j] == y;
    var u := x.uid;
    assert NumbersOf(t.handed, u) == UpTo(CounterOf(t, u));
    NumberAt(t.handed, i, u);
    NumberAt(t.handed, j, u);
    if i < j {
      NumbersGrow(t.handed, i, j, u);
    } else if j < i {
      NumbersGrow(t.handed, j, i, u);
    }
  }

  // ---------------------------------------------------------------- every operation comes from a ticket

  ghost predicate Acked(t: State, row: Row) {
    exists x <- t.acked :: RowOf(x) == row
  }

  ghost predicate OpOk(t: State, op: Op) {
    match op
    case Insert(row, msgid) => exists x <- t.handed :: RowOf(x) == row && IdOf(x.mq) == msgid
    case Delete(row) => Acked(t, row)
  }

  ghost predicate Traced(t: State) {
    && (forall f <- t.running | f.Write? || f.Emit? :: f.x in t.handed)
    && (forall i <- t.calls :: t.calls[i].x in t.handed)
    && (forall x <- t.acked :: x in t.handed)
    && (forall k <- t.pool | k.Remove? :: Acked(t, Row(ReadInt64(k.uid), k.no)))
    && (forall op <- t.ops :: OpOk(t, op))
    && (forall op <- t.lost :: OpOk(t, op))
    && (forall row <- t.inbox :: OpOk(t, Insert(row, t.inbox[row])))
    && (forall row <- t.removed :: Acked(t, row))
  }

  /** Tickets and acknowledgements only ever increase. */
  ghost predicate Grows(t: State, t': State) {
    (forall x <- t.handed :: x in t'.handed) && t.acked <= t'.acked
  }

  lemma OpsKept(t: State, t': State)
    requires Grows(t, t')
    ensures forall op | OpOk(t, op) :: OpOk(t', op)
    ensures forall row | Acked(t, row) :: Acked(t', row)
  {
    forall op | OpOk(t, op) ensures OpOk(t', op) {
      match op
      case Insert(row, msgid) =>
        var x :| x in t.handed && RowOf(x) == row && IdOf(x.mq) == msgid;
        assert x in t'.handed;
      case Delete(row) =>
        var x :| x in t.acked && RowOf(x) == row;
        assert x in t'.acked;
    }
    forall row | Acked(t, row) ensures Acked(t', row) {
      var x :| x in t.acked && RowOf(x) == row;
      assert x in t'.acked;
    }
  }

  /** Whatever is new in t' has its ticket. */
  ghost predicate TracedDelta(t: State, t': State) {
    && Grows(t, t')
    && (forall f <- t'.running | f.Write? || f.Emit? :: f in t.running || f.x in t'.handed)
    && (forall i <- t'.calls :: (i in t.calls && t'.calls[i].x == t.calls[i].x) || t'.calls[i].x in t'.handed)
    && (forall x <- t'.acked :: x in t.acked || x in t'.handed)
    && (forall k <- t'.pool | k.Remove? :: k in t.pool || Acked(t', Row(ReadInt64(k.uid), k.no)))
    && (forall op <- t'.ops :: op in t.ops || OpOk(t', op))
    && (forall op <- t'.lost :: op in t.lost || op in t.ops)
    && (forall row <- t'.inbox ::
          (row in t.inbox && t'.inbox[row] == t.inbox[row]) || Insert(row, t'.inbox[row]) in t.ops)
    && (forall row <- t'.removed :: row in t.removed || Delete(row) in t.ops)
  }

  lemma KeepTraced(t: State, t': State)
    requires Traced(t) && TracedDelta(t, t')
    ensures Traced(t')
  {
    hide OpOk, Acked;
    OpsKept(t, t');
    forall row <- t'.removed ensures Acked(t', row) {
      if row !in t.removed { Deleting(t, row); }
    }
  }

  lemma Inserted(t: State, x: Ticket)
    requires x in t.handed
    ensures OpOk(t, InsertOf(x))
  {
  }

  lemma NowAcked(t: State, x: Ticket)
    requires x in t.acked
    ensures Acked(t, Row(ReadInt64(x.uid), x.no))
  {
    assert RowOf(x) == Row(ReadInt64(x.uid), x.no);
  }

  lemma Deleting(t: State, row: Row)
    ensures OpOk(t, Delete(row)) <==> Acked(t, row)
  {
  }

  // ---------------------------------------------------------------- no ticket is forgotten

  ghost predicate Accounted(t: State, x: Ticket) {
    || Write(x) in t.running
    || InsertOf(x) in t.ops
    || InsertOf(x) in t.lost
    || RowOf(x) in t.inbox
    || RowOf(x) in t.removed
  }

  ghost predicate AllAccounted(t: State) {
    forall x <- t.handed :: Accounted(t, x)
  }

  /** An insert moves on from the thread to the database and into the inbox, or is recorded as failed;
      a row leaves the inbox by a DELETE. */
  ghost predicate AccountedDelta(t: State, t': State) {
    && (forall x <- t'.handed :: x in t.handed || Write(x) in t'.running)
    && (forall f <- t.running | f.Write? :: f in t'.running || InsertOf(f.x) in t'.ops)
    && (forall op <- t.ops | op.Insert? :: op in t'.ops || op in t'.lost || op.row in t'.inbox)
    && (forall row <- t.inbox :: row in t'.inbox || row in t'.removed)
    && t.lost <= t'.lost && t.removed <= t'.removed
  }

  lemma KeepAccounted(t: State, t': State)
    requires AllAccounted(t) && AccountedDelta(t, t')
    ensures AllAccounted(t')
  {
    hide RowOf, IdOf;
    forall x <- t'.handed ensures Accounted(t', x) {
      if x in t.handed {
        assert Accounted(t, x);
        assert InsertOf(x).Insert? && InsertOf(x).row == RowOf(x);
        if Write(x) in t.running { assert Write(x).Write?; }
      }
    }
  }

  // ---------------------------------------------------------------- fan-out

  /** Message mq is on its way to user u: the loop has not come to u, the task is queued, or the number
      is about to be taken. */
  ghost predicate Underway(t: State, mq: MqMessage, u: Uid) {
    || Deliver(mq, u) in t.pool
    || Count(mq, u) in t.running
    || Looping(t, mq, u)
  }

  ghost predicate Looping(t: State, mq: MqMessage, u: Uid) {
    exists f <- t.running :: f.FanOut? && f.mq == mq && u in f.todo
  }

  ghost predicate Handed(t: State, mq: MqMessage, u: Uid) {
    exists x <- t.handed :: x.uid == u && x.mq == mq
  }

  /** Some consumed message is this one, and u is among its recipients. */
  ghost predicate Due(t: State, mq: MqMessage, u: Uid) {
    exists r <- t.consumed :: r !in t.skipped && Accepts(r) == Some(mq) && u in Recipients(t.members, mq)
  }

  /** What is due to a user is underway, handed or dropped, and nothing else is. */
  ghost predicate Fanned(t: State) {
    forall mq, u :: Fan(t, mq, u)
  }

  ghost predicate Fan(t: State, mq: MqMessage, u: Uid) {
    && (Due(t, mq, u) ==> Underway(t, mq, u) || Handed(t, mq, u) || (mq, u) in t.dropped)
    && (Underway(t, mq, u) || Handed(t, mq, u) || (mq, u) in t.dropped ==> Sought(t, mq, u))
  }

  /** As Due, with the records whose query failed once. */
  ghost predicate Sought(t: State, mq: MqMessage, u: Uid) {
    exists r <- t.consumed :: Accepts(r) == Some(mq) && u in Recipients(t.members, mq)
  }

  lemma FanSame(t: State, t': State, mq: MqMessage, u: Uid)
    requires Fan(t, mq, u)
    requires t'.consumed == t.consumed && t'.skipped == t.skipped && t'.members == t.members
    requires (Underway(t', mq, u) || Handed(t', mq, u) || (mq, u) in t'.dropped)
        <==> (Underway(t, mq, u) || Handed(t, mq, u) || (mq, u) in t.dropped)
    ensures Fan(t', mq, u)
  {
    hide Underway, Handed, Accepts, Recipients;
  }

  lemma KeepFannedSpread(t: State, mq: MqMessage, todo: seq<Uid>)
    requires Fanned(t) && FanOut(mq, todo) in t.running
    ensures Fanned(DoSpread(t, mq, todo))
  {
    hide Accepts, Recipients, Handed, Fan, Underway, Looping;
    var t' := DoSpread(t, mq, todo);
    assert t'.consumed == t.consumed && t'.skipped == t.skipped && t'.members == t.members && t'.handed == t.handed
        && t'.dropped == t.dropped;
    forall m, u ensures Fan(t', m, u) {
      SpreadFan(t, t', mq, todo, m, u);
    }
  }

  lemma SpreadFan(t: State, t': State, mq: MqMessage, todo: seq<Uid>, m: MqMessage, u: Uid)
    requires Fanned(t) && FanOut(mq, todo) in t.running && t' == DoSpread(t, mq, todo)
    requires t'.consumed == t.consumed && t'.skipped == t.skipped && t'.members == t.members && t'.handed == t.handed
    requires t'.dropped == t.dropped
    ensures Fan(t', m, u)
  {
    hide Accepts, Recipients, Handed, Fan, Underway, Looping, DoSpread;
    SpreadUnderway(t, mq, todo, m, u);
    SameHanded(t, t', m, u);
    assert Fan(t, m, u);
    FanSame(t, t', m, u);
  }

  lemma SameHanded(t: State, t': State, mq: MqMessage, u: Uid)
    requires t'.handed == t.handed
    ensures Handed(t', mq, u) <==> Handed(t, mq, u)
  {
  }

  lemma SpreadUnderway(t: State, mq: MqMessage, todo: seq<Uid>, m: MqMessage, u: Uid)
    requires FanOut(mq, todo) in t.running
    ensures Underway(DoSpread(t, mq, todo), m, u) <==> Underway(t, m, u)
  {
    hide Looping;
    var t', g := DoSpread(t, mq, todo), FanOut(mq, todo);
    if todo == [] {
      assert t'.running == t.running - multiset{g};
      LoopRemoved(t, t', g, m, u);
    } else {
      var g' := FanOut(mq, todo[1..]);
      assert todo == [todo[0]] + todo[1..];
      var mid := t.(running := t.running - multiset{g});
      LoopRemoved(t, mid, g, m, u);
      LoopAdded(mid, t', g', m, u);
    }
  }

  lemma LoopRemoved(t: State, t': State, g: Frame, m: MqMessage, u: Uid)
    requires g in t.running && g.FanOut? && t'.running == t.running - multiset{g}
    ensures Looping(t, m, u) <==> Looping(t', m, u) || (g.mq == m && u in g.todo)
  {
    if f :| f in t.running && f.FanOut? && f.mq == m && u in f.todo {
      if f != g { assert f in t'.running; }
    }
    if f :| f in t'.running && f.FanOut? && f.mq == m && u in f.todo {
      assert f in t.running;
    }
  }

  lemma LoopAdded(t: State, t': State, g: Frame, m: MqMessage, u: Uid)
    requires g.FanOut? && t'.running == t.running + multiset{g}
    ensures Looping(t', m, u) <==> Looping(t, m, u) || (g.mq == m && u in g.todo)
  {
    assert g in t'.running;
    if f :| f in t'.running && f.FanOut? && f.mq == m && u in f.todo {
      if f != g { assert f in t.running; }
    }
    if f :| f in t.running && f.FanOut? && f.mq == m && u in f.todo {
      assert f in t'.running;
    }
  }

  lemma KeepFannedBegin(t: State, mq: MqMessage, uid: Uid)
    requires Fanned(t) && Deliver(mq, uid) in t.pool
    ensures Fanned(DoBegin(t, mq, uid))
  {
    hide Accepts, Recipients, Handed, Fan, Looping, Underway;
    var t' := DoBegin(t, mq, uid);
    forall m, u ensures Fan(t', m, u) {
      LoopsSame(t, t', m, u);
      SameHanded(t, t', m, u);
      assert Fan(t, m, u);
      FanSame(t, t', m, u);
    }
  }

  lemma LoopsSame(t: State, t': State, m: MqMessage, u: Uid)
    requires forall f: Frame | f.FanOut? :: f in t.running <==> f in t'.running
    ensures Looping(t, m, u) <==> Looping(t', m, u)
    ensures Underway(t, m, u) <==> Deliver(m, u) in t.pool || Count(m, u) in t.running || Looping(t, m, u)
    ensures Underway(t', m, u) <==> Deliver(m, u) in t'.pool || Count(m, u) in t'.running || Looping(t', m, u)
  {
    if Looping(t, m, u) {
      var f :| f in t.running && f.FanOut? && f.mq == m && u in f.todo;
      assert f in t'.running;
    }
    if Looping(t', m, u) {
      var f :| f in t'.running && f.FanOut? && f.mq == m && u in f.todo;
      assert f in t.running;
    }
  }

  lemma KeepFannedIncrement(t: State, mq: MqMessage, uid: Uid, ok: bool)
    requires Fanned(t) && Count(mq, uid) in t.running
    ensures Fanned(DoIncrement(t, mq, uid, ok))
  {
    hide Accepts, Recipients, Handed, Fan, Looping, Underway;
    var t' := DoIncrement(t, mq, uid, ok);
    forall m, u ensures Fan(t', m, u) {
      LoopsSame(t, t', m, u);
      if t'.handed == t.handed { SameHanded(t, t', m, u); } else { MoreHanded(t, t', m, u); }
      assert Fan(t, m, u);
      FanSame(t, t', m, u);
    }
  }

  lemma MoreHanded(t: State, t': State, mq: MqMessage, u: Uid)
    requires |t'.handed| == |t.handed| + 1 && t'.handed[..|t.handed|] == t.handed
    ensures var x := t'.handed[|t.handed|]; Handed(t', mq, u) <==> Handed(t, mq, u) || (x.mq == mq && x.uid == u)
  {
    assert t'.handed == t.handed + [t'.handed[|t.handed|]];
  }

  /** Handling record r starts message m on its way to user u. */
  predicate Starts(r: Record, rows: Option<seq<Uid>>, m: MqMessage, u: Uid) {
    Accepts(r) == Some(m) && if ToGroup(m) then rows.Some? && u in rows.value else u == OriginReq(m).toId
  }

  lemma HandledUnderway(t: State, r: Record, rows: Option<seq<Uid>>, m: MqMessage, u: Uid)
    ensures Underway(DoHandle(t, r, rows), m, u) <==> Underway(t, m, u) || Starts(r, rows, m, u)
  {
    hide Accepts, ToGroup, Looping, OriginReq;
    var t', fs := DoHandle(t, r, rows), Started(r, rows);
    assert t'.running == t.running + fs;
    if Accepts(r).Some? && ToGroup(Accepts(r).value) && rows.Some? {
      LoopAdded(t, t', FanOut(Accepts(r).value, rows.value), m, u);
    } else {
      LoopsSame(t, t', m, u);
    }
  }

  lemma HandledDue(t: State, r: Record, rows: Option<seq<Uid>>, m: MqMessage, u: Uid)
    requires Possible(t, Handle(r, rows))
    ensures var t' := DoHandle(t, r, rows);
            && (Due(t', m, u) ==> Due(t, m, u) || Starts(r, rows, m, u))
            && (Sought(t, m, u) || Starts(r, rows, m, u) ==> Sought(t', m, u))
  {
    hide Accepts, ParseMq, Possible, Recipients, Starts, Started, ToGroup;
    var t' := DoHandle(t, r, rows);
    StartsForRecipients(t, r, rows, m, u);
    if Due(t', m, u) {
      var q :| q in t'.consumed && q !in t'.skipped && Accepts(q) == Some(m) && u in Recipients(t'.members, m);
      if q != r { assert q in t.consumed && q !in t.skipped; }
    }
    if Sought(t, m, u) {
      var q :| q in t.consumed && Accepts(q) == Some(m) && u in Recipients(t.members, m);
      assert q in t'.consumed;
    }
  }

  lemma StartsForRecipients(t: State, r: Record, rows: Option<seq<Uid>>, m: MqMessage, u: Uid)
    requires Possible(t, Handle(r, rows))
    ensures Starts(r, rows, m, u)
       <==> Accepts(r) == Some(m) && u in Recipients(t.members, m) && (ToGroup(m) ==> rows.Some?)
  {
    hide Accepts;
  }

  lemma KeepFannedHandle(t: State, r: Record, rows: Option<seq<Uid>>)
    requires Fanned(t) && Possible(t, Handle(r, rows))
    ensures Fanned(DoHandle(t, r, rows))
  {
    hide Accepts, Recipients, Handed, Underway, Due, Sought, Starts, Possible;
    var t' := DoHandle(t, r, rows);
    forall m, u ensures Fan(t', m, u) {
      SameHanded(t, t', m, u);
      assert Fan(t, m, u);
      HandledUnderway(t, r, rows, m, u);
      HandledDue(t, r, rows, m, u);
    }
  }

  lemma KeepFannedElsewhere(t: State, t': State)
    requires Fanned(t) && t'.consumed == t.consumed && t'.skipped == t.skipped && t'.members == t.members
    requires t'.dropped == t.dropped && t'.handed == t.handed
    requires forall f: Frame | f.FanOut? || f.Count? :: f in t.running <==> f in t'.running
    requires forall k: Task | k.Deliver? :: k in t.pool <==> k in t'.pool
    ensures Fanned(t')
  {
    hide Accepts, Recipients, Handed, Fan, Looping, Underway;
    forall m, u ensures Fan(t', m, u) {
      LoopsSame(t, t', m, u);
      SameHanded(t, t', m, u);
      assert Fan(t, m, u);
      FanSame(t, t', m, u);
    }
  }

  // ---------------------------------------------------------------- the invariant

  /** Messages under way were parsed, so their strings are UTF-8. */
  ghost predicate Texts(t: State) {
    && (forall f <- t.running | f.FanOut? || f.Count? :: TextMq(f.mq))
    && (forall k <- t.pool | k.Deliver? :: TextMq(k.mq))
    && (forall x <- t.handed :: TextMq(x.mq))
  }

  ghost predicate TextsDelta(t: State, t': State) {
    && (forall f <- t'.running | f.FanOut? || f.Count? :: f in t.running || TextMq(f.mq))
    && (forall k <- t'.pool | k.Deliver? :: k in t.pool || TextMq(k.mq))
    && (forall x <- t'.handed :: x in t.handed || TextMq(x.mq))
  }

  lemma KeepTexts(t: State, t': State)
    requires Texts(t) && TextsDelta(t, t')
    ensures Texts(t')
  {
    hide TextMq;
  }

  ghost predicate Inv(t: State) {
    Numbered(t) && Traced(t) && AllAccounted(t) && Fanned(t) && Texts(t)
  }

  lemma Keep(t: State, t': State)
    requires Inv(t) && Numbered(t') && Fanned(t') && TracedDelta(t, t') && AccountedDelta(t, t') && TextsDelta(t, t')
    ensures Inv(t')
  {
    hide Numbered, Traced, AllAccounted, Fanned, Texts, TracedDelta, AccountedDelta, TextsDelta;
    KeepTraced(t, t');
    KeepAccounted(t, t');
    KeepTexts(t, t');
  }

  /** Steps that neither number nor spread messages. */
  lemma KeepRest(t: State, t': State)
    requires Inv(t) && TracedDelta(t, t') && AccountedDelta(t, t')
    requires t'.consumed == t.consumed && t'.skipped == t.skipped && t'.members == t.members
    requires t'.dropped == t.dropped && t'.handed == t.handed && t'.counters == t.counters
    requires forall f: Frame | f.FanOut? || f.Count? :: f in t.running <==> f in t'.running
    requires forall k: Task | k.Deliver? :: k in t.pool <==> k in t'.pool
    ensures Inv(t')
  {
    hide Numbered, Traced, AllAccounted, Fanned, Texts, TracedDelta, AccountedDelta, TextMq;
    KeepFannedElsewhere(t, t');
    NumberedSame(t, t');
    Keep(t, t');
  }

  /** Steps that only move messages between the pool and its threads. */
  lemma KeepMoved(t: State, t': State)
    requires Inv(t) && Numbered(t') && Fanned(t') && TextsDelta(t, t')
    requires t'.(pool := t.pool, running := t.running, consumed := t.consumed, skipped := t.skipped) == t
    requires forall f: Frame | f.Write? || f.Emit? :: f in t'.running <==> f in t.running
    requires forall k: Task | k.Remove? :: k in t'.pool <==> k in t.pool
    ensures Inv(t')
  {
    hide Numbered, Traced, AllAccounted, Fanned, Texts, TextsDelta, OpOk, Acked, RowOf, IdOf;
    assert t'.handed == t.handed && t'.acked == t.acked && t'.calls == t.calls && t'.ops == t.ops && t'.lost == t.lost
        && t'.inbox == t.inbox && t'.removed == t.removed;
    Keep(t, t');
  }

  /** What handling a record does to the threads. */
  lemma HandleParts(t: State, r: Record, rows: Option<seq<Uid>>)
    ensures var t' := DoHandle(t, r, rows);
            && t'.(pool := t.pool, running := t.running, consumed := t.consumed, skipped := t.skipped) == t
            && t'.pool == t.pool - multiset{Consume(r)}
            && (t'.running == t.running
                || exists f: Frame :: (f.FanOut? || f.Count?) && TextMq(f.mq) && t'.running == t.running + multiset{f})
  {
    hide Accepts, TextMq, ToGroup, OriginReq;
    AcceptedIsText(r);
    if Accepts(r).Some? {
      var mq := Accepts(r).value;
      assert (if ToGroup(mq) && rows.Some? then FanOut(mq, rows.value) else Count(mq, OriginReq(mq).toId)).mq == mq;
    }
  }

  lemma InvHandle(t: State, r: Record, rows: Option<seq<Uid>>)
    requires Inv(t) && Possible(t, Handle(r, rows))
    ensures Inv(DoHandle(t, r, rows))
  {
    hide Numbered, Traced, AllAccounted, Fanned, Texts, TextMq, Possible, DoHandle;
    var t' := DoHandle(t, r, rows);
    KeepFannedHandle(t, r, rows);
    HandleParts(t, r, rows);
    assert t'.handed == t.handed && t'.counters == t.counters;
    NumberedSame(t, t');
    KeepMoved(t, t');
  }

  lemma SpreadTexts(t: State, mq: MqMessage, todo: seq<Uid>)
    requires Texts(t) && FanOut(mq, todo) in t.running
    ensures TextsDelta(t, DoSpread(t, mq, todo))
  {
    hide TextMq;
    assert TextMq(FanOut(mq, todo).mq);
  }

  lemma InvSpread(t: State, mq: MqMessage, todo: seq<Uid>)
    requires Inv(t) && FanOut(mq, todo) in t.running
    ensures Inv(DoSpread(t, mq, todo))
  {
    hide Numbered, Traced, AllAccounted, Fanned, TextMq, Texts, TextsDelta, DoSpread;
    var t' := DoSpread(t, mq, todo);
    KeepFannedSpread(t, mq, todo);
    SpreadCalls(t, mq, todo);
    assert t'.handed == t.handed && t'.counters == t.counters;
    NumberedSame(t, t');
    SpreadTexts(t, mq, todo);
    KeepMoved(t, t');
  }

  lemma InvBegin(t: State, mq: MqMessage, uid: Uid)
    requires Inv(t) && Deliver(mq, uid) in t.pool
    ensures Inv(DoBegin(t, mq, uid))
  {
    hide Numbered, Traced, AllAccounted, Fanned, TextMq;
    var t' := DoBegin(t, mq, uid);
    KeepFannedBegin(t, mq, uid);
    NumberedSame(t, t');
    assert TextMq(Deliver(mq, uid).mq);
    KeepMoved(t, t');
  }

  lemma InvIncrement(t: State, mq: MqMessage, uid: Uid, ok: bool)
    requires Inv(t) && Count(mq, uid) in t.running
    ensures Inv(DoIncrement(t, mq, uid, ok)) && Grows(t, DoIncrement(t, mq, uid, ok))
  {
    hide Numbered, Traced, AllAccounted, Fanned, Texts, TracedDelta, AccountedDelta, TextsDelta;
    var t' := DoIncrement(t, mq, uid, ok);
    KeepFannedIncrement(t, mq, uid, ok);
    if !ok || CounterOf(t, uid) == MAX_SEQ {
      NumberedSame(t, t');
    } else {
      NumberedNext(t, t', Ticket(uid, CounterOf(t, uid) + 1, mq));
    }
    IncrementTraced(t, mq, uid, ok);
    IncrementAccounted(t, mq, uid, ok);
    IncrementTexts(t, mq, uid, ok);
    Keep(t, t');
  }

  lemma IncrementTraced(t: State, mq: MqMessage, uid: Uid, ok: bool)
    ensures TracedDelta(t, DoIncrement(t, mq, uid, ok))
  {
    hide OpOk, Acked;
    var t' := DoIncrement(t, mq, uid, ok);
    forall f <- t'.running | f.Write? || f.Emit? ensures f in t.running || f.x in t'.handed {
      if f !in t.running { assert f.x == t'.handed[|t.handed|]; }
    }
  }

  lemma IncrementAccounted(t: State, mq: MqMessage, uid: Uid, ok: bool)
    ensures AccountedDelta(t, DoIncrement(t, mq, uid, ok))
  {
    hide InsertOf;
  }

  lemma IncrementTexts(t: State, mq: MqMessage, uid: Uid, ok: bool)
    requires Texts(t) && Count(mq, uid) in t.running
    ensures TextsDelta(t, DoIncrement(t, mq, uid, ok))
  {
    hide TextMq;
    assert TextMq(Count(mq, uid).mq);
  }

  lemma InvWrite(t: State, x: Ticket)
    requires Inv(t) && Write(x) in t.running
    ensures Inv(DoWrite(t, x))
  {
    hide Numbered, AllAccounted, Fanned, Texts, OpOk, Acked, RowOf, IdOf;
    var t' := DoWrite(t, x);
    assert Write(x).x in t.handed;
    Inserted(t', x);
    KeepRest(t, t');
  }

  lemma InvPush(t: State, x: Ticket, i: Id)
    requires Inv(t) && Emit(x) in t.running && i !in t.calls
    ensures Inv(DoPush(t, x, i))
  {
    hide Numbered, AllAccounted, Fanned, Texts, OpOk, Acked, RowOf, IdOf;
    assert Emit(x).x in t.handed;
    KeepRest(t, DoPush(t, x, i));
  }

  lemma InvComplete(t: State, i: Id)
    requires Inv(t) && i in t.calls && t.calls[i].Back?
    ensures Inv(DoComplete(t, i)) && Grows(t, DoComplete(t, i))
  {
    hide Numbered, Traced, AllAccounted, Fanned, Texts, TracedDelta, AccountedDelta;
    CompleteTraced(t, i);
    CompleteAccounted(t, i);
    KeepRest(t, DoComplete(t, i));
  }

  lemma CompleteTraced(t: State, i: Id)
    requires Traced(t) && i in t.calls && t.calls[i].Back?
    ensures TracedDelta(t, DoComplete(t, i))
  {
    hide OpOk, Acked;
    var t', x := DoComplete(t, i), t.calls[i].x;
    if t.calls[i].status == OK {
      NowAcked(t', x);
      assert forall k <- t'.pool :: k in t.pool || k == Remove(x.uid, x.no);
      assert x in t'.handed;
    } else {
      assert t' == t.(calls := t.calls[i := Deleted(x)]);
    }
  }

  lemma CompleteAccounted(t: State, i: Id)
    requires i in t.calls && t.calls[i].Back?
    ensures AccountedDelta(t, DoComplete(t, i))
  {
    hide InsertOf;
  }

  lemma InvDelete(t: State, uid: Uid, no: int64)
    requires Inv(t) && Remove(uid, no) in t.pool
    ensures Inv(DoDelete(t, uid, no))
  {
    hide Numbered, AllAccounted, Fanned, Texts, OpOk, Acked, RowOf, IdOf;
    var t', row := DoDelete(t, uid, no), Row(ReadInt64(uid), no);
    assert Acked(t, row);
    OpsKept(t, t');
    Deleting(t', row);
    KeepRest(t, t');
  }

  lemma InvApplied(t: State, op: Op)
    requires Inv(t) && op in t.ops
    ensures Inv(DoApply(t, op))
  {
    hide Numbered, Traced, AllAccounted, Fanned, Texts, OpOk, Acked, RowOf, IdOf;
    KeepRest(t, DoApply(t, op));
  }

  lemma InvFailed(t: State, op: Op)
    requires Inv(t) && op in t.ops
    ensures Inv(DoFail(t, op))
  {
    hide Numbered, Traced, AllAccounted, Fanned, Texts, OpOk, Acked, RowOf, IdOf;
    KeepRest(t, DoFail(t, op));
  }

  lemma InvFetch(t: State, r: Record)
    requires Inv(t)
    ensures Inv(DoFetch(t, r))
  {
    hide Numbered, Traced, AllAccounted, Fanned, Texts, OpOk, Acked, RowOf, IdOf;
    KeepRest(t, DoFetch(t, r));
  }

  lemma InvStep(t: State, e: Event)
    requires Inv(t) && Possible(t, e)
    ensures Inv(Apply(t, e)) && Grows(t, Apply(t, e))
  {
    hide Inv, Accepts, Recipients, ParseMq, ToGroup;
    match e
    case Fetch(r) => InvFetch(t, r);
    case Handle(r, rows) => InvHandle(t, r, rows);
    case Spread(mq, todo) => InvSpread(t, mq, todo);
    case Begin(mq, uid) => InvBegin(t, mq, uid);
    case Increment(mq, uid, ok) => InvIncrement(t, mq, uid, ok);
    case WriteInbox(x) => InvWrite(t, x);
    case AsyncPush(x, i) => InvPush(t, x, i);
    case Complete(i) => InvComplete(t, i);
    case OnPushSuccess(uid, no) => InvDelete(t, uid, no);
    case Applied(op) => InvApplied(t, op);
    case Failed(op) => InvFailed(t, op);
  }

  lemma InvReturn(t: State, i: Id, status: Status)
    requires Inv(t) && i in t.calls
    ensures Inv(Return(t, i, status))
  {
    hide Numbered, Traced, AllAccounted, Fanned, Texts, OpOk, Acked, RowOf, IdOf;
    KeepRest(t, Return(t, i, status));
  }

  function Boot(members: Members): State {
    State(members, multiset{}, multiset{}, map[], map[], multiset{}, map[], {}, {}, {}, [], {}, {}, {})
  }

  lemma InvBoot(members: Members)
    ensures Inv(Boot(members))
  {
    var t := Boot(members);
    forall mq, u ensures Fan(t, mq, u) {
      assert !Due(t, mq, u) && !Underway(t, mq, u) && !Handed(t, mq, u);
    }
  }

  // ---------------------------------------------------------------- what the invariant means

  /** A ticket whose insert is neither outstanding nor failed, and whose row is missing, was
      acknowledged by the push server. */
  lemma MissingMeansAcked(t: State, x: Ticket)
    requires Inv(t) && x in t.handed
    requires Write(x) !in t.running && InsertOf(x) !in t.ops && InsertOf(x) !in t.lost && RowOf(x) !in t.inbox
    ensures x in t.acked
  {
    hide Fanned, NumbersOf, Texts;
    assert Accounted(t, x);
    assert Acked(t, RowOf(x));
    var y :| y in t.acked && RowOf(y) == RowOf(x);
    TicketsAreUnique(t, x, y);
  }

  /** An inbox row, once assigned, is only ever written with one msgid. */
  lemma NeverOverwritten(t: State, row: Row, a: bytes, b: bytes)
    requires Inv(t)
    requires OpOk(t, Insert(row, a)) && OpOk(t, Insert(row, b))
    ensures a == b
  {
    hide Fanned, NumbersOf, Texts;
    var x :| x in t.handed && RowOf(x) == row && IdOf(x.mq) == a;
    var y :| y in t.handed && RowOf(y) == row && IdOf(y.mq) == b;
    TicketsAreUnique(t, x, y);
  }

  /** Calls keep their tickets, only `Return` answers one, and only an OK answer acknowledges. */
  lemma CallsMove(t: State, e: Event)
    requires Possible(t, e)
    ensures var t' := Apply(t, e);
            && (forall i <- t.calls :: i in t'.calls && t'.calls[i].x == t.calls[i].x)
            && (forall i <- t'.calls | t'.calls[i].Back? :: i in t.calls && t.calls[i] == t'.calls[i])
            && (forall x <- t'.acked :: x in t.acked || (e.Complete? && t.calls[e.i] == Back(x, OK)))
  {
    hide Accepts, Recipients, ParseMq, ToGroup, RowOf, IdOf, Lists,
         DoFetch, DoHandle, DoSpread, DoBegin, DoIncrement, DoWrite, DoDelete, DoApply, DoFail;
    if !e.Complete? && !e.AsyncPush? {
      CallsStay(t, e);
    }
  }

  lemma CallsStay(t: State, e: Event)
    requires Possible(t, e) && !e.Complete? && !e.AsyncPush?
    ensures Apply(t, e).calls == t.calls && Apply(t, e).acked == t.acked
  {
    hide Possible, DoHandle, DoSpread, DoIncrement, DoApply, InsertOf;
    match e
    case Handle(r, rows) => HandleParts(t, r, rows);
    case Spread(mq, todo) => SpreadCalls(t, mq, todo);
    case Increment(mq, uid, ok) => IncrementCalls(t, mq, uid, ok);
    case Applied(op) => ApplyCalls(t, op);
    case Fetch(r) => assert DoFetch(t, r).calls == t.calls;
    case Begin(mq, uid) => assert DoBegin(t, mq, uid).calls == t.calls;
    case WriteInbox(x) => assert DoWrite(t, x).calls == t.calls;
    case OnPushSuccess(uid, no) => assert DoDelete(t, uid, no).calls == t.calls;
    case Failed(op) => assert DoFail(t, op).calls == t.calls;
  }

  lemma SpreadCalls(t: State, mq: MqMessage, todo: seq<Uid>)
    ensures var t' := DoSpread(t, mq, todo);
            && t'.(pool := t.pool, running := t.running, consumed := t.consumed, skipped := t.skipped) == t
            && (forall f: Frame | f.Write? || f.Emit? :: f in t'.running <==> f in t.running)
            && (forall k: Task | k.Remove? :: k in t'.pool <==> k in t.pool)
  {
  }

  lemma IncrementCalls(t: State, mq: MqMessage, uid: Uid, ok: bool)
    ensures var t' := DoIncrement(t, mq, uid, ok); t'.calls == t.calls && t'.acked == t.acked
  {
  }

  lemma ApplyCalls(t: State, op: Op)
    ensures DoApply(t, op).calls == t.calls && DoApply(t, op).acked == t.acked
  {
  }
}
