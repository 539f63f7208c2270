/** The MySQL consumer (server/transfer/mysql/main.cc) over the tables of script/mysql.sql. Pool threads
    handle records at the same time, each with two INSERT statements that are not in a transaction, so
    the steps of different calls interleave; and the database may fail at any of them. Columns of msgids
    are compared with a case-insensitive collation; `ci` maps a string to what it is compared by, and
    may be any function. */
module MySql {
  import opened Options
  import opened Wire
  import opened Messages
  import opened Topic

  type Collation = bytes -> bytes

  datatype UserRow = UserRow(fromUid: Uid, toUid: Uid, sendtime: int64, msgid: bytes)
  datatype GroupRow = GroupRow(gid: Uid, sendtime: int64, msgid: bytes)

  /** `messages` maps a collated msgid to its data. `users` is the table that foreign keys refer to. */
  datatype Tables = Tables(users: set<Uid>, messages: map<bytes, bytes>, userBox: set<UserRow>, groupBox: set<GroupRow>)

  // ---------------------------------------------------------------- the INSERT statements

  function Characters(s: bytes): nat {
    if s == [] then 0 else (if Continuation(s[0]) then 0 else 1) + Characters(s[1..])
  }

  lemma {:induction false} CharactersMean(s: bytes, u: bytes, b: byte)
    ensures Characters([b]) == if 0x80 <= b <= 0xBF then 0 else 1
    ensures Characters(s + u) == Characters(s) + Characters(u)
  {
    assert [b][1..] == [];
    if s == [] {
      assert s + u == u;
    } else {
      CharactersMean(s[1..], u, b);
      assert (s + u)[1..] == s[1..] + u;
    }
  }

  /** VARCHAR(64) and BLOB. */
  predicate Fits(msgid: bytes, data: bytes) {
    Characters(msgid) <= 64 && |data| <= 65535
  }

  /** PRIMARY KEY (msgid). None is the exception. */
  function InsertMessage(ci: Collation, t: Tables, msgid: bytes, data: bytes): Option<Tables> {
    if ci(msgid) in t.messages || !Fits(msgid, data) then None
    else Some(t.(messages := t.messages[ci(msgid) := data]))
  }

  /** UNIQUE (from_uid, to_uid, sendtime). */
  predicate Clashes(t: Tables, row: UserRow) {
    exists r <- t.userBox :: r.fromUid == row.fromUid && r.toUid == row.toUid && r.sendtime == row.sendtime
  }

  function InsertUser(ci: Collation, t: Tables, row: UserRow): Option<Tables> {
    if Clashes(t, row) || row.fromUid !in t.users || row.toUid !in t.users || ci(row.msgid) !in t.messages then None
    else Some(t.(userBox := t.userBox + {row}))
  }

  /** UNIQUE (gid, sendtime, msgid). */
  predicate Repeats(ci: Collation, t: Tables, row: GroupRow) {
    exists r <- t.groupBox :: r.gid == row.gid && r.sendtime == row.sendtime && ci(r.msgid) == ci(row.msgid)
  }

  function InsertGroup(ci: Collation, t: Tables, row: GroupRow): Option<Tables> {
    if Repeats(ci, t, row) || ci(row.msgid) !in t.messages then None
    else Some(t.(groupBox := t.groupBox + {row}))
  }

  // ---------------------------------------------------------------- the handler

  function UserRowOf(mq: MqMessage): UserRow {
    UserRow(OriginReq(mq).fromUid, OriginReq(mq).toId, TimeOf(mq), IdOf(mq))
  }

  function GroupRowOf(mq: MqMessage): GroupRow {
    GroupRow(OriginReq(mq).toId, TimeOf(mq), IdOf(mq))
  }

  function Boxed(ci: Collation, t: Tables, mq: MqMessage): Tables {
    match (if ToGroup(mq) then InsertGroup(ci, t, GroupRowOf(mq)) else InsertUser(ci, t, UserRowOf(mq)))
    case Some(t') => t'
    case None => t
  }

  // ---------------------------------------------------------------- state and steps

  /** `boxing` are the messages whose first INSERT is done and whose second is still to come. The rest is
      history: `done` are the records that were handled up to the answer to their first INSERT,
      `faulted` the messages whose second INSERT failed although the schema may have allowed it. */
  datatype State = State(t: Tables, boxing: multiset<MqMessage>, done: set<Record>, faulted: set<MqMessage>)

  /** `ok` is false if the database fails; the handler swallows the exception. */
  datatype Event =
    | Insert(r: Record, ok: bool)      // parse, check, INSERT INTO messages; Kafka may deliver r any number of times
    | Box(mq: MqMessage, ok: bool)     // INSERT INTO group_box or user_box

  predicate Possible(s: State, e: Event) {
    match e
    case Insert(r, _) => !ParseMq(r.payload).Unknown?
    case Box(mq, _) => mq in s.boxing
  }

  function DoInsert(ci: Collation, s: State, r: Record): State {
    match Accepts(r)
    case None => s.(done := s.done + {r})
    case Some(mq) =>
      match InsertMessage(ci, s.t, IdOf(mq), r.payload)
      case None => s.(done := s.done + {r})
      case Some(t') => s.(t := t', boxing := s.boxing + multiset{mq}, done := s.done + {r})
  }

  function Apply(ci: Collation, s: State, e: Event): State {
    match e
    case Insert(r, ok) => if ok then DoInsert(ci, s, r) else s
    case Box(mq, ok) =>
      if ok then s.(t := Boxed(ci, s.t, mq), boxing := s.boxing - multiset{mq})
      else s.(boxing := s.boxing - multiset{mq}, faulted := s.faulted + {mq})
  }

  function After(ci: Collation, s: State, es: seq<Event>): State {
    if es == [] then s else Apply(ci, After(ci, s, es[..|es| - 1]), es[|es| - 1])
  }

  predicate IsRun(ci: Collation, s: State, es: seq<Event>) {
    es == [] || (IsRun(ci, s, es[..|es| - 1]) && Possible(After(ci, s, es[..|es| - 1]), es[|es| - 1]))
  }

  function Start(users: set<Uid>): State {
    State(Tables(users, map[], {}, {}), multiset{}, {}, {})
  }

  // ---------------------------------------------------------------- the handler, as a program

  /** The events of one call. */
  function Call(ci: Collation, s: State, r: Record, first: bool, second: bool): seq<Event> {
    if first && Enters(ci, s.t, r) then [Insert(r, first), Box(Accepts(r).value, second)] else [Insert(r, first)]
  }

  /** The first INSERT succeeds if the database does. */
  predicate Enters(ci: Collation, t: Tables, r: Record) {
    Accepts(r).Some? && Fits(IdOf(Accepts(r).value), r.payload) && ci(IdOf(Accepts(r).value)) !in t.messages
  }

  lemma AfterOne(ci: Collation, s: State, e: Event)
    ensures After(ci, s, [e]) == Apply(ci, s, e)
    ensures Possible(s, e) ==> IsRun(ci, s, [e])
  {
    assert [e][..0] == [];
  }

  lemma AfterTwo(ci: Collation, s: State, e: Event, f: Event)
    ensures After(ci, s, [e, f]) == Apply(ci, Apply(ci, s, e), f)
    ensures Possible(s, e) && Possible(Apply(ci, s, e), f) ==> IsRun(ci, s, [e, f])
  {
    AfterOne(ci, s, e);
    assert [e, f][..1] == [e];
  }

  class Store {
    const ci: Collation
    var s: State

    constructor (ci: Collation, users: set<Uid>)
      ensures this.ci == ci && s == Start(users)
    {
      this.ci := ci;
      s := Start(users);
    }

    /** One call that nothing interrupts; `first` and `second` say whether the database works. */
    method MySQLHandle(message: Record, first: bool, second: bool)
      modifies this
      ensures s == After(ci, old(s), Call(ci, old(s), message, first, second))
    {
      hide IdOf, TimeOf, OriginReq, Fits, Clashes, Repeats;
      var fromUid: Uid, toId: Uid, sendtime: int64, msgid: bytes, toGroup := 0, 0, 0, [], false;
      AfterOne(ci, s, Insert(message, first));
      if Accepts(message).Some? { AfterTwo(ci, s, Insert(message, first), Box(Accepts(message).value, second)); }
      if !first { return; }
      s := s.(done := s.done + {message});
      var parsed := ParseMq(message.payload);
      if !parsed.Ok? { return; }
      if IdOf(parsed.value) != message.key { return; }
      fromUid := OriginReq(parsed.value).fromUid;
      toId := OriginReq(parsed.value).toId;
      sendtime := TimeOf(parsed.value);
      msgid := IdOf(parsed.value);
      if OriginReq(parsed.value).kind == 6 || OriginReq(parsed.value).kind == 5 {
        toGroup := true;
      }
      var inserted := InsertMessage(ci, s.t, msgid, message.payload);
      if inserted.None? { return; }
      s := s.(t := inserted.value);
      assert s.boxing + multiset{parsed.value} - multiset{parsed.value} == s.boxing;
      if !second {
        s := s.(faulted := s.faulted + {parsed.value});
        return;
      }
      if toGroup {
        inserted := InsertGroup(ci, s.t, GroupRow(toId, sendtime, msgid));
      } else {
        inserted := InsertUser(ci, s.t, UserRow(fromUid, toId, sendtime, msgid));
      }
      if inserted.None? { return; }
      s := s.(t := inserted.value);
    }
  }

  // ---------------------------------------------------------------- idempotence

  /** Delivering r (again) does nothing. */
  predicate Settled(ci: Collation, t: Tables, r: Record) {
    match Accepts(r)
    case None => true
    case Some(mq) => ci(IdOf(mq)) in t.messages || !Fits(IdOf(mq), r.payload)
  }

  lemma StepSettles(ci: Collation, s: State, e: Event, q: Record)
    ensures Settled(ci, s.t, q) <==> Apply(ci, s, Insert(q, true)) == s.(done := s.done + {q})
    ensures e == Insert(q, true) ==> Settled(ci, Apply(ci, s, e).t, q) && q in Apply(ci, s, e).done
    ensures Settled(ci, s.t, q) ==> Settled(ci, Apply(ci, s, e).t, q)
    ensures s.done <= Apply(ci, s, e).done
  {
    hide Accepts, Fits, Clashes, Repeats, ToGroup, IdOf, TimeOf;
  }

  lemma {:induction false} RunSettles(ci: Collation, s: State, es: seq<Event>, q: Record)
    requires Insert(q, true) in es
    ensures Settled(ci, After(ci, s, es).t, q) && q in After(ci, s, es).done
  {
    hide Settled, Apply;
    var init, e := es[..|es| - 1], es[|es| - 1];
    StepSettles(ci, After(ci, s, init), e, q);
    if e != Insert(q, true) {
      assert es == init + [e];
      RunSettles(ci, s, init, q);
    }
  }

  /** The run without its failed and its repeated deliveries. */
  function Firsts(es: seq<Event>): seq<Event> {
    if es == [] then []
    else
      var init, e := es[..|es| - 1], es[|es| - 1];
      Firsts(init) + if e.Insert? && (!e.ok || e in init) then [] else [e]
  }

  /** However often records are delivered again, and however the calls interleave, the state is as if each
      record had been delivered once, at its first delivery that reached the database. */
  lemma {:induction false} Idempotent(ci: Collation, s: State, es: seq<Event>)
    requires IsRun(ci, s, es)
    ensures IsRun(ci, s, Firsts(es)) && After(ci, s, es) == After(ci, s, Firsts(es))
  {
    hide Settled, Apply, Possible;
    if es != [] {
      var init, e := es[..|es| - 1], es[|es| - 1];
      Idempotent(ci, s, init);
      if e.Insert? && (!e.ok || e in init) {
        assert Firsts(es) == Firsts(init);
        Repeated(ci, s, init, e);
      } else {
        assert Firsts(es)[..|Firsts(es)| - 1] == Firsts(init);
      }
    }
  }

  lemma Repeated(ci: Collation, s: State, init: seq<Event>, e: Event)
    requires e.Insert? && (!e.ok || e in init)
    ensures Apply(ci, After(ci, s, init), e) == After(ci, s, init)
  {
    hide Settled, DoInsert, After;
    if e.ok {
      RunSettles(ci, s, init, e.r);
      StepSettles(ci, After(ci, s, init), e, e.r);
      assert After(ci, s, init).done + {e.r} == After(ci, s, init).done;
    }
  }

  // ---------------------------------------------------------------- the tables in every state

  /** No box row has this msgid. */
  ghost predicate Unboxed(ci: Collation, t: Tables, id: bytes) {
    (forall r <- t.userBox :: ci(r.msgid) != ci(id)) && (forall r <- t.groupBox :: ci(r.msgid) != ci(id))
  }

  /** Every box row refers to a stored message, and no message is in two box rows. */
  ghost predicate TablesOk(ci: Collation, t: Tables) {
    && (forall r <- t.userBox :: ci(r.msgid) in t.messages)
    && (forall r <- t.groupBox :: ci(r.msgid) in t.messages)
    && (forall r <- t.userBox, q <- t.userBox :: ci(r.msgid) == ci(q.msgid) ==> r == q)
    && (forall r <- t.groupBox, q <- t.groupBox :: ci(r.msgid) == ci(q.msgid) ==> r == q)
    && (forall r <- t.userBox, q <- t.groupBox :: ci(r.msgid) != ci(q.msgid))
  }

  /** Messages on their way to a box, each once, are stored and in none; so are those whose way ended in a
      failure, which are not on their way. */
  ghost predicate BoxingOk(ci: Collation, s: State) {
    && (forall m <- s.boxing :: s.boxing[m] == 1 && ci(IdOf(m)) in s.t.messages && Unboxed(ci, s.t, IdOf(m)))
    && (forall m <- s.boxing, n <- s.boxing :: ci(IdOf(m)) == ci(IdOf(n)) ==> m == n)
    && (forall m <- s.faulted :: ci(IdOf(m)) in s.t.messages && Unboxed(ci, s.t, IdOf(m)))
    && (forall m <- s.faulted, n <- s.boxing :: ci(IdOf(m)) != ci(IdOf(n)))
  }

  ghost predicate Inv(ci: Collation, s: State) {
    TablesOk(ci, s.t) && BoxingOk(ci, s)
  }

  lemma InvInsert(ci: Collation, s: State, r: Record)
    requires Inv(ci, s)
    ensures Inv(ci, DoInsert(ci, s, r))
  {
    hide Accepts, Fits, IdOf, TablesOk, BoxingOk;
    if Enters(ci, s.t, r) {
      var mq := Accepts(r).value;
      var t1 := s.t.(messages := s.t.messages[ci(IdOf(mq)) := r.payload]);
      StoredOk(ci, s.t, IdOf(mq), r.payload);
      BoxingGrows(ci, s, DoInsert(ci, s, r), mq);
    } else {
      SameBoxing(ci, s, DoInsert(ci, s, r));
    }
  }

  lemma StoredOk(ci: Collation, t: Tables, id: bytes, data: bytes)
    requires TablesOk(ci, t) && ci(id) !in t.messages
    ensures TablesOk(ci, t.(messages := t.messages[ci(id) := data])) && Unboxed(ci, t, id)
  {
  }

  lemma SameBoxing(ci: Collation, s: State, s': State)
    requires BoxingOk(ci, s) && s'.t == s.t && s'.boxing == s.boxing && s'.faulted == s.faulted
    ensures BoxingOk(ci, s')
  {
    hide Unboxed, IdOf;
  }

  lemma BoxingGrows(ci: Collation, s: State, s': State, mq: MqMessage)
    requires BoxingOk(ci, s) && Unboxed(ci, s.t, IdOf(mq)) && ci(IdOf(mq)) !in s.t.messages
    requires s'.boxing == s.boxing + multiset{mq} && s'.faulted == s.faulted
    requires s'.t.userBox == s.t.userBox && s'.t.groupBox == s.t.groupBox
    requires s'.t.messages.Keys == s.t.messages.Keys + {ci(IdOf(mq))}
    ensures BoxingOk(ci, s')
  {
    hide IdOf, Unboxed;
    forall id | Unboxed(ci, s.t, id) ensures Unboxed(ci, s'.t, id) { SameUnboxed(ci, s.t, s'.t, id); }
    assert mq !in s.boxing;
  }

  lemma SameUnboxed(ci: Collation, t: Tables, t': Tables, id: bytes)
    requires Unboxed(ci, t, id) && t'.userBox == t.userBox && t'.groupBox == t.groupBox
    ensures Unboxed(ci, t', id)
  {
  }

  /** The second INSERT adds at most the message's own row. */
  lemma BoxedAdds(ci: Collation, t: Tables, mq: MqMessage)
    ensures var t' := Boxed(ci, t, mq);
            || t' == t
            || t' == t.(groupBox := t.groupBox + {GroupRowOf(mq)})
            || t' == t.(userBox := t.userBox + {UserRowOf(mq)})
    ensures GroupRowOf(mq).msgid == UserRowOf(mq).msgid == IdOf(mq)
    ensures forall id | ci(id) != ci(IdOf(mq)) && Unboxed(ci, t, id) :: Unboxed(ci, Boxed(ci, t, mq), id)
  {
    hide Clashes, Repeats, ToGroup, IdOf, TimeOf;
  }

  lemma BoxedOk(ci: Collation, t: Tables, mq: MqMessage)
    requires TablesOk(ci, t) && ci(IdOf(mq)) in t.messages && Unboxed(ci, t, IdOf(mq))
    ensures TablesOk(ci, Boxed(ci, t, mq))
  {
    hide Boxed, IdOf, GroupRowOf, UserRowOf;
    BoxedAdds(ci, t, mq);
  }

  lemma InvBox(ci: Collation, s: State, mq: MqMessage, ok: bool)
    requires Inv(ci, s) && mq in s.boxing
    ensures Inv(ci, Apply(ci, s, Box(mq, ok)))
  {
    hide Boxed, TablesOk, BoxingOk;
    var s' := Apply(ci, s, Box(mq, ok));
    assert ci(IdOf(mq)) in s.t.messages && Unboxed(ci, s.t, IdOf(mq)) by { Underway(ci, s, mq); }
    if ok {
      BoxedKeeps(ci, s.t, mq);
      BoxedOk(ci, s.t, mq);
      BoxingShrinks(ci, s, s', mq);
    } else {
      BoxingFails(ci, s, s', mq);
    }
  }

  lemma Underway(ci: Collation, s: State, mq: MqMessage)
    requires BoxingOk(ci, s) && mq in s.boxing
    ensures ci(IdOf(mq)) in s.t.messages && Unboxed(ci, s.t, IdOf(mq))
    ensures forall m <- s.boxing - multiset{mq} :: m in s.boxing && ci(IdOf(m)) != ci(IdOf(mq))
  {
    hide Unboxed, IdOf;
  }

  lemma BoxingShrinks(ci: Collation, s: State, s': State, mq: MqMessage)
    requires BoxingOk(ci, s) && mq in s.boxing && s'.boxing == s.boxing - multiset{mq} && s'.faulted == s.faulted
    requires s'.t.messages == s.t.messages
    requires forall id | ci(id) != ci(IdOf(mq)) && Unboxed(ci, s.t, id) :: Unboxed(ci, s'.t, id)
    ensures BoxingOk(ci, s')
  {
    hide Unboxed, IdOf;
    Underway(ci, s, mq);
  }

  lemma BoxingFails(ci: Collation, s: State, s': State, mq: MqMessage)
    requires BoxingOk(ci, s) && mq in s.boxing && s'.boxing == s.boxing - multiset{mq}
    requires s'.faulted == s.faulted + {mq} && s'.t == s.t
    ensures BoxingOk(ci, s')
  {
    hide Unboxed, IdOf;
    Underway(ci, s, mq);
  }

  lemma BoxedKeeps(ci: Collation, t: Tables, mq: MqMessage)
    ensures var t' := Boxed(ci, t, mq);
            && t'.messages == t.messages && t'.users == t.users && t.userBox <= t'.userBox && t.groupBox <= t'.groupBox
            && forall id | ci(id) != ci(IdOf(mq)) && Unboxed(ci, t, id) :: Unboxed(ci, t', id)
  {
    hide Boxed, IdOf, Unboxed, GroupRowOf, UserRowOf;
    BoxedAdds(ci, t, mq);
  }

  lemma {:induction false} InvRun(ci: Collation, s: State, es: seq<Event>)
    requires Inv(ci, s) && IsRun(ci, s, es)
    ensures Inv(ci, After(ci, s, es))
  {
    hide Inv, DoInsert, Boxed;
    if es != [] {
      var e := es[|es| - 1];
      InvRun(ci, s, es[..|es| - 1]);
      match e
      case Insert(r, _) => InvInsert(ci, After(ci, s, es[..|es| - 1]), r);
      case Box(mq, ok) => InvBox(ci, After(ci, s, es[..|es| - 1]), mq, ok);
    }
  }

  lemma InvStart(ci: Collation, users: set<Uid>)
    ensures Inv(ci, Start(users))
  {
  }

  /** In every state of every run, also between the two INSERTs of any number of calls: each box row refers
      to a stored message, and no msgid is in two box rows. */
  lemma BoxesAreSound(ci: Collation, users: set<Uid>, es: seq<Event>)
    requires IsRun(ci, Start(users), es)
    ensures TablesOk(ci, After(ci, Start(users), es).t)
  {
    InvStart(ci, users);
    InvRun(ci, Start(users), es);
  }

  // ---------------------------------------------------------------- who gets a row

  predicate HasRow(t: Tables, mq: MqMessage) {
    if ToGroup(mq) then GroupRowOf(mq) in t.groupBox else UserRowOf(mq) in t.userBox
  }

  /** What the second INSERT asks for. */
  predicate Admissible(t: Tables, mq: MqMessage) {
    || ToGroup(mq)
    || (OriginReq(mq).fromUid in t.users && OriginReq(mq).toId in t.users && !Clashes(t, UserRowOf(mq)))
  }

  lemma BoxedExactly(ci: Collation, t: Tables, mq: MqMessage)
    requires ci(IdOf(mq)) in t.messages && Unboxed(ci, t, IdOf(mq))
    ensures !HasRow(t, mq)
    ensures if Admissible(t, mq) then HasRow(Boxed(ci, t, mq), mq) && Boxed(ci, t, mq) != t else Boxed(ci, t, mq) == t
  {
    hide ToGroup, IdOf, TimeOf;
    assert !Repeats(ci, t, GroupRowOf(mq));
  }

  /** Exactly which deliveries make a message readable, if the database works: the record parses and has its
      msgid as key, it fits, the msgid is new under the collation, and it goes to a group, or both users
      exist and there is no row with the same sender, receiver and timestamp. The row then has exactly the
      fields of the message. Any other delivery leaves both boxes as they are. */
  lemma BoxedIff(ci: Collation, s: State, r: Record)
    requires Inv(ci, s)
    ensures var t' := After(ci, s, Call(ci, s, r, true, true)).t;
            match ParseMq(r.payload)
            case Ok(mq) =>
              var (req, time, msgid) := (OriginReq(mq), TimestampOf(HandleResult(mq)), MsgidOf(HandleResult(mq)));
              if msgid != r.key || Characters(msgid) > 64 || |r.payload| > 65535 || ci(msgid) in s.t.messages
              then t' == s.t
              else
                && t'.messages == s.t.messages[ci(msgid) := r.payload] && t'.users == s.t.users
                && if req.kind == 5 || req.kind == 6
                   then t'.userBox == s.t.userBox && t'.groupBox == s.t.groupBox + {GroupRow(req.toId, time, msgid)}
                        && GroupRow(req.toId, time, msgid) !in s.t.groupBox
                   else
                     && t'.groupBox == s.t.groupBox
                     && if req.fromUid in s.t.users && req.toId in s.t.users
                           && (forall row <- s.t.userBox ::
                                 !(row.fromUid == req.fromUid && row.toUid == req.toId && row.sendtime == time))
                        then t'.userBox == s.t.userBox + {UserRow(req.fromUid, req.toId, time, msgid)}
                             && UserRow(req.fromUid, req.toId, time, msgid) !in s.t.userBox
                        else t'.userBox == s.t.userBox
            case _ => t' == s.t
  {
    hide Fits, BoxingOk, Boxed, OriginReq, HandleResult, Characters, TimestampOf, MsgidOf;
    AfterOne(ci, s, Insert(r, true));
    FitsMeans(MsgidOf(HandleResult(if ParseMq(r.payload).Ok? then ParseMq(r.payload).value else NO_MQ)), r.payload);
    if Enters(ci, s.t, r) {
      var mq := Accepts(r).value;
      AfterTwo(ci, s, Insert(r, true), Box(mq, true));
      BoxRow(ci, s.t.(messages := s.t.messages[ci(IdOf(mq)) := r.payload]), mq);
    }
  }

  /** One call of the handler, field by field, in any state of the tables: what is stored, which row it gets,
      and what a failing database leaves behind. */
  lemma CallMeans(ci: Collation, s: State, r: Record, first: bool, second: bool)
    ensures !first ==> After(ci, s, Call(ci, s, r, first, second)) == s
    ensures first && !ParseMq(r.payload).Ok? ==>
              After(ci, s, Call(ci, s, r, first, second)) == s.(done := s.done + {r})
    ensures first && ParseMq(r.payload).Ok? ==>
              var (s', s0) := (After(ci, s, Call(ci, s, r, first, second)), s.(done := s.done + {r}));
              var mq := ParseMq(r.payload).value;
              var (req, time, msgid) := (OriginReq(mq), TimestampOf(HandleResult(mq)), MsgidOf(HandleResult(mq)));
              if msgid != r.key || Characters(msgid) > 64 || |r.payload| > 65535 || ci(msgid) in s.t.messages
              then s' == s0
              else
                var t1 := s.t.(messages := s.t.messages[ci(msgid) := r.payload]);
                if !second then s' == s0.(t := t1, faulted := s.faulted + {mq})
                else if req.kind == 5 || req.kind == 6
                then
                  if exists row <- t1.groupBox ::
                       row.gid == req.toId && row.sendtime == time && ci(row.msgid) == ci(msgid)
                  then s' == s0.(t := t1)
                  else s' == s0.(t := t1.(groupBox := t1.groupBox + {GroupRow(req.toId, time, msgid)}))
                else
                  if req.fromUid in t1.users && req.toId in t1.users
                     && (forall row <- t1.userBox ::
                           !(row.fromUid == req.fromUid && row.toUid == req.toId && row.sendtime == time))
                  then s' == s0.(t := t1.(userBox := t1.userBox + {UserRow(req.fromUid, req.toId, time, msgid)}))
                  else s' == s0.(t := t1)
  {
    hide Fits, Boxed, OriginReq, HandleResult, Characters, TimestampOf, MsgidOf;
    AfterOne(ci, s, Insert(r, first));
    FitsMeans(MsgidOf(HandleResult(if ParseMq(r.payload).Ok? then ParseMq(r.payload).value else NO_MQ)), r.payload);
    if first && Enters(ci, s.t, r) {
      var mq := Accepts(r).value;
      AfterTwo(ci, s, Insert(r, true), Box(mq, second));
      assert s.boxing + multiset{mq} - multiset{mq} == s.boxing;
      BoxRow(ci, s.t.(messages := s.t.messages[ci(IdOf(mq)) := r.payload]), mq);
    }
  }

  lemma FitsMeans(msgid: bytes, data: bytes)
    ensures Fits(msgid, data) <==> Characters(msgid) <= 64 && |data| <= 65535
  {
  }

  /** The second INSERT, field by field. */
  lemma BoxRow(ci: Collation, t: Tables, mq: MqMessage)
    requires ci(MsgidOf(HandleResult(mq))) in t.messages
    ensures var (req, time, msgid) := (OriginReq(mq), TimestampOf(HandleResult(mq)), MsgidOf(HandleResult(mq)));
            if req.kind == 5 || req.kind == 6
            then
              if exists row <- t.groupBox :: row.gid == req.toId && row.sendtime == time && ci(row.msgid) == ci(msgid)
              then Boxed(ci, t, mq) == t
              else Boxed(ci, t, mq) == t.(groupBox := t.groupBox + {GroupRow(req.toId, time, msgid)})
            else
              if req.fromUid in t.users && req.toId in t.users
                 && (forall row <- t.userBox ::
                       !(row.fromUid == req.fromUid && row.toUid == req.toId && row.sendtime == time))
              then Boxed(ci, t, mq) == t.(userBox := t.userBox + {UserRow(req.fromUid, req.toId, time, msgid)})
              else Boxed(ci, t, mq) == t
  {
    hide OriginReq, HandleResult, TimestampOf, MsgidOf;
  }

  lemma SameBoxes(t: Tables, t': Tables, mq: MqMessage)
    requires t'.userBox == t.userBox && t'.groupBox == t.groupBox && t'.users == t.users
    ensures HasRow(t', mq) == HasRow(t, mq) && Admissible(t', mq) == Admissible(t, mq)
  {
    assert Clashes(t', UserRowOf(mq)) == Clashes(t, UserRowOf(mq));
  }

  // ---------------------------------------------------------------- for good

  /** The message is stored, in no box, and no call is on its way to put it into one. */
  ghost predicate Missed(ci: Collation, s: State, id: bytes) {
    ci(id) in s.t.messages && Unboxed(ci, s.t, id) && forall m <- s.boxing :: ci(IdOf(m)) != ci(id)
  }

  lemma MissedStep(ci: Collation, s: State, e: Event, id: bytes)
    requires Possible(s, e) && Missed(ci, s, id)
    ensures Missed(ci, Apply(ci, s, e), id)
  {
    hide Accepts, Boxed, IdOf, Fits, Unboxed;
    match e
    case Insert(r, ok) => InsertKeepsBoxes(ci, s, r, id);
    case Box(mq, ok) => BoxedKeeps(ci, s.t, mq);
  }

  lemma InsertKeepsBoxes(ci: Collation, s: State, r: Record, id: bytes)
    ensures var s' := DoInsert(ci, s, r);
            && s'.t.userBox == s.t.userBox && s'.t.groupBox == s.t.groupBox && s'.t.users == s.t.users
            && s.t.messages.Keys <= s'.t.messages.Keys && s'.faulted == s.faulted
            && (Unboxed(ci, s.t, id) ==> Unboxed(ci, s'.t, id))
            && (forall m <- s'.boxing :: m in s.boxing || ci(IdOf(m)) !in s.t.messages)
  {
    hide Accepts, IdOf, Fits;
  }

  lemma {:induction false} MissedForGood(ci: Collation, s: State, more: seq<Event>, id: bytes)
    requires IsRun(ci, s, more) && Missed(ci, s, id)
    ensures Missed(ci, After(ci, s, more), id)
  {
    hide Missed, Apply, Possible;
    if more != [] {
      MissedForGood(ci, s, more[..|more| - 1], id);
      MissedStep(ci, After(ci, s, more[..|more| - 1]), more[|more| - 1], id);
    }
  }

  lemma {:induction false} RowsStay(ci: Collation, s: State, more: seq<Event>, mq: MqMessage)
    requires HasRow(s.t, mq)
    ensures HasRow(After(ci, s, more).t, mq)
  {
    hide Boxed, DoInsert;
    if more != [] {
      var s', e := After(ci, s, more[..|more| - 1]), more[|more| - 1];
      RowsStay(ci, s, more[..|more| - 1], mq);
      match e
      case Insert(r, ok) => InsertKeepsBoxes(ci, s', r, []);
      case Box(m, ok) => BoxedKeeps(ci, s'.t, m);
    }
  }

  /** The second INSERT decides for good: in every state from then on, however records are delivered again,
      the message is in its box if and only if the database worked at that moment and the row was
      admissible. A message that missed it is in no box ever. */
  lemma BoxDecides(ci: Collation, s: State, mq: MqMessage, ok: bool, more: seq<Event>)
    requires Inv(ci, s) && mq in s.boxing && IsRun(ci, Apply(ci, s, Box(mq, ok)), more)
    ensures var t' := After(ci, Apply(ci, s, Box(mq, ok)), more).t;
            if ok && Admissible(s.t, mq) then HasRow(t', mq) else !HasRow(t', mq) && Unboxed(ci, t', IdOf(mq))
  {
    hide Boxed, Admissible, HasRow, Unboxed, After, IsRun, IdOf;
    var s' := Apply(ci, s, Box(mq, ok));
    assert forall m <- s'.boxing :: m in s.boxing && m != mq;
    BoxedExactly(ci, s.t, mq);
    if ok && Admissible(s.t, mq) {
      RowsStay(ci, s', more, mq);
    } else {
      MissedForGood(ci, s', more, IdOf(mq));
      UnboxedHasNoRow(ci, After(ci, s', more).t, mq);
    }
  }

  /** The input: any message that the schema would take, and a database that fails at its second INSERT. No
      redelivery repairs it. */
  lemma FailedBoxIsFinal(ci: Collation, users: set<Uid>, r: Record, more: seq<Event>)
    requires Enters(ci, Start(users).t, r) && Admissible(Start(users).t, Accepts(r).value)
    ensures var (s, mq) := (Start(users), Accepts(r).value);
            var s2 := After(ci, s, [Insert(r, true), Box(mq, false)]);
            && IsRun(ci, s, [Insert(r, true), Box(mq, false)])
            && (IsRun(ci, s2, more) ==> Unboxed(ci, After(ci, s2, more).t, IdOf(mq)))
  {
    hide Accepts, Fits, Admissible, Unboxed, After, IsRun, IdOf;
    var s, mq := Start(users), Accepts(r).value;
    Parsed(r);
    InvStart(ci, users);
    InvInsert(ci, s, r);
    AfterTwo(ci, s, Insert(r, true), Box(mq, false));
    var s2 := After(ci, s, [Insert(r, true), Box(mq, false)]);
    if IsRun(ci, s2, more) { BoxDecides(ci, DoInsert(ci, s, r), mq, false, more); }
  }

  lemma UnboxedHasNoRow(ci: Collation, t: Tables, mq: MqMessage)
    requires Unboxed(ci, t, IdOf(mq))
    ensures !HasRow(t, mq)
  {
  }

  /** The message is stored, and a row with its sender, receiver and time is in its place. */
  ghost predicate Outrun(ci: Collation, s: State, mq: MqMessage) {
    && ci(IdOf(mq)) in s.t.messages && Unboxed(ci, s.t, IdOf(mq)) && Clashes(s.t, UserRowOf(mq))
    && forall m <- s.boxing :: ci(IdOf(m)) == ci(IdOf(mq)) ==> m == mq
  }

  lemma OutrunStep(ci: Collation, s: State, e: Event, mq: MqMessage)
    requires Possible(s, e) && Outrun(ci, s, mq) && !ToGroup(mq)
    ensures Outrun(ci, Apply(ci, s, e), mq)
  {
    hide Accepts, IdOf, Fits, Unboxed, Clashes, UserRowOf, GroupRowOf, Boxed, ToGroup;
    match e
    case Insert(r, ok) =>
      InsertKeepsBoxes(ci, s, r, IdOf(mq));
      StillClashes(s.t, DoInsert(ci, s, r).t, UserRowOf(mq));
    case Box(m, ok) =>
      BoxedKeeps(ci, s.t, m);
      StillClashes(s.t, Boxed(ci, s.t, m), UserRowOf(mq));
      if m == mq { ClashRefuses(ci, s.t, mq); }
  }

  lemma StillClashes(t: Tables, t': Tables, row: UserRow)
    requires Clashes(t, row) && t.userBox <= t'.userBox
    ensures Clashes(t', row)
  {
  }

  lemma ClashRefuses(ci: Collation, t: Tables, mq: MqMessage)
    requires Clashes(t, UserRowOf(mq)) && !ToGroup(mq)
    ensures Boxed(ci, t, mq) == t
  {
  }

  lemma {:induction false} OutrunForGood(ci: Collation, s: State, more: seq<Event>, mq: MqMessage)
    requires IsRun(ci, s, more) && Outrun(ci, s, mq) && !ToGroup(mq)
    ensures Outrun(ci, After(ci, s, more), mq)
  {
    hide Outrun, Apply, Possible, ToGroup;
    if more != [] {
      OutrunForGood(ci, s, more[..|more| - 1], mq);
      OutrunStep(ci, After(ci, s, more[..|more| - 1]), more[|more| - 1], mq);
    }
  }

  /** If a direct message is stored when a row with its sender, receiver and time is already there, it is
      lost to readers for good: in every state of every continuation it is stored and in no box. */
  lemma SameMillisecondIsLost(ci: Collation, s: State, q: Record, more: seq<Event>)
    requires Inv(ci, s) && Enters(ci, s.t, q)
    requires var req := OriginReq(Accepts(q).value);
             && req.kind != 5 && req.kind != 6
             && exists row <- s.t.userBox ::
                  && row.fromUid == req.fromUid && row.toUid == req.toId
                  && row.sendtime == TimestampOf(HandleResult(Accepts(q).value))
    requires IsRun(ci, DoInsert(ci, s, q), more)
    ensures var t := After(ci, DoInsert(ci, s, q), more).t;
            var id := IdOf(Accepts(q).value);
            ci(id) in t.messages && Unboxed(ci, t, id)
  {
    hide Accepts, IdOf, Fits, OriginReq, HandleResult, TimestampOf, After, IsRun;
    NewIsOutrun(ci, s, q);
    OutrunForGood(ci, DoInsert(ci, s, q), more, Accepts(q).value);
  }

  lemma NewIsOutrun(ci: Collation, s: State, q: Record)
    requires Inv(ci, s) && Enters(ci, s.t, q) && Clashes(s.t, UserRowOf(Accepts(q).value))
    ensures Outrun(ci, DoInsert(ci, s, q), Accepts(q).value)
  {
    hide Accepts, IdOf, Fits, UserRowOf, Clashes;
    var mq := Accepts(q).value;
    StillClashes(s.t, DoInsert(ci, s, q).t, UserRowOf(mq));
  }

  /** The input: two direct messages between the same known users in the same millisecond. */
  lemma TwoInOneMillisecond(ci: Collation, users: set<Uid>, r: Record, q: Record, more: seq<Event>)
    requires Enters(ci, Start(users).t, r) && Enters(ci, Start(users).t, q)
    requires var (a, b) := (Accepts(r).value, Accepts(q).value);
             && OriginReq(a).kind != 5 && OriginReq(a).kind != 6 && OriginReq(b).kind != 5 && OriginReq(b).kind != 6
             && ci(MsgidOf(HandleResult(a))) != ci(MsgidOf(HandleResult(b)))
             && OriginReq(a).fromUid in users && OriginReq(a).toId in users
             && OriginReq(b).fromUid == OriginReq(a).fromUid && OriginReq(b).toId == OriginReq(a).toId
             && TimestampOf(HandleResult(b)) == TimestampOf(HandleResult(a))
    ensures var (s, a) := (Start(users), Accepts(r).value);
            var s2 := After(ci, s, [Insert(r, true), Box(a, true)]);
            && IsRun(ci, s, [Insert(r, true), Box(a, true)]) && HasRow(s2.t, a)
            && (IsRun(ci, DoInsert(ci, s2, q), more) ==>
                  && var t := After(ci, DoInsert(ci, s2, q), more).t;
                     ci(IdOf(Accepts(q).value)) in t.messages && Unboxed(ci, t, IdOf(Accepts(q).value)))
  {
    hide Accepts, Fits, After, IsRun, Boxed, OriginReq, HandleResult, TimestampOf, MsgidOf;
    var s, a, b := Start(users), Accepts(r).value, Accepts(q).value;
    Parsed(r);
    AfterTwo(ci, s, Insert(r, true), Box(a, true));
    var s1 := DoInsert(ci, s, r);
    BoxedExactly(ci, s1.t, a);
    BoxedKeeps(ci, s1.t, a);
    var s2 := After(ci, s, [Insert(r, true), Box(a, true)]);
    InvStart(ci, users);
    InvRun(ci, s, [Insert(r, true), Box(a, true)]);
    assert UserRowOf(a) in s2.t.userBox;
    assert Clashes(s2.t, UserRowOf(b));
    if IsRun(ci, DoInsert(ci, s2, q), more) { SameMillisecondIsLost(ci, s2, q, more); }
  }

  lemma Parsed(r: Record)
    requires Accepts(r).Some?
    ensures ParseMq(r.payload).Ok?
  {
  }
}
