/** Fan-out on write against fan-out on read: the inboxes that the Cassandra consumer fills and the
    boxes from which a reader of the MySQL tables would collect the messages of a user. */
module FanOut {
  import opened Options
  import opened Wire
  import opened Messages
  import opened Topic
  import Transfer
  import MySql
  import Delivery

  /** The msgids that were ever assigned to user u. */
  function WriteSide(t: Transfer.State, u: Uid): set<bytes> {
    set x <- t.handed | x.uid == u :: IdOf(x.mq)
  }

  /** The msgids that a reader finds for user u: those in user_box to u, and those in group_box of u's
      groups that were sent after u joined. */
  function ReadSide(members: Members, t: MySql.Tables, u: Uid): set<bytes> {
    (set r <- t.userBox | r.toUid == u :: r.msgid)
    + (set r <- t.groupBox | (r.gid, u) in members && members[(r.gid, u)] <= r.sendtime :: r.msgid)
  }

  // ---------------------------------------------------------------- the write side

  /** No message taken from Kafka is still being spread or numbered. */
  ghost predicate Settled(t: Transfer.State) {
    (forall k <- t.pool :: k.Remove?) && (forall f <- t.running :: f.Write? || f.Emit?)
  }

  /** The msgids for which the Cassandra consumer failed to serve user u: the member query of a handled record
      failed, or the counter of u did. */
  function Lost(t: Transfer.State, u: Uid): set<bytes> {
    (set r <- t.skipped | r in t.consumed && IsDue(t.members, r, u) :: IdOf(Accepts(r).value))
    + (set d <- t.dropped | d.1 == u :: IdOf(d.0))
  }

  predicate IsDue(members: Members, r: Record, u: Uid) {
    Accepts(r).Some? && u in Recipients(members, Accepts(r).value)
  }

  /** The record is for this user under this msgid, in the fields of the message: it parses, its msgid is its key,
      and it has kind 5 or 6 and the user had joined the group by its timestamp, or any other kind and the
      user is its receiver. */
  predicate Addressed(members: Members, r: Record, u: Uid, id: bytes) {
    match ParseMq(r.payload)
    case Ok(mq) =>
      && MsgidOf(HandleResult(mq)) == r.key == id
      && if OriginReq(mq).kind == 5 || OriginReq(mq).kind == 6
         then (OriginReq(mq).toId, u) in members && members[(OriginReq(mq).toId, u)] <= TimestampOf(HandleResult(mq))
         else u == OriginReq(mq).toId
    case _ => false
  }

  lemma AddressedMeans(members: Members, r: Record, u: Uid, id: bytes)
    ensures Addressed(members, r, u, id) <==> IsFor(members, r, u, id)
  {
    hide ParseMq;
    if Accepts(r).Some? {
      var mq := Accepts(r).value;
      RecipientsMean(members, mq, u);
    }
  }

  lemma RecipientsMean(members: Members, mq: MqMessage, u: Uid)
    ensures u in Recipients(members, mq)
       <==> if OriginReq(mq).kind == 5 || OriginReq(mq).kind == 6
            then (OriginReq(mq).toId, u) in members && members[(OriginReq(mq).toId, u)] <= TimestampOf(HandleResult(mq))
            else u == OriginReq(mq).toId
  {
    hide OriginReq, HandleResult, TimestampOf;
    if m :| m in members && m.0 == OriginReq(mq).toId && members[m] <= TimeOf(mq) && m.1 == u {
      assert m == (OriginReq(mq).toId, u);
    }
  }

  /** Exactly the messages for a user were assigned to the user, or failed for the user. */
  lemma WrittenIffDue(t: Transfer.State, u: Uid, id: bytes)
    requires Transfer.Inv(t) && Settled(t)
    ensures id in WriteSide(t, u) + Lost(t, u) <==> exists r <- t.consumed :: Addressed(t.members, r, u, id)
  {
    hide Transfer.Inv, Settled, WriteSide, Lost, Addressed, IsDue, Accepts;
    ServedIffDue(t, u, id);
    forall r ensures Addressed(t.members, r, u, id) <==> IsFor(t.members, r, u, id) {
      AddressedMeans(t.members, r, u, id);
    }
  }

  predicate IsFor(members: Members, r: Record, u: Uid, id: bytes) {
    IsDue(members, r, u) && IdOf(Accepts(r).value) == id
  }

  lemma ServedIffDue(t: Transfer.State, u: Uid, id: bytes)
    requires Transfer.Inv(t) && Settled(t)
    ensures id in WriteSide(t, u) + Lost(t, u) <==> exists r <- t.consumed :: IsFor(t.members, r, u, id)
  {
    hide Transfer.Numbered, Transfer.Traced, Transfer.AllAccounted, Transfer.Texts, Accepts, Recipients, IdOf;
    if id in WriteSide(t, u) {
      var x :| x in t.handed && x.uid == u && IdOf(x.mq) == id;
      assert Transfer.Fan(t, x.mq, u) && Transfer.Handed(t, x.mq, u);
    }
    if d :| d in t.dropped && d.1 == u && IdOf(d.0) == id {
      assert d == (d.0, u) && Transfer.Fan(t, d.0, u);
    }
    if r :| r in t.consumed && IsFor(t.members, r, u, id) {
      DueIsServed(t, r, u);
    }
  }

  lemma DueIsServed(t: Transfer.State, r: Record, u: Uid)
    requires Transfer.Inv(t) && Settled(t) && r in t.consumed && IsDue(t.members, r, u)
    ensures r in t.skipped || (Accepts(r).value, u) in t.dropped || Transfer.Handed(t, Accepts(r).value, u)
    ensures IdOf(Accepts(r).value) in WriteSide(t, u) + Lost(t, u)
  {
    hide Transfer.Numbered, Transfer.Traced, Transfer.AllAccounted, Transfer.Texts, Accepts, Recipients, IdOf;
    var mq := Accepts(r).value;
    if r !in t.skipped {
      assert Transfer.Due(t, mq, u);
      assert Transfer.Fan(t, mq, u) && !Transfer.Underway(t, mq, u);
      if (mq, u) !in t.dropped {
        var x :| x in t.handed && x.uid == u && x.mq == mq;
      }
    }
  }

  // ---------------------------------------------------------------- the read side

  ghost predicate From(done: set<Record>, mq: MqMessage) {
    exists r <- done :: Accepts(r) == Some(mq)
  }

  /** Rows, stored messages and messages on their way come from handled records. */
  ghost predicate Sourced(ci: MySql.Collation, s: MySql.State) {
    && (forall k <- s.t.messages :: exists mq :: From(s.done, mq) && ci(IdOf(mq)) == k)
    && (forall row <- s.t.userBox :: exists mq :: From(s.done, mq) && !ToGroup(mq) && row == MySql.UserRowOf(mq))
    && (forall row <- s.t.groupBox :: exists mq :: From(s.done, mq) && ToGroup(mq) && row == MySql.GroupRowOf(mq))
    && (forall mq <- s.boxing :: From(s.done, mq))
    && (forall mq <- s.faulted :: From(s.done, mq))
  }

  lemma SourcedInsert(ci: MySql.Collation, s: MySql.State, r: Record)
    requires Sourced(ci, s)
    ensures Sourced(ci, MySql.DoInsert(ci, s, r))
  {
    hide Accepts, ToGroup, IdOf, MySql.Fits, MySql.UserRowOf, MySql.GroupRowOf, From;
    FromGrows(s.done, r);
  }

  lemma FromGrows(done: set<Record>, r: Record)
    ensures forall mq | From(done, mq) :: From(done + {r}, mq)
    ensures Accepts(r).Some? ==> From(done + {r}, Accepts(r).value)
  {
    hide Accepts;
    assert r in done + {r};
  }

  lemma SourcedBox(ci: MySql.Collation, s: MySql.State, mq: MqMessage, ok: bool)
    requires Sourced(ci, s) && mq in s.boxing
    ensures Sourced(ci, MySql.Apply(ci, s, MySql.Box(mq, ok)))
  {
    hide IdOf, MySql.UserRowOf, MySql.GroupRowOf, From, ToGroup, MySql.Clashes, MySql.Repeats;
  }

  lemma {:induction false} RowsAreSourced(ci: MySql.Collation, users: set<Uid>, es: seq<MySql.Event>)
    requires MySql.IsRun(ci, MySql.Start(users), es)
    ensures var s := MySql.After(ci, MySql.Start(users), es); Sourced(ci, s) && s.t.users == users
  {
    hide Sourced, MySql.DoInsert, MySql.Boxed;
    if es != [] {
      var init, e := es[..|es| - 1], es[|es| - 1];
      var s := MySql.After(ci, MySql.Start(users), init);
      RowsAreSourced(ci, users, init);
      match e
      case Insert(r, ok) => SourcedInsert(ci, s, r); MySql.InsertKeepsBoxes(ci, s, r, []);
      case Box(mq, ok) => SourcedBox(ci, s, mq, ok); MySql.BoxedKeeps(ci, s.t, mq);
    } else {
      NothingSourced(ci, users);
    }
  }

  lemma NothingSourced(ci: MySql.Collation, users: set<Uid>)
    ensures Sourced(ci, MySql.Start(users))
  {
  }

  /** The message of a record under its key. */
  ghost predicate Carries(done: set<Record>, mq: MqMessage, payload: bytes) {
    exists r <- done :: r.payload == payload && ParseMq(payload) == Ok(mq) && MsgidOf(HandleResult(mq)) == r.key
  }

  ghost predicate Stores(ci: MySql.Collation, s: MySql.State) {
    forall k <- s.t.messages ::
      exists mq :: Carries(s.done, mq, s.t.messages[k]) && ci(MsgidOf(HandleResult(mq))) == k
  }

  lemma StoresStep(ci: MySql.Collation, s: MySql.State, e: MySql.Event)
    requires Stores(ci, s)
    ensures Stores(ci, MySql.Apply(ci, s, e))
  {
    hide Carries, MySql.Boxed, MsgidOf, HandleResult, MySql.Fits, ParseMq;
    match e
    case Insert(r, ok) =>
      forall mq, payload | Carries(s.done, mq, payload) ensures Carries(s.done + {r}, mq, payload) {
        CarriesMore(s.done, r, mq, payload);
      }
      if Accepts(r).Some? { CarriesNew(s.done, r, Accepts(r).value); }
    case Box(mq, ok) => MySql.BoxedKeeps(ci, s.t, mq);
  }

  lemma CarriesMore(done: set<Record>, r: Record, mq: MqMessage, payload: bytes)
    requires Carries(done, mq, payload)
    ensures Carries(done + {r}, mq, payload)
  {
    var q :| q in done && q.payload == payload && ParseMq(payload) == Ok(mq) && MsgidOf(HandleResult(mq)) == q.key;
    assert q in done + {r};
  }

  lemma CarriesNew(done: set<Record>, r: Record, mq: MqMessage)
    requires Accepts(r) == Some(mq)
    ensures Carries(done + {r}, mq, r.payload)
  {
    assert r in done + {r};
  }

  /** In every state of every run the tables hold, field by field, what handled records carry: each stored message
      is the payload of such a record whose msgid collates to its key; each row of a box has the msgid, the
      timestamp and the users or the group of such a message of the right kind. */
  lemma TablesSpelledOut(ci: MySql.Collation, users: set<Uid>, es: seq<MySql.Event>)
    requires MySql.IsRun(ci, MySql.Start(users), es)
    ensures Stores(ci, MySql.After(ci, MySql.Start(users), es))
    ensures var s := MySql.After(ci, MySql.Start(users), es);
            && (forall row <- s.t.userBox ::
                  exists mq, payload ::
                    && Carries(s.done, mq, payload) && OriginReq(mq).kind != 5 && OriginReq(mq).kind != 6
                    && row.fromUid == OriginReq(mq).fromUid && row.toUid == OriginReq(mq).toId
                    && row.sendtime == TimestampOf(HandleResult(mq)) && row.msgid == MsgidOf(HandleResult(mq)))
            && (forall row <- s.t.groupBox ::
                  exists mq, payload ::
                    && Carries(s.done, mq, payload) && (OriginReq(mq).kind == 5 || OriginReq(mq).kind == 6)
                    && row.gid == OriginReq(mq).toId
                    && row.sendtime == TimestampOf(HandleResult(mq)) && row.msgid == MsgidOf(HandleResult(mq)))
  {
    hide Carries, Stores, MySql.Apply, ParseMq, OriginReq, HandleResult, TimestampOf, MsgidOf;
    RowsAreSourced(ci, users, es);
    var s := MySql.After(ci, MySql.Start(users), es);
    forall mq | From(s.done, mq) ensures exists payload :: Carries(s.done, mq, payload) { FromCarries(s.done, mq); }
    StoresRun(ci, users, es);
  }

  lemma FromCarries(done: set<Record>, mq: MqMessage)
    requires From(done, mq)
    ensures exists payload :: Carries(done, mq, payload)
  {
    hide ParseMq, MsgidOf, HandleResult;
    var r :| r in done && Accepts(r) == Some(mq);
    assert Carries(done, mq, r.payload);
  }

  lemma {:induction false} StoresRun(ci: MySql.Collation, users: set<Uid>, es: seq<MySql.Event>)
    requires MySql.IsRun(ci, MySql.Start(users), es)
    ensures Stores(ci, MySql.After(ci, MySql.Start(users), es))
  {
    if es == [] {
      assert MySql.Start(users).t.messages == map[];
    } else {
      hide Stores, MySql.Apply;
      StoresRun(ci, users, es[..|es| - 1]);
      StoresStep(ci, MySql.After(ci, MySql.Start(users), es[..|es| - 1]), es[|es| - 1]);
    }
  }

  // ---------------------------------------------------------------- the two agree

  /** What the schema demands of the messages: they fit, their users exist, their msgids differ under the
      collation, and so do sender, receiver and time of direct messages. */
  ghost predicate Clean(ci: MySql.Collation, users: set<Uid>, done: set<Record>) {
    && (forall r <- done | Accepts(r).Some? :: CleanAlone(users, r))
    && (forall r <- done, q <- done | r != q && Accepts(r).Some? && Accepts(q).Some? ::
          CleanPair(ci, Accepts(r).value, Accepts(q).value))
  }

  predicate CleanAlone(users: set<Uid>, r: Record)
    requires Accepts(r).Some?
  {
    var mq := Accepts(r).value;
    && MySql.Characters(MsgidOf(HandleResult(mq))) <= 64 && |r.payload| <= 65535
    && (IsDirect(mq) ==> OriginReq(mq).fromUid in users && OriginReq(mq).toId in users)
  }

  predicate CleanPair(ci: MySql.Collation, a: MqMessage, b: MqMessage) {
    && ci(MsgidOf(HandleResult(a))) != ci(MsgidOf(HandleResult(b)))
    && (IsDirect(a) && IsDirect(b) ==>
          !(&& OriginReq(a).fromUid == OriginReq(b).fromUid && OriginReq(a).toId == OriginReq(b).toId
            && TimestampOf(HandleResult(a)) == TimestampOf(HandleResult(b))))
  }

  predicate IsDirect(mq: MqMessage) {
    OriginReq(mq).kind != 5 && OriginReq(mq).kind != 6
  }

  lemma CleanMeans(ci: MySql.Collation, users: set<Uid>, r: Record, a: MqMessage, b: MqMessage)
    ensures Accepts(r).Some? && CleanAlone(users, r) ==>
              var mq := Accepts(r).value;
              && MySql.Fits(IdOf(mq), r.payload)
              && (!ToGroup(mq) ==> OriginReq(mq).fromUid in users && OriginReq(mq).toId in users)
    ensures CleanPair(ci, a, b) ==>
              && ci(IdOf(a)) != ci(IdOf(b))
              && (!ToGroup(a) && !ToGroup(b) ==> MySql.UserRowOf(a).(msgid := []) != MySql.UserRowOf(b).(msgid := []))
  {
    hide Accepts, OriginReq, HandleResult, TimestampOf, MySql.Characters;
  }

  /** Every handled message is in its box, on its way, or was stopped by a failure of the database. */
  ghost predicate Complete(s: MySql.State) {
    forall r <- s.done | Accepts(r).Some? :: Arrived(s, Accepts(r).value)
  }

  predicate Arrived(s: MySql.State, mq: MqMessage) {
    MySql.HasRow(s.t, mq) || mq in s.boxing || mq in s.faulted
  }

  lemma CompleteInsert(ci: MySql.Collation, s: MySql.State, r: Record)
    requires Complete(s) && Sourced(ci, s) && Clean(ci, s.t.users, s.done + {r})
    ensures Complete(MySql.DoInsert(ci, s, r))
  {
    hide Accepts, ToGroup, IdOf, MySql.Fits, MySql.UserRowOf, MySql.GroupRowOf, MySql.HasRow;
    MySql.InsertKeepsBoxes(ci, s, r, []);
    var s' := MySql.DoInsert(ci, s, r);
    forall q <- s'.done | Accepts(q).Some? ensures Arrived(s', Accepts(q).value) {
      MySql.SameBoxes(s.t, s'.t, Accepts(q).value);
      if q !in s.done { NewEnters(ci, s, r); }
    }
  }

  /** A record that was not handled before is new to the table. */
  lemma NewEnters(ci: MySql.Collation, s: MySql.State, r: Record)
    requires Sourced(ci, s) && Clean(ci, s.t.users, s.done + {r}) && r !in s.done && Accepts(r).Some?
    ensures MySql.Enters(ci, s.t, r)
  {
    hide Accepts, ToGroup, IdOf, MySql.Fits, MySql.UserRowOf, MySql.GroupRowOf, CleanAlone, CleanPair;
    var mq := Accepts(r).value;
    assert r in s.done + {r} && CleanAlone(s.t.users, r);
    CleanMeans(ci, s.t.users, r, mq, mq);
    forall m | From(s.done, m) ensures ci(IdOf(m)) != ci(IdOf(mq)) {
      var q :| q in s.done && Accepts(q) == Some(m);
      assert q in s.done + {r} && CleanPair(ci, m, mq);
      CleanMeans(ci, s.t.users, r, m, mq);
    }
  }

  lemma CompleteBox(ci: MySql.Collation, s: MySql.State, mq: MqMessage, ok: bool)
    requires Complete(s) && Sourced(ci, s) && MySql.Inv(ci, s) && Clean(ci, s.t.users, s.done) && mq in s.boxing
    ensures Complete(MySql.Apply(ci, s, MySql.Box(mq, ok)))
  {
    hide Accepts, Sourced, MySql.Inv, Clean, MySql.HasRow, MySql.Boxed;
    var s' := MySql.Apply(ci, s, MySql.Box(mq, ok));
    if ok { CleanIsAdmissible(ci, s, mq); }
    forall q <- s'.done | Accepts(q).Some? ensures Arrived(s', Accepts(q).value) {
      var m := Accepts(q).value;
      assert Arrived(s, m);
      if MySql.HasRow(s.t, m) { RowStays(ci, s.t, mq, m); }
    }
  }

  lemma RowStays(ci: MySql.Collation, t: MySql.Tables, mq: MqMessage, m: MqMessage)
    requires MySql.HasRow(t, m)
    ensures MySql.HasRow(MySql.Boxed(ci, t, mq), m)
  {
    hide MySql.Boxed, ToGroup;
    MySql.BoxedKeeps(ci, t, mq);
  }

  lemma CleanIsAdmissible(ci: MySql.Collation, s: MySql.State, mq: MqMessage)
    requires Sourced(ci, s) && MySql.Inv(ci, s) && Clean(ci, s.t.users, s.done) && mq in s.boxing
    ensures MySql.HasRow(MySql.Boxed(ci, s.t, mq), mq)
  {
    hide Accepts, ToGroup, IdOf, MySql.Fits, MySql.TablesOk, MySql.HasRow, MySql.Boxed, OriginReq, TimeOf, CleanAlone,
         CleanPair;
    MySql.Underway(ci, s, mq);
    var r :| r in s.done && Accepts(r) == Some(mq);
    assert CleanAlone(s.t.users, r);
    CleanMeans(ci, s.t.users, r, mq, mq);
    if !ToGroup(mq) {
      forall row <- s.t.userBox ensures row.(msgid := []) != MySql.UserRowOf(mq).(msgid := []) {
        var m :| From(s.done, m) && !ToGroup(m) && row == MySql.UserRowOf(m);
        var q :| q in s.done && Accepts(q) == Some(m);
        assert m != mq && CleanPair(ci, m, mq);
        CleanMeans(ci, s.t.users, r, m, mq);
      }
    }
    MySql.BoxedExactly(ci, s.t, mq);
  }

  /** In every state of every run of the MySQL consumer, every handled message is in its box, on its way,
      or was stopped by a failure, whatever the order, the interleaving and the repetitions. */
  lemma {:induction false} CleanIsComplete(ci: MySql.Collation, users: set<Uid>, es: seq<MySql.Event>)
    requires MySql.IsRun(ci, MySql.Start(users), es) && Clean(ci, users, MySql.After(ci, MySql.Start(users), es).done)
    ensures Complete(MySql.After(ci, MySql.Start(users), es))
  {
    hide Complete, Sourced, MySql.Inv, MySql.DoInsert, MySql.Boxed, Clean;
    if es != [] {
      var init, e := es[..|es| - 1], es[|es| - 1];
      var s := MySql.After(ci, MySql.Start(users), init);
      RowsAreSourced(ci, users, init);
      MySql.InvStart(ci, users);
      MySql.InvRun(ci, MySql.Start(users), init);
      Handled(ci, s, e);
      CleanSubset(ci, users, s.done, MySql.Apply(ci, s, e).done);
      CleanIsComplete(ci, users, init);
      match e
      case Insert(r, ok) => if ok { CompleteInsert(ci, s, r); }
      case Box(mq, ok) => CompleteBox(ci, s, mq, ok);
    } else {
      assert Complete(MySql.Start(users)) by { NothingHandled(users); }
    }
  }

  lemma NothingHandled(users: set<Uid>)
    ensures Complete(MySql.Start(users))
  {
  }

  lemma Handled(ci: MySql.Collation, s: MySql.State, e: MySql.Event)
    ensures MySql.Apply(ci, s, e).done == if e.Insert? && e.ok then s.done + {e.r} else s.done
  {
    hide Accepts, MySql.Fits, MySql.Boxed;
  }

  lemma CleanSubset(ci: MySql.Collation, users: set<Uid>, small: set<Record>, big: set<Record>)
    requires Clean(ci, users, big) && small <= big
    ensures Clean(ci, users, small)
  {
    hide Accepts, CleanAlone, CleanPair;
  }

  /** What a reader finds was addressed to the user. */
  lemma ReadIsDue(ci: MySql.Collation, members: Members, s: MySql.State, u: Uid, id: bytes)
    requires Sourced(ci, s) && id in ReadSide(members, s.t, u)
    ensures exists mq :: From(s.done, mq) && IdOf(mq) == id && u in Recipients(members, mq)
  {
    hide ToGroup, IdOf, TimeOf, From;
    if row :| row in s.t.userBox && row.toUid == u && row.msgid == id {
      var mq :| From(s.done, mq) && !ToGroup(mq) && row == MySql.UserRowOf(mq);
      assert u in Recipients(members, mq);
    } else {
      var row :| && row in s.t.groupBox && (row.gid, u) in members
                 && members[(row.gid, u)] <= row.sendtime && row.msgid == id;
      var mq :| From(s.done, mq) && ToGroup(mq) && row == MySql.GroupRowOf(mq);
      assert u in Recipients(members, mq);
    }
  }

  lemma RowIsRead(members: Members, t: MySql.Tables, mq: MqMessage, u: Uid)
    requires MySql.HasRow(t, mq) && u in Recipients(members, mq)
    ensures IdOf(mq) in ReadSide(members, t, u)
  {
    hide ToGroup, IdOf, TimeOf;
    if ToGroup(mq) {
      var m :| m in members && m.0 == OriginReq(mq).toId && members[m] <= TimeOf(mq) && m.1 == u;
      assert m == (MySql.GroupRowOf(mq).gid, u);
    } else {
      assert MySql.UserRowOf(mq).toUid == u;
    }
  }

  // ---------------------------------------------------------------- main results

  /** Without any assumption on the messages, and in every state of both consumers' runs, a reader of the
      MySQL tables never finds more than what was assigned or failed to be, if the Cassandra consumer has
      settled at least the records that the MySQL consumer has handled. */
  lemma ReadWithinWritten(c: Delivery.State, cs: seq<Delivery.Event>, ci: MySql.Collation, users: set<Uid>,
                          es: seq<MySql.Event>, u: Uid)
    requires Delivery.Initial(c) && Delivery.IsRun(c, cs) && Settled(Delivery.After(c, cs).t)
    requires MySql.IsRun(ci, MySql.Start(users), es)
    requires MySql.After(ci, MySql.Start(users), es).done <= Delivery.After(c, cs).t.consumed
    ensures var t := Delivery.After(c, cs).t;
            ReadSide(t.members, MySql.After(ci, MySql.Start(users), es).t, u) <= WriteSide(t, u) + Lost(t, u)
  {
    hide Transfer.Inv, ReadSide, WriteSide, Lost, Accepts, Recipients, Settled, Sourced, MySql.After, MySql.IsRun;
    Delivery.Reached(c, cs);
    RowsAreSourced(ci, users, es);
    var t, s := Delivery.After(c, cs).t, MySql.After(ci, MySql.Start(users), es);
    forall id <- ReadSide(t.members, s.t, u) ensures id in WriteSide(t, u) + Lost(t, u) {
      ReadIsDue(ci, t.members, s, u, id);
      var mq :| From(s.done, mq) && IdOf(mq) == id && u in Recipients(t.members, mq);
      var r :| r in s.done && Accepts(r) == Some(mq);
      assert r in t.consumed && IsFor(t.members, r, u, id);
      ServedIffDue(t, u, id);
    }
  }

  /** The msgids of the messages that a failure of the database kept out of their box. */
  function Faulted(s: MySql.State): set<bytes> {
    set mq <- s.faulted :: IdOf(mq)
  }

  /** Fan-out on write refines fan-out on read. In every run of the delivery chain, once the consumed
      messages have been spread, and in every run of the MySQL consumer on the same messages, with any order,
      interleaving and repetition, once no call is between its two INSERTs: the msgids assigned to a user
      are exactly those that a reader collects for the user, up to the failures on either side: those whose
      second INSERT the database failed, and those that the Cassandra consumer failed to assign. And both are
      what the messages themselves say: those of the records that are addressed to the user. */
  lemma WriteRefinesRead(c: Delivery.State, cs: seq<Delivery.Event>, ci: MySql.Collation, users: set<Uid>,
                         es: seq<MySql.Event>, u: Uid)
    requires Delivery.Initial(c) && Delivery.IsRun(c, cs) && Settled(Delivery.After(c, cs).t)
    requires MySql.IsRun(ci, MySql.Start(users), es)
    requires var s := MySql.After(ci, MySql.Start(users), es);
             s.done == Delivery.After(c, cs).t.consumed && s.boxing == multiset{} && Clean(ci, users, s.done)
    ensures var (t, s) := (Delivery.After(c, cs).t, MySql.After(ci, MySql.Start(users), es));
            ReadSide(t.members, s.t, u) - (Lost(t, u) - WriteSide(t, u)) == WriteSide(t, u) - Faulted(s)
    ensures var (t, s) := (Delivery.After(c, cs).t, MySql.After(ci, MySql.Start(users), es));
            forall id ::
              && (id in WriteSide(t, u) || id in Lost(t, u)
                  <==> exists r <- t.consumed :: Addressed(t.members, r, u, id))
              && (id in ReadSide(t.members, s.t, u)
                  <==> id !in Faulted(s) && exists r <- t.consumed :: Addressed(t.members, r, u, id))
  {
    hide Transfer.Inv, ReadSide, WriteSide, Lost, Settled, Clean, MySql.After, MySql.IsRun, MySql.Inv, Complete,
         Faulted, Addressed, Sourced;
    ReadWithinWritten(c, cs, ci, users, es, u);
    Delivery.Reached(c, cs);
    CleanIsComplete(ci, users, es);
    MySql.InvStart(ci, users);
    MySql.InvRun(ci, MySql.Start(users), es);
    var t, s := Delivery.After(c, cs).t, MySql.After(ci, MySql.Start(users), es);
    forall id <- WriteSide(t, u) - Faulted(s) ensures id in ReadSide(t.members, s.t, u) { WrittenIsRead(t, s, u, id); }
    forall id <- Faulted(s) ensures id !in ReadSide(t.members, s.t, u) { FaultedIsUnread(ci, t.members, s, u, id); }
    RowsAreSourced(ci, users, es);
    forall id
      ensures id in WriteSide(t, u) || id in Lost(t, u) <==> exists r <- t.consumed :: Addressed(t.members, r, u, id)
      ensures id in ReadSide(t.members, s.t, u)
         <==> id !in Faulted(s) && exists r <- t.consumed :: Addressed(t.members, r, u, id)
    {
      WrittenIffDue(t, u, id);
      ReadIffAddressed(t, s, ci, u, id);
    }
  }

  lemma ReadIffAddressed(t: Transfer.State, s: MySql.State, ci: MySql.Collation, u: Uid, id: bytes)
    requires Complete(s) && Sourced(ci, s) && MySql.Inv(ci, s) && s.done == t.consumed && s.boxing == multiset{}
    ensures id in ReadSide(t.members, s.t, u)
       <==> id !in Faulted(s) && exists r <- t.consumed :: Addressed(t.members, r, u, id)
  {
    hide ReadSide, Accepts, Recipients, MySql.HasRow, IdOf, Addressed, Sourced, MySql.Inv;
    forall r ensures Addressed(t.members, r, u, id) <==> IsFor(t.members, r, u, id) {
      AddressedMeans(t.members, r, u, id);
    }
    if id in ReadSide(t.members, s.t, u) {
      ReadIsDue(ci, t.members, s, u, id);
      var mq :| From(s.done, mq) && IdOf(mq) == id && u in Recipients(t.members, mq);
      var r :| r in s.done && Accepts(r) == Some(mq);
      assert r in t.consumed && IsFor(t.members, r, u, id);
    }
    if id in Faulted(s) { FaultedIsUnread(ci, t.members, s, u, id); }
    if r :| id !in Faulted(s) && r in t.consumed && IsFor(t.members, r, u, id) {
      assert Arrived(s, Accepts(r).value);
      RowIsRead(t.members, s.t, Accepts(r).value, u);
    }
  }

  lemma WrittenIsRead(t: Transfer.State, s: MySql.State, u: Uid, id: bytes)
    requires Transfer.Inv(t) && Settled(t) && Complete(s) && s.done == t.consumed && s.boxing == multiset{}
    requires id in WriteSide(t, u) - Faulted(s)
    ensures id in ReadSide(t.members, s.t, u)
  {
    hide Transfer.Inv, ReadSide, WriteSide, Lost, Accepts, Recipients, Settled, MySql.HasRow, IdOf;
    ServedIffDue(t, u, id);
    var r :| r in t.consumed && IsFor(t.members, r, u, id);
    assert Arrived(s, Accepts(r).value);
    RowIsRead(t.members, s.t, Accepts(r).value, u);
  }

  lemma FaultedIsUnread(ci: MySql.Collation, members: Members, s: MySql.State, u: Uid, id: bytes)
    requires MySql.Inv(ci, s) && id in Faulted(s)
    ensures id !in ReadSide(members, s.t, u)
  {
    hide MySql.TablesOk, IdOf;
    var mq :| mq in s.faulted && IdOf(mq) == id;
    assert MySql.Unboxed(ci, s.t, IdOf(mq));
  }
}
