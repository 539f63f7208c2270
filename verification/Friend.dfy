/** `FriendCtrlHandle` (server/msg_logic/logic_server.cc) over the tables `friend` and
    `friend_action_log` (script/mysql.sql), one call at a time. */
module Friend {
  import opened Wire
  import opened Messages

  const FRIEND_REQ: int32 := 0
  const FRIEND_DEL: int32 := 1
  const FRIEND_AUTH_OK: int32 := 2

  /** The column `action_type`. */
  datatype Action = Requested | Deleted | Added | Rejected

  datatype Entry = Entry(fromUid: Uid, toUid: Uid, action: Action)

  /** `friend` has a unique key on (uid, friend_uid), so it is a map from pairs to notes. */
  datatype Tables = Tables(friend: map<(Uid, Uid), bytes>, log: seq<Entry>)

  // ---------------------------------------------------------------- the SQL statements

  /** SELECT COUNT(*) FROM friend_action_log WHERE from_uid = a AND to_uid = b AND action_type = 0 */
  function Pending(log: seq<Entry>, a: Uid, b: Uid): nat {
    if log == [] then 0
    else (if log[0] == Entry(a, b, Requested) then 1 else 0) + Pending(log[1..], a, b)
  }

  /** UPDATE friend_action_log SET action_type = act WHERE from_uid = a AND to_uid = b */
  function Rewrite(log: seq<Entry>, a: Uid, b: Uid, act: Action): (r: seq<Entry>)
    ensures |r| == |log|
  {
    if log == [] then []
    else [if log[0].fromUid == a && log[0].toUid == b then Entry(a, b, act) else log[0]] + Rewrite(log[1..], a, b, act)
  }

  /** UPDATE friend SET note = note WHERE uid = a AND friend_uid = b */
  function SetNote(friend: map<(Uid, Uid), bytes>, a: Uid, b: Uid, note: bytes): (r: map<(Uid, Uid), bytes>)
    ensures r.Keys == friend.Keys
  {
    if (a, b) in friend then friend[(a, b) := note] else friend
  }

  // ---------------------------------------------------------------- the handler

  function Ctrl(q: ProtoReq): Body {
    if q.data.Fctrl? then q.data.fctrl else NO_BODY
  }

  predicate IsReq(q: ProtoReq) { Ctrl(q).kind == FRIEND_REQ }
  predicate IsDel(q: ProtoReq) { Ctrl(q).kind == FRIEND_DEL }
  predicate IsAnswer(q: ProtoReq) { !IsReq(q) && !IsDel(q) }

  function Accepted(t: Tables, q: ProtoReq): bool {
    if IsReq(q) then (q.fromUid, q.toId) !in t.friend && Pending(t.log, q.fromUid, q.toId) == 0
    else if IsDel(q) then (q.fromUid, q.toId) in t.friend
    else Pending(t.log, q.fromUid, q.toId) > 0
  }

  /** The tables after a call. The answer branches rewrite the entries of the opposite direction. */
  function Step(t: Tables, q: ProtoReq): Tables {
    var (uid, peer) := (q.fromUid, q.toId);
    if !Accepted(t, q) then t
    else if IsReq(q) then t.(log := t.log + [Entry(uid, peer, Requested)])
    else if IsDel(q) then Tables(t.friend - {(uid, peer)}, t.log + [Entry(uid, peer, Deleted)])
    else if Ctrl(q).kind == FRIEND_AUTH_OK then
      Tables(SetNote(SetNote(t.friend, uid, peer, Ctrl(q).content), peer, uid, Ctrl(q).content),
             Rewrite(t.log, peer, uid, Added))
    else t.(log := Rewrite(t.log, peer, uid, Rejected))
  }

  lemma {:induction false} PendingMeans(log: seq<Entry>, a: Uid, b: Uid)
    ensures Pending(log, a, b) == multiset(log)[Entry(a, b, Requested)]
  {
    if log != [] {
      PendingMeans(log[1..], a, b);
      assert log == [log[0]] + log[1..];
    }
  }

  lemma {:induction false} RewriteMeans(log: seq<Entry>, a: Uid, b: Uid, act: Action)
    ensures forall i | 0 <= i < |log| ::
              Rewrite(log, a, b, act)[i]
              == if log[i].fromUid == a && log[i].toUid == b then Entry(a, b, act) else log[i]
  {
    if log != [] {
      RewriteMeans(log[1..], a, b, act);
    }
  }

  class FriendStore {
    var friend: map<(Uid, Uid), bytes>
    var log: seq<Entry>

    constructor ()
      ensures View() == Tables(map[], [])
    {
      friend, log := map[], [];
    }

    function View(): Tables
      reads this
    {
      Tables(friend, log)
    }

    method FriendCtrlHandle(request: ProtoReq) returns (ok: bool)
      modifies this
      ensures ok == Accepted(old(View()), request)
      ensures View() == Step(old(View()), request)
      // the same, row by row
      ensures var (uid, peer) := (request.fromUid, request.toId);
              var kind := if request.data.Fctrl? then request.data.fctrl.kind else 0;
              ok <==> if kind == 0 then (uid, peer) !in old(friend) && Entry(uid, peer, Requested) !in old(log)
                      else if kind == 1 then (uid, peer) in old(friend)
                      else Entry(uid, peer, Requested) in old(log)
      ensures !ok ==> friend == old(friend) && log == old(log)
      ensures var (uid, peer) := (request.fromUid, request.toId);
              var kind := if request.data.Fctrl? then request.data.fctrl.kind else 0;
              && (ok && kind == 0 ==> friend == old(friend) && log == old(log) + [Entry(uid, peer, Requested)])
              && (ok && kind == 1 ==>
                    friend == old(friend) - {(uid, peer)} && log == old(log) + [Entry(uid, peer, Deleted)])
              && (ok && kind != 0 && kind != 1 ==>
                    && |log| == |old(log)|
                    && (forall i | 0 <= i < |log| ::
                          log[i] == if old(log)[i].fromUid == peer && old(log)[i].toUid == uid
                                    then Entry(peer, uid, if kind == 2 then Added else Rejected) else old(log)[i])
                    && friend.Keys == old(friend).Keys
                    && (forall k <- friend ::
                          friend[k] == if kind == 2 && (k == (uid, peer) || k == (peer, uid))
                                       then request.data.fctrl.content else old(friend)[k]))
    {
      PendingMeans(log, request.fromUid, request.toId);
      RewriteMeans(log, request.toId, request.fromUid, Added);
      RewriteMeans(log, request.toId, request.fromUid, Rejected);
      var uid, friendUid := request.fromUid, request.toId;
      var note, kind := Ctrl(request).content, Ctrl(request).kind;
      if kind == FRIEND_REQ || kind == FRIEND_DEL {
        var count := if (uid, friendUid) in friend then 1 else 0;
        if kind == FRIEND_REQ {
          if count > 0 { return false; }
          var reqCount := Pending(log, uid, friendUid);
          if reqCount > 0 { return false; }
          log := log + [Entry(uid, friendUid, Requested)];
        } else {
          if count == 0 { return false; }
          friend := friend - {(uid, friendUid)};
          log := log + [Entry(uid, friendUid, Deleted)];
        }
      } else {
        var reqCount := Pending(log, uid, friendUid);
        if reqCount == 0 { return false; }
        if kind == FRIEND_AUTH_OK {
          friend := SetNote(friend, uid, friendUid, note);
          friend := SetNote(friend, friendUid, uid, note);
          log := Rewrite(log, friendUid, uid, Added);
        } else {
          log := Rewrite(log, friendUid, uid, Rejected);
        }
      }
      return true;
    }
  }

  // ---------------------------------------------------------------- counting

  lemma {:induction false} PendingAppend(log: seq<Entry>, e: Entry, a: Uid, b: Uid)
    ensures Pending(log + [e], a, b) == Pending(log, a, b) + if e == Entry(a, b, Requested) then 1 else 0
  {
    if log == [] {
      assert [] + [e] == [e];
      assert [e][1..] == [];
    } else {
      assert (log + [e])[1..] == log[1..] + [e];
      PendingAppend(log[1..], e, a, b);
    }
  }

  lemma {:induction false} PendingRewrite(log: seq<Entry>, f: Uid, t: Uid, act: Action, a: Uid, b: Uid)
    requires act != Requested
    ensures Pending(Rewrite(log, f, t, act), a, b) == if a == f && b == t then 0 else Pending(log, a, b)
  {
    if log != [] {
      PendingRewrite(log[1..], f, t, act, a, b);
      assert Rewrite(log, f, t, act)[1..] == Rewrite(log[1..], f, t, act);
    }
  }

  /** What one call does to the number of pending requests of any pair. */
  lemma PendingStep(t: Tables, q: ProtoReq, a: Uid, b: Uid)
    ensures Pending(Step(t, q).log, a, b)
         == if !Accepted(t, q) then Pending(t.log, a, b)
            else if IsReq(q) && (a, b) == (q.fromUid, q.toId) then Pending(t.log, a, b) + 1
            else if IsAnswer(q) && (a, b) == (q.toId, q.fromUid) then 0
            else Pending(t.log, a, b)
  {
    hide Pending, Rewrite, SetNote;
    PendingAppend(t.log, Entry(q.fromUid, q.toId, if IsReq(q) then Requested else Deleted), a, b);
    PendingRewrite(t.log, q.toId, q.fromUid, Added, a, b);
    PendingRewrite(t.log, q.toId, q.fromUid, Rejected, a, b);
  }

  // ---------------------------------------------------------------- invariants over every run

  /** At most one pending request per ordered pair, and none between a user and an existing friend. */
  ghost predicate Inv(t: Tables) {
    && (forall a, b :: Pending(t.log, a, b) <= 1)
    && (forall a, b :: (a, b) in t.friend ==> Pending(t.log, a, b) == 0)
  }

  function Run(t: Tables, qs: seq<ProtoReq>): Tables
    decreases qs
  {
    if qs == [] then t else Run(Step(t, qs[0]), qs[1..])
  }

  function AcceptedRequests(t: Tables, qs: seq<ProtoReq>): nat
    decreases qs
  {
    if qs == [] then 0
    else (if IsReq(qs[0]) && Accepted(t, qs[0]) then 1 else 0) + AcceptedRequests(Step(t, qs[0]), qs[1..])
  }

  function AcceptedDeletes(t: Tables, qs: seq<ProtoReq>): nat
    decreases qs
  {
    if qs == [] then 0
    else (if IsDel(qs[0]) && Accepted(t, qs[0]) then 1 else 0) + AcceptedDeletes(Step(t, qs[0]), qs[1..])
  }

  lemma InvStep(t: Tables, q: ProtoReq)
    requires Inv(t)
    ensures Inv(Step(t, q))
  {
    hide Pending, Rewrite;
    forall a, b ensures Pending(Step(t, q).log, a, b) <= 1 {
      PendingStep(t, q, a, b);
    }
    forall a, b | (a, b) in Step(t, q).friend ensures Pending(Step(t, q).log, a, b) == 0 {
      PendingStep(t, q, a, b);
      assert (a, b) in t.friend;
    }
  }

  lemma {:induction false} InvRun(t: Tables, qs: seq<ProtoReq>)
    requires Inv(t)
    ensures Inv(Run(t, qs))
    decreases qs
  {
    if qs != [] {
      InvStep(t, qs[0]);
      InvRun(Step(t, qs[0]), qs[1..]);
    }
  }

  /** Conservation: friends are only ever lost to accepted deletions, and the log grows by exactly
      one entry per accepted request or deletion. No call ever adds a friend. */
  lemma {:induction false} Conservation(t: Tables, qs: seq<ProtoReq>)
    ensures |Run(t, qs).friend| + AcceptedDeletes(t, qs) == |t.friend|
    ensures |Run(t, qs).log| == |t.log| + AcceptedRequests(t, qs) + AcceptedDeletes(t, qs)
    ensures Run(t, qs).friend.Keys <= t.friend.Keys
    decreases qs
  {
    hide Pending, Rewrite;
    if qs != [] {
      var q, t' := qs[0], Step(t, qs[0]);
      Conservation(t', qs[1..]);
      assert |t'.friend.Keys| == |t'.friend| && |t.friend.Keys| == |t.friend|;
      if IsDel(q) && Accepted(t, q) {
        assert t'.friend.Keys == t.friend.Keys - {(q.fromUid, q.toId)};
      } else {
        assert t'.friend.Keys == t.friend.Keys;
      }
    }
  }

  // ---------------------------------------------------------------- what an answer does

  /** A pending request a -> b is resolved by exactly one kind of call: an answer from b about a,
      made while b itself has a pending request to a. */
  lemma ResolvedIff(t: Tables, q: ProtoReq, a: Uid, b: Uid)
    requires Pending(t.log, a, b) > 0
    ensures Pending(Step(t, q).log, a, b) == 0
       <==> IsAnswer(q) && q.fromUid == b && q.toId == a && Pending(t.log, b, a) > 0
  {
    hide Pending, Rewrite, SetNote;
    PendingStep(t, q, a, b);
  }

  /** So a one-sided request is never resolved: it stays pending through every run in which the other
      user does not ask as well. */
  lemma {:induction false} OneSidedRequestStays(t: Tables, qs: seq<ProtoReq>, a: Uid, b: Uid)
    requires a != b && Pending(t.log, a, b) > 0 && Pending(t.log, b, a) == 0
    requires forall q <- qs :: !(IsReq(q) && q.fromUid == b && q.toId == a)
    ensures Pending(Run(t, qs).log, a, b) > 0
    decreases qs
  {
    if qs != [] {
      hide Pending, Rewrite, SetNote;
      PendingStep(t, qs[0], a, b);
      PendingStep(t, qs[0], b, a);
      OneSidedRequestStays(Step(t, qs[0]), qs[1..], a, b);
    }
  }

  /** An accepted answer leaves the request it looked up pending (unless a user answers itself), so
      the very same call is accepted again; and it never makes the two users friends. */
  lemma AnswerRepeatsAndBefriendsNobody(t: Tables, q: ProtoReq)
    requires Inv(t) && IsAnswer(q) && Accepted(t, q)
    ensures q.fromUid != q.toId ==> Accepted(Step(t, q), q)
    ensures (q.fromUid, q.toId) !in Step(t, q).friend
  {
    hide Pending, Rewrite;
    PendingStep(t, q, q.fromUid, q.toId);
  }

  /** The documented flow fails for any two users: a asks b, b accepts, and the acceptance is refused. Only a
      request to oneself can be accepted this way. */
  lemma AcceptanceRefused(a: Uid, b: Uid, version: uint32, note: bytes)
    ensures var ask := ProtoReq(1, version, a, b, Fctrl(Body(FRIEND_REQ, note)));
            var t := Step(Tables(map[], []), ask);
            && Accepted(Tables(map[], []), ask) && Pending(t.log, a, b) == 1
            && (Accepted(t, ProtoReq(1, version, b, a, Fctrl(Body(FRIEND_AUTH_OK, note)))) <==> a == b)
  {
    var start := Tables(map[], []);
    var ask := ProtoReq(1, version, a, b, Fctrl(Body(FRIEND_REQ, note)));
    PendingStep(start, ask, a, b);
    PendingStep(start, ask, b, a);
  }
}
