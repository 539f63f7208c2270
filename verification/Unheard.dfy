/** The input at which a push is sent on a socket that was closed after it was looked up: the gate answers OK,
    the row is deleted from the inbox, and nobody has received the message. */
module Unheard {
  import opened Options
  import opened Wire
  import opened Messages
  import opened Delivery
  import opened Runs
  import Rpc
  import Topic
  import Transfer
  import Push
  import Gate

  // ---------------------------------------------------------------- the push server

  /** What the one thread and the one request are at. */
  predicate Serves(p: Push.State, f: Rpc.Worker<Push.Point>, job: Push.Job, done: bool, finished: seq<Rpc.Status>) {
    p.workers == [f] && 0 in p.server.ctxs && p.server.ctxs[0] == Rpc.Ctx(Some(job), done, finished, false)
  }

  function Looked(job: Push.Job, to: Push.Address): Push.Job {
    job.(looked := Some(Some(to)))
  }

  lemma Dequeued(s: State, es: seq<Event>, job: Push.Job, to: Push.Address) returns (es': seq<Event>)
    requires Initial(s) && IsRun(s, es) && After(s, es).p == Arrived(job) && to != []
    ensures IsRun(s, es') && After(s, es') == After(s, es).(p := After(s, es').p)
    ensures Serves(After(s, es').p, Rpc.Busy(0, Push.Find(to)), Looked(job, to), false, [])
    ensures After(s, es').p.stubs == map[]
  {
    hide IsRun, After, Initial;
    Advance(s, es, P(Push.Turn(0, 1)));
    es' := es + [P(Push.Turn(0, 1))];
    Advance(s, es', P(Push.Begin(0, 0)));
    es' := es' + [P(Push.Begin(0, 0))];
    Advance(s, es', P(Push.Lookup(0, Some(to))));
    es' := es' + [P(Push.Lookup(0, Some(to)))];
  }

  lemma Steps(s: State, es: seq<Event>, job: Push.Job, to: Push.Address) returns (es': seq<Event>)
    requires Initial(s) && IsRun(s, es) && After(s, es).p.stubs == map[]
    requires Serves(After(s, es).p, Rpc.Busy(0, Push.Find(to)), job, false, [])
    ensures IsRun(s, es') && After(s, es') == After(s, es).(p := After(s, es').p)
    ensures Serves(After(s, es').p, Rpc.Busy(0, Push.Call(to)), job, false, [])
  {
    hide IsRun, After, Initial;
    Advance(s, es, P(Push.Step(0)));
    es' := es + [P(Push.Step(0))];
    Advance(s, es', P(Push.Step(0)));
    es' := es' + [P(Push.Step(0))];
    Advance(s, es', P(Push.Step(0)));
    es' := es' + [P(Push.Step(0))];
  }

  /** The call goes out to the gate. */
  lemma CallsOut(s: State, es: seq<Event>, job: Push.Job, to: Push.Address) returns (es': seq<Event>)
    requires Initial(s) && IsRun(s, es) && After(s, es).p == Arrived(job) && to != []
    ensures IsRun(s, es') && After(s, es') == After(s, es).(p := After(s, es').p)
    ensures Serves(After(s, es').p, Rpc.Idle, Looked(job, to).(target := Some(to)), false, [])
    ensures 0 in After(s, es').p.calls
  {
    hide IsRun, After, Initial;
    es' := Dequeued(s, es, job, to);
    es' := Steps(s, es', Looked(job, to), to);
    Advance(s, es', P(Push.Step(0)));
    es' := es' + [P(Push.Step(0))];
  }

  lemma Completed(s: State, es: seq<Event>, job: Push.Job)
    requires Initial(s) && IsRun(s, es) && Serves(After(s, es).p, Rpc.Idle, job, false, []) && 0 in After(s, es).p.ready
    ensures var es' := es + [P(Push.Complete(0, 0))];
            && IsRun(s, es') && After(s, es') == After(s, es).(p := After(s, es').p)
            && Serves(After(s, es').p, Rpc.Busy(0, Push.Relay), job, false, [])
  {
    hide IsRun, After, Initial;
    Advance(s, es, P(Push.Complete(0, 0)));
  }

  /** An answer that came back is relayed. */
  lemma Relayed(s: State, es: seq<Event>, job: Push.Job) returns (es': seq<Event>)
    requires Initial(s) && IsRun(s, es) && Serves(After(s, es).p, Rpc.Idle, job, false, []) && 0 in After(s, es).p.ready
    requires job.back.Some?
    ensures IsRun(s, es') && After(s, es') == After(s, es).(p := After(s, es').p)
    ensures Serves(After(s, es').p, Rpc.Idle, job, true, [job.back.value.status])
  {
    hide IsRun, After, Initial;
    Completed(s, es, job);
    es' := es + [P(Push.Complete(0, 0))];
    Advance(s, es', P(Push.Step(0)));
    es' := es' + [P(Push.Step(0))];
    Advance(s, es', P(Push.Step(0)));
    es' := es' + [P(Push.Step(0))];
  }

  // ---------------------------------------------------------------- the gate

  predicate Holds(g: Gate.State, f: Rpc.Worker<Gate.Point>, r: Rpc.Inbound, done: bool, finished: seq<Rpc.Status>) {
    g.workers == [f] && 0 in g.server.ctxs && g.server.ctxs[0] == Rpc.Ctx(Some(r), done, finished, false)
  }

  /** The user's one socket is open. */
  function Online(uid: Uid): Gate.State {
    Gate.Boot(0, 1).(sockets := map[uid := 0], uidOf := map[0 := uid])
  }

  /** The gate has that request, and the socket was looked up and then closed. */
  lemma LookedUp(s: State, es: seq<Event>, to: Push.Address, r: Rpc.Inbound) returns (es': seq<Event>)
    requires Initial(s) && IsRun(s, es) && to in After(s, es).gates
    requires After(s, es).gates[to] == Online(r.req.toUid).(server := Rpc.Arrive(Rpc.Start(0), 0, r))
    ensures IsRun(s, es') && After(s, es') == After(s, es).(gates := After(s, es').gates) && to in After(s, es').gates
    ensures After(s, es').gates.Keys == After(s, es).gates.Keys
    ensures var g := After(s, es').gates[to];
            && Holds(g, Rpc.Busy(0, Gate.Send(0)), r, false, []) && g.sockets == map[]
            && g.uidOf == map[0 := r.req.toUid] && g.closed == {0} && g.sent == {}
  {
    hide IsRun, After, Initial, SerPush;
    Advance(s, es, G(to, Gate.Turn(0, 1)));
    es' := es + [G(to, Gate.Turn(0, 1))];
    Advance(s, es', G(to, Gate.Begin(0, 0)));
    es' := es' + [G(to, Gate.Begin(0, 0))];
    Advance(s, es', G(to, Gate.Step(0)));
    es' := es' + [G(to, Gate.Step(0))];
    Advance(s, es', G(to, Gate.Close(0)));
    es' := es' + [G(to, Gate.Close(0))];
  }

  /** It is sent all the same, and answered with OK. */
  lemma SentAnyway(s: State, es: seq<Event>, to: Push.Address, r: Rpc.Inbound) returns (es': seq<Event>)
    requires Initial(s) && IsRun(s, es) && to in After(s, es).gates
    requires var g := After(s, es).gates[to];
             && Holds(g, Rpc.Busy(0, Gate.Send(0)), r, false, []) && g.sockets == map[]
             && g.uidOf == map[0 := r.req.toUid] && g.closed == {0} && g.sent == {}
    ensures IsRun(s, es') && After(s, es') == After(s, es).(gates := After(s, es').gates) && to in After(s, es').gates
    ensures After(s, es').gates.Keys == After(s, es).gates.Keys
    ensures var g := After(s, es').gates[to];
            && Holds(g, Rpc.Idle, r, true, [Rpc.OK]) && g.closed == {0}
            && g.sent == {Gate.Sent(0, r.req.toUid, SerPush(r.req), false)}
  {
    hide IsRun, After, Initial, SerPush;
    Advance(s, es, G(to, Gate.Step(0)));
    es' := es + [G(to, Gate.Step(0))];
    Advance(s, es', G(to, Gate.Step(0)));
    es' := es' + [G(to, Gate.Step(0))];
    Advance(s, es', G(to, Gate.Step(0)));
    es' := es' + [G(to, Gate.Step(0))];
  }

  /** From the arrival at the gate to its answer. */
  lemma AtTheGate(s: State, es: seq<Event>, job: Push.Job, to: Push.Address) returns (es': seq<Event>)
    requires Initial(s) && IsRun(s, es) && After(s, es).gates == map[to := Online(job.inbound.req.toUid)]
    requires Serves(After(s, es).p, Rpc.Idle, job, false, []) && job.target == Some(to) && 0 in After(s, es).p.calls
    requires |SerPush(job.inbound.req)| < TWO_31
    ensures IsRun(s, es') && After(s, es') == After(s, es).(gates := After(s, es').gates)
    ensures After(s, es').gates.Keys == {to}
    ensures var g, req := After(s, es').gates[to], job.inbound.req;
            && Holds(g, Rpc.Idle, Rpc.Inbound(0, req), true, [Rpc.OK]) && g.closed == {0}
            && g.sent == {Gate.Sent(0, req.toUid, SerPush(req), false)}
  {
    hide IsRun, After, Initial, SerPush, Transmitted, Inv;
    Reached(s, es);
    RequestOfCall(After(s, es), 0);
    Advance(s, es, CallGate(0, to, 0));
    es' := es + [CallGate(0, to, 0)];
    es' := LookedUp(s, es', to, Rpc.Inbound(0, job.inbound.req));
    es' := SentAnyway(s, es', to, Rpc.Inbound(0, job.inbound.req));
  }

  /** From the gate's answer to the consumer's. */
  lemma Replied(s: State, es: seq<Event>, job: Push.Job, to: Push.Address, r: Rpc.Inbound, x: Transfer.Ticket)
    returns (es': seq<Event>)
    requires Initial(s) && IsRun(s, es) && to in After(s, es).gates && r.origin == 0
    requires Holds(After(s, es).gates[to], Rpc.Idle, r, true, [Rpc.OK])
    requires Serves(After(s, es).p, Rpc.Idle, job, false, []) && 0 in After(s, es).p.calls && job.inbound.origin == 0
    requires 0 in After(s, es).t.calls && After(s, es).t.calls[0] == Transfer.Flying(x)
    ensures IsRun(s, es') && After(s, es').gates == After(s, es).gates
    ensures After(s, es').t == After(s, es).t.(calls := After(s, es).t.calls[0 := Transfer.Back(x, Rpc.OK)])
  {
    hide IsRun, After, Initial;
    Advance(s, es, GateReplies(0, to, 0));
    es' := es + [GateReplies(0, to, 0)];
    es' := Relayed(s, es', job.(back := Some(Push.Back(Rpc.OK, Some((to, 0))))));
    Advance(s, es', PushReplies(0, 0));
    es' := es' + [PushReplies(0, 0)];
  }

  // ---------------------------------------------------------------- the consumer

  /** The insert is applied, and then the delete. */
  lemma Removed(s: State, es: seq<Event>, x: Transfer.Ticket) returns (es': seq<Event>)
    requires Initial(s) && IsRun(s, es) && Transfer.InsertOf(x) in After(s, es).t.ops
    requires 0 in After(s, es).t.calls && After(s, es).t.calls[0] == Transfer.Back(x, Rpc.OK)
    ensures IsRun(s, es') && After(s, es').gates == After(s, es).gates
    ensures var (t, t') := (After(s, es).t, After(s, es').t);
            t'.handed == t.handed && t'.lost == t.lost && Transfer.RowOf(x) !in t'.inbox
  {
    hide IsRun, After, Initial;
    es' := Acknowledged(s, es, x);
    Advance(s, es', T(Transfer.Applied(Transfer.InsertOf(x))));
    es' := es' + [T(Transfer.Applied(Transfer.InsertOf(x)))];
    Advance(s, es', T(Transfer.Applied(Transfer.Delete(Transfer.RowOf(x)))));
    es' := es' + [T(Transfer.Applied(Transfer.Delete(Transfer.RowOf(x))))];
  }

  lemma Acknowledged(s: State, es: seq<Event>, x: Transfer.Ticket) returns (es': seq<Event>)
    requires Initial(s) && IsRun(s, es) && 0 in After(s, es).t.calls
    requires After(s, es).t.calls[0] == Transfer.Back(x, Rpc.OK) && Transfer.InsertOf(x) in After(s, es).t.ops
    ensures IsRun(s, es') && After(s, es').gates == After(s, es).gates
    ensures var (t, t') := (After(s, es).t, After(s, es').t);
            && t'.handed == t.handed && t'.lost == t.lost
            && Transfer.InsertOf(x) in t'.ops && Transfer.Delete(Transfer.RowOf(x)) in t'.ops
  {
    hide IsRun, After, Initial;
    Advance(s, es, T(Transfer.Complete(0)));
    es' := es + [T(Transfer.Complete(0))];
    Advance(s, es', T(Transfer.OnPushSuccess(x.uid, x.no)));
    es' := es' + [T(Transfer.OnPushSuccess(x.uid, x.no))];
  }

  // ---------------------------------------------------------------- the run

  lemma Opened(s: State, to: Push.Address, uid: Uid)
    requires s == State(Transfer.Boot(map[]), Push.Boot(0, 1), map[to := Gate.Boot(0, 1)])
    ensures Initial(s) && IsRun(s, [G(to, Gate.Open(0, uid))])
    ensures After(s, [G(to, Gate.Open(0, uid))]) == s.(gates := map[to := Online(uid)])
  {
    hide IsRun, After;
    Nothing(s);
    Advance(s, [], G(to, Gate.Open(0, uid)));
    assert [] + [G(to, Gate.Open(0, uid))] == [G(to, Gate.Open(0, uid))];
  }

  /** The first direct message is pushed, for a user with one open socket, and its call goes out to the gate. */
  lemma CalledGate(s: State, r: Topic.Record, to: Push.Address) returns (es: seq<Event>, x: Transfer.Ticket)
    requires s == State(Transfer.Boot(map[]), Push.Boot(0, 1), map[to := Gate.Boot(0, 1)]) && Initial(s)
    requires Topic.Accepts(r).Some? && !Topic.ToGroup(Topic.Accepts(r).value) && to != []
    requires var mq := Topic.Accepts(r).value; |SerPush(PushReq(Some(mq), 1, OriginReq(mq).toId))| < TWO_31
    ensures IsRun(s, es) && x.mq == Topic.Accepts(r).value && x.uid == OriginReq(x.mq).toId && x.no == 1
    ensures var t := After(s, es).t;
            && x in t.handed && t.lost == {} && Transfer.InsertOf(x) in t.ops && t.calls == map[0 := Transfer.Flying(x)]
    ensures After(s, es).gates == map[to := Online(x.uid)] && 0 in After(s, es).p.calls
    ensures var job := Looked(Push.NewJob(Rpc.Inbound(0, Transfer.ReqOf(x))), to);
            Serves(After(s, es).p, Rpc.Idle, job.(target := Some(to)), false, [])
  {
    hide IsRun, After, Initial, Topic.Accepts, Topic.ToGroup, OriginReq, SerPush, Transfer.InsertOf, Inv, Arrived;
    var uid := OriginReq(Topic.Accepts(r).value).toId;
    Opened(s, to, uid);
    es, x := NextPush(s, [G(to, Gate.Open(0, uid))], r, 0);
    Reached(s, es);
    FirstCall(s, es, x);
    es := es + [CallPush(0, 0)];
    es := CallsOut(s, es, Push.NewJob(Rpc.Inbound(0, Transfer.ReqOf(x))), to);
  }

  /** The input: any direct message whose receiver closes the socket while the gate is about to use it. The
      message's row is gone from the inbox, no insert has failed, and all that was ever sent at any gate
      was sent on a socket that was not registered, and not open, any more. */
  lemma SentToNobody(r: Topic.Record, to: Push.Address) returns (s: State, es: seq<Event>, x: Transfer.Ticket)
    requires Topic.Accepts(r).Some? && !Topic.ToGroup(Topic.Accepts(r).value) && to != []
    requires var mq := Topic.Accepts(r).value; |SerPush(PushReq(Some(mq), 1, OriginReq(mq).toId))| < TWO_31
    ensures Initial(s) && IsRun(s, es) && x.mq == Topic.Accepts(r).value && x.uid == OriginReq(x.mq).toId
    ensures var t := After(s, es).t; x in t.handed && t.lost == {} && Transfer.RowOf(x) !in t.inbox
    ensures var gates := After(s, es).gates;
            forall a <- gates, sent <- gates[a].sent :: !sent.registered && !Gate.IsOpen(gates[a], sent.ws)
  {
    hide IsRun, After, Topic.Accepts, Topic.ToGroup, OriginReq, SerPush, Transfer.InsertOf, Transfer.RowOf, Online;
    s := State(Transfer.Boot(map[]), Push.Boot(0, 1), map[to := Gate.Boot(0, 1)]);
    es, x := CalledGate(s, r, to);
    var job := Looked(Push.NewJob(Rpc.Inbound(0, Transfer.ReqOf(x))), to).(target := Some(to));
    es := AtTheGate(s, es, job, to);
    es := Replied(s, es, job, to, Rpc.Inbound(0, Transfer.ReqOf(x)), x);
    es := Removed(s, es, x);
  }
}
