/** What the events of a run of the delivery chain decide: who is registered at a gate, whether a push goes
    to a socket that is still registered, which requests the push server loses, and how many contexts
    it keeps. */
module Runs {
  import opened Options
  import opened Wire
  import opened Messages
  import opened Delivery
  import Rpc
  import Topic
  import Transfer
  import Push
  import Gate

  type Id = Rpc.Id

  lemma {:induction false} Extend(s: State, es: seq<Event>, e: Event)
    requires IsRun(s, es) && Possible(After(s, es), e) && Live(After(s, es), e)
    ensures IsRun(s, es + [e]) && After(s, es + [e]) == Apply(After(s, es), e)
    decreases |es|
  {
    hide Possible, Live, Apply;
    if es == [] {
      assert [e][1..] == [];
    } else {
      assert (es + [e])[1..] == es[1..] + [e];
      Extend(Apply(s, es[0]), es[1..], e);
    }
  }

  /** Control decides; that the memory is valid is known. */
  lemma Advance(s: State, es: seq<Event>, e: Event)
    requires Initial(s) && IsRun(s, es) && Possible(After(s, es), e)
    ensures Live(After(s, es), e) && IsRun(s, es + [e]) && After(s, es + [e]) == Apply(After(s, es), e)
  {
    hide Inv, Initial, Possible, Live, Apply, IsRun, After;
    Reached(s, es);
    AlwaysLive(After(s, es), e);
    Extend(s, es, e);
  }

  // ---------------------------------------------------------------- sockets

  predicate TouchesAt(s: State, e: Event, a: Push.Address, uid: Uid) {
    e.G? && e.a == a && a in s.gates && Gate.Touches(s.gates[a], e.ge, uid)
  }

  /** The last event of the run that opens or closes a socket of the user at this gate. */
  function LastTouch(s: State, es: seq<Event>, a: Push.Address, uid: Uid): Option<Gate.Event>
    requires IsRun(s, es)
    decreases |es|
  {
    if es == [] then None
    else
      var later := LastTouch(Apply(s, es[0]), es[1..], a, uid);
      if later.Some? then later else if TouchesAt(s, es[0], a, uid) then Some(es[0].ge) else None
  }

  lemma RegistrationStep(s: State, e: Event, a: Push.Address, uid: Uid, ws: Gate.Ws)
    requires Possible(s, e) && Live(s, e) && a in s.gates
    ensures var s' := Apply(s, e);
            && a in s'.gates
            && (Gate.IsRegistered(s'.gates[a], uid, ws)
                <==> if TouchesAt(s, e, a, uid) then e.ge == Gate.Open(ws, uid)
                     else Gate.IsRegistered(s.gates[a], uid, ws))
            && (uid in s'.gates[a].sockets
                <==> if TouchesAt(s, e, a, uid) then e.ge.Open? else uid in s.gates[a].sockets)
  {
    hide Transfer.Apply, Push.Apply, Gate.Apply, Transmitted, Gate.Touches;
    if e.G? && e.a == a { Gate.RegistrationMoves(s.gates[a], e.ge, uid, ws); }
  }

  lemma {:induction false} Registration(s: State, es: seq<Event>, a: Push.Address, uid: Uid, ws: Gate.Ws)
    requires IsRun(s, es) && a in s.gates
    ensures a in After(s, es).gates
    ensures Gate.IsRegistered(After(s, es).gates[a], uid, ws)
       <==> match LastTouch(s, es, a, uid)
            case Some(e) => e == Gate.Open(ws, uid)
            case None => Gate.IsRegistered(s.gates[a], uid, ws)
    ensures uid in After(s, es).gates[a].sockets
       <==> match LastTouch(s, es, a, uid) case Some(e) => e.Open? case None => uid in s.gates[a].sockets
    decreases |es|
  {
    hide Possible, Live, Apply, TouchesAt;
    if es != [] {
      RegistrationStep(s, es[0], a, uid, ws);
      Registration(Apply(s, es[0]), es[1..], a, uid, ws);
    }
  }

  /** Exactly who can be reached at a gate, in every run: the users for whom the last thing that happened
      to any of their sockets is that one was opened. */
  lemma OnlineIff(s: State, es: seq<Event>, a: Push.Address, uid: Uid)
    requires Initial(s) && IsRun(s, es) && a in s.gates
    ensures a in After(s, es).gates
    ensures var last := LastTouch(s, es, a, uid);
            uid in After(s, es).gates[a].sockets <==> last.Some? && last.value.Open?
  {
    Registration(s, es, a, uid, 0);
  }

  /** A socket is opened once. */
  lemma {:induction false} OpenedOnce(s: State, es: seq<Event>, a: Push.Address, uid: Uid, ws: Gate.Ws)
    requires IsRun(s, es) && a in s.gates && ws in s.gates[a].uidOf
    ensures LastTouch(s, es, a, uid) != Some(Gate.Open(ws, uid))
    decreases |es|
  {
    if es != [] {
      StillKnown(s, es[0], a, ws);
      OpenedOnce(Apply(s, es[0]), es[1..], a, uid, ws);
    }
  }

  lemma StillKnown(s: State, e: Event, a: Push.Address, ws: Gate.Ws)
    requires Possible(s, e) && Live(s, e) && a in s.gates && ws in s.gates[a].uidOf
    ensures a in Apply(s, e).gates && ws in Apply(s, e).gates[a].uidOf
  {
    hide Transfer.Apply, Push.Apply, Transmitted, SerPush;
  }

  predicate StepOf(e: Event, a: Push.Address, w: nat) {
    e == G(a, Gate.Step(w))
  }

  lemma {:induction false} WorkerWaits(s: State, es: seq<Event>, a: Push.Address, w: nat)
    requires IsRun(s, es) && a in s.gates && Rpc.At(s.gates[a].workers, w)
    requires forall e <- es :: !StepOf(e, a, w)
    ensures a in After(s, es).gates && Rpc.At(After(s, es).gates[a].workers, w)
    ensures After(s, es).gates[a].workers[w] == s.gates[a].workers[w]
    decreases |es|
  {
    if es != [] {
      assert es[0] in es;
      WorkerStays(s, es[0], a, w);
      WorkerWaits(Apply(s, es[0]), es[1..], a, w);
    }
  }

  lemma WorkerStays(s: State, e: Event, a: Push.Address, w: nat)
    requires Possible(s, e) && Live(s, e) && a in s.gates && Rpc.At(s.gates[a].workers, w) && !StepOf(e, a, w)
    ensures a in Apply(s, e).gates && Rpc.At(Apply(s, e).gates[a].workers, w)
    ensures Apply(s, e).gates[a].workers[w] == s.gates[a].workers[w]
  {
    hide Transfer.Apply, Push.Apply, Transmitted, SerPush;
  }

  /** A task has looked the receiver's socket up in state s and is about to send, after any run of other
      steps. The socket is then still the registered one, and so open, exactly if meanwhile no socket of the
      receiver was closed or opened at this gate, and this is what is recorded with what it sends. */
  lemma StillRegisteredIff(s: State, es: seq<Event>, a: Push.Address, w: nat)
    requires Inv(s) && IsRun(s, es) && a in s.gates && Rpc.At(s.gates[a].workers, w) && s.gates[a].workers[w].at.Send?
    requires Gate.Usable(s.gates[a], s.gates[a].workers[w].c)
    requires var g := s.gates[a];
             Gate.IsRegistered(g, Gate.ReqOf(g, g.workers[w].c).toUid, g.workers[w].at.ws)
    requires forall e <- es :: !StepOf(e, a, w)
    ensures var s' := After(s, es);
            && a in s'.gates && Rpc.At(s'.gates[a].workers, w)
            && var (g, c, ws) := (s'.gates[a], s.gates[a].workers[w].c, s.gates[a].workers[w].at.ws);
               && g.workers[w] == Rpc.Busy(c, Gate.Send(ws)) && Gate.Usable(g, c)
               && var req := Gate.ReqOf(g, c);
                  && req == Gate.ReqOf(s.gates[a], c)
                  && var untouched := LastTouch(s, es, a, req.toUid).None?;
                     && (Gate.IsRegistered(g, req.toUid, ws) <==> untouched)
                     && (untouched ==> Gate.IsOpen(g, ws))
                     && Gate.DoStep(g, w).sent == g.sent + {Gate.Sent(ws, req.toUid, SerPush(req), untouched)}
  {
    hide Gate.Inv, Push.Inv, Transfer.Inv, Linked, PushHonest, TransferHonest, SerPush, IsRun, After, LastTouch;
    var g, s' := s.gates[a], After(s, es);
    var c, ws := g.workers[w].c, g.workers[w].at.ws;
    var uid := Gate.ReqOf(g, c).toUid;
    WorkerWaits(s, es, a, w);
    InvRun(s, es);
    SendingFrame(s'.gates[a], w);
    RequestStays(s, es, a, c);
    SendingFrame(g, w);
    Registration(s, es, a, uid, ws);
    OpenedOnce(s, es, a, uid, ws);
  }

  lemma SendingFrame(g: Gate.State, w: nat)
    requires Gate.Inv(g) && Rpc.At(g.workers, w) && g.workers[w].at.Send?
    ensures Gate.Usable(g, g.workers[w].c) && g.workers[w].at.ws in g.uidOf
    ensures g.uidOf[g.workers[w].at.ws] == Gate.ReqOf(g, g.workers[w].c).toUid
    ensures forall u, ws :: Gate.IsRegistered(g, u, ws) ==> Gate.IsOpen(g, ws)
  {
    hide Rpc.Inv, Rpc.Held, Gate.SentFor, Gate.Honest;
  }

  lemma {:induction false} RequestStays(s: State, es: seq<Event>, a: Push.Address, c: Id)
    requires Inv(s) && IsRun(s, es) && a in s.gates && c in s.gates[a].server.ctxs
    requires s.gates[a].server.ctxs[c].req.Some?
    ensures a in After(s, es).gates && c in After(s, es).gates[a].server.ctxs
    ensures After(s, es).gates[a].server.ctxs[c].req == s.gates[a].server.ctxs[c].req
    decreases |es|
  {
    hide Inv, Possible, Live, Apply;
    if es != [] {
      RequestStep(s, es[0], a, c);
      InvStep(s, es[0]);
      RequestStays(Apply(s, es[0]), es[1..], a, c);
    }
  }

  lemma RequestStep(s: State, e: Event, a: Push.Address, c: Id)
    requires Inv(s) && Possible(s, e) && Live(s, e)
    requires a in s.gates && c in s.gates[a].server.ctxs && s.gates[a].server.ctxs[c].req.Some?
    ensures a in Apply(s, e).gates && c in Apply(s, e).gates[a].server.ctxs
    ensures Apply(s, e).gates[a].server.ctxs[c].req == s.gates[a].server.ctxs[c].req
  {
    hide Transfer.Inv, Push.Inv, Gate.Inv, Linked, PushHonest, TransferHonest, Transfer.Apply, Push.Apply, Gate.Apply,
         Transmitted;
    if e.G? && e.a == a {
      Gate.StepKeepsAnswers(s.gates[a], e.ge);
      AnsweredKept(s.gates[a], Gate.Apply(s.gates[a], e.ge), c);
    } else if e.CallGate? && e.a == a {
      ArmedAtGate(s.gates[a], e.g);
    }
  }

  // ---------------------------------------------------------------- requests that the push server loses

  /** The contexts whose lookup throws in this run. */
  function Thrown(s: State, es: seq<Event>): set<Id>
    requires IsRun(s, es)
    decreases |es|
  {
    if es == [] then {}
    else
      Thrown(Apply(s, es[0]), es[1..])
      + if es[0].P? && es[0].pe.LookupFails? then {s.p.workers[es[0].pe.w].c} else {}
  }

  lemma LostMoves(s: State, e: Event, c: Id)
    requires Possible(s, e) && Live(s, e)
    ensures c in Apply(s, e).p.lost
       <==> c in s.p.lost || (e.P? && e.pe.LookupFails? && s.p.workers[e.pe.w].c == c)
  {
    hide Transfer.Apply, Gate.Apply, Transmitted, Push.NewStub;
  }

  lemma {:induction false} LostAlong(s: State, es: seq<Event>, c: Id)
    requires IsRun(s, es)
    ensures c in After(s, es).p.lost <==> c in s.p.lost || c in Thrown(s, es)
    decreases |es|
  {
    hide Apply, Live;
    if es != [] {
      LostMoves(s, es[0], c);
      LostAlong(Apply(s, es[0]), es[1..], c);
    }
  }

  /** Exactly the requests whose lookup throws are lost, and they are lost for good: whatever happens
      next, they are not finished and nothing points to them. */
  lemma LostForGood(s: State, es: seq<Event>, more: seq<Event>, c: Id)
    requires Initial(s) && IsRun(s, es) && IsRun(After(s, es), more)
    ensures c in After(s, es).p.lost <==> c in Thrown(s, es)
    ensures c in Thrown(s, es) ==>
              && var p := After(After(s, es), more).p;
                 c in p.server.ctxs && p.server.ctxs[c].finished == [] && Push.Pointers(p, c) == 0
  {
    hide Inv, IsRun, After, Thrown;
    LostAlong(s, es, c);
    LostAlong(After(s, es), more, c);
    Reached(s, es);
    InvRun(After(s, es), more);
    if c in Thrown(s, es) { LostIsUnfinished(After(After(s, es), more), c); }
  }

  lemma LostIsUnfinished(s: State, c: Id)
    requires Inv(s) && c in s.p.lost
    ensures c in s.p.server.ctxs && s.p.server.ctxs[c].finished == [] && Push.Pointers(s.p, c) == 0
  {
    hide Transfer.Inv, Gate.Inv, Linked, PushHonest, TransferHonest, Push.FramesOk, Rpc.Held;
    Push.OnlyHere(s.p, c);
    assert s.p.server.out[c] == Rpc.Held(s.p.workers, c) + s.p.calls[c] + s.p.ready[c] + s.p.lost[c];
  }

  lemma ThenT(s: State, es: seq<Event>, e: Transfer.Event)
    requires IsRun(s, es) && Transfer.Possible(After(s, es).t, e)
    ensures IsRun(s, es + [T(e)])
    ensures After(s, es + [T(e)]) == After(s, es).(t := Transfer.Apply(After(s, es).t, e))
  {
    hide Transfer.Possible, Transfer.Apply, IsRun, After;
    Extend(s, es, T(e));
  }

  lemma ThenP(s: State, es: seq<Event>, e: Push.Event)
    requires IsRun(s, es) && Push.Possible(After(s, es).p, e) && Push.Live(After(s, es).p, e)
    ensures IsRun(s, es + [P(e)])
    ensures After(s, es + [P(e)]) == After(s, es).(p := Push.Apply(After(s, es).p, e))
  {
    hide Push.Possible, Push.Live, Push.Apply, IsRun, After;
    Extend(s, es, P(e));
  }

  /** A direct message is handled, numbered, written and pushed, as call i. */
  lemma NextPush(s: State, es: seq<Event>, r: Topic.Record, i: Id) returns (es': seq<Event>, x: Transfer.Ticket)
    requires IsRun(s, es) && Topic.Accepts(r).Some? && !Topic.ToGroup(Topic.Accepts(r).value)
    requires var t := After(s, es).t;
             i !in t.calls && Transfer.CounterOf(t, OriginReq(Topic.Accepts(r).value).toId) != Transfer.MAX_SEQ
    ensures IsRun(s, es') && After(s, es') == After(s, es).(t := After(s, es').t)
    ensures After(s, es').t.calls == After(s, es).t.calls[i := Transfer.Flying(x)]
    ensures x.mq == Topic.Accepts(r).value && x.uid == OriginReq(x.mq).toId
    ensures x.no == Transfer.CounterOf(After(s, es).t, x.uid) + 1
    ensures var (t, t') := (After(s, es).t, After(s, es').t);
            && t'.counters == t.counters[x.uid := x.no] && t'.handed == t.handed + [x]
            && Transfer.InsertOf(x) in t'.ops && t'.lost == t.lost && t'.inbox == t.inbox
  {
    hide Topic.Accepts, Topic.ToGroup, OriginReq, Transfer.InsertOf, IsRun, After, ParseMq;
    Parses(r);
    var mq := Topic.Accepts(r).value;
    var uid := OriginReq(mq).toId;
    x := Transfer.Ticket(uid, Transfer.CounterOf(After(s, es).t, uid) + 1, mq);
    Consumed(s, es, r);
    es' := es + [T(Transfer.Fetch(r))] + [T(Transfer.Handle(r, None))];
    ThenT(s, es', Transfer.Increment(mq, uid, true));
    es' := es' + [T(Transfer.Increment(mq, uid, true))];
    WriteAndPush(s, es', x, i);
    es' := es' + [T(Transfer.WriteInbox(x))] + [T(Transfer.AsyncPush(x, i))];
  }

  lemma Consumed(s: State, es: seq<Event>, r: Topic.Record)
    requires IsRun(s, es) && Topic.Accepts(r).Some? && !Topic.ToGroup(Topic.Accepts(r).value)
    ensures var es' := es + [T(Transfer.Fetch(r))] + [T(Transfer.Handle(r, None))];
            && IsRun(s, es') && After(s, es') == After(s, es).(t := After(s, es').t)
            && var (t, t', mq) := (After(s, es).t, After(s, es').t, Topic.Accepts(r).value);
               && t'.calls == t.calls && t'.counters == t.counters && t'.handed == t.handed
               && t'.lost == t.lost && t'.inbox == t.inbox
               && Transfer.Count(mq, OriginReq(mq).toId) in t'.running
  {
    hide Topic.Accepts, Topic.ToGroup, OriginReq, IsRun, After, ParseMq;
    Parses(r);
    ThenT(s, es, Transfer.Fetch(r));
    ThenT(s, es + [T(Transfer.Fetch(r))], Transfer.Handle(r, None));
  }

  lemma WriteAndPush(s: State, es: seq<Event>, x: Transfer.Ticket, i: Id)
    requires IsRun(s, es) && Transfer.Write(x) in After(s, es).t.running && i !in After(s, es).t.calls
    ensures var es' := es + [T(Transfer.WriteInbox(x))] + [T(Transfer.AsyncPush(x, i))];
            && IsRun(s, es') && After(s, es') == After(s, es).(t := After(s, es').t)
            && After(s, es').t.calls == After(s, es).t.calls[i := Transfer.Flying(x)]
            && var (t, t') := (After(s, es).t, After(s, es').t);
               && t'.counters == t.counters && t'.handed == t.handed && Transfer.InsertOf(x) in t'.ops
               && t'.lost == t.lost && t'.inbox == t.inbox
  {
    hide IsRun, After, Transfer.InsertOf;
    ThenT(s, es, Transfer.WriteInbox(x));
    var es1 := es + [T(Transfer.WriteInbox(x))];
    assert Transfer.Emit(x) in After(s, es1).t.running;
    ThenT(s, es1, Transfer.AsyncPush(x, i));
  }

  lemma Nothing(s: State)
    ensures IsRun(s, []) && After(s, []) == s
  {
  }

  lemma Parses(r: Topic.Record)
    requires Topic.Accepts(r).Some?
    ensures ParseMq(r.payload).Ok? && ParseMq(r.payload).value == Topic.Accepts(r).value
  {
  }

  lemma FirstCall(s: State, es: seq<Event>, x: Transfer.Ticket)
    requires IsRun(s, es) && Inv(After(s, es)) && After(s, es).t.calls == map[0 := Transfer.Flying(x)]
    requires After(s, es).p == Push.Boot(0, 1) && |SerPush(Transfer.ReqOf(x))| < TWO_31
    ensures IsRun(s, es + [CallPush(0, 0)])
    ensures After(s, es + [CallPush(0, 0)])
         == After(s, es).(p := Arrived(Push.NewJob(Rpc.Inbound(0, Transfer.ReqOf(x)))))
  {
    hide Inv, SerPush, Transmitted, IsRun, After, Transfer.ReqOf;
    TransmissionIsExact(After(s, es), 0);
    Extend(s, es, CallPush(0, 0));
  }

  /** A fresh push server with one thread, to which a first request has come. */
  function Arrived(job: Push.Job): Push.State {
    Push.Boot(0, 1).(server := Rpc.Arrive(Rpc.Start(0), 0, job))
  }

  function Dead(job: Push.Job): Push.State {
    var s := Rpc.Next(Rpc.Arrive(Rpc.Start(0), 0, job), 0, 1);
    Push.Boot(0, 1).(server := Rpc.Take(s, 0), lost := multiset{0})
  }

  lemma FailedTask(s: State, es: seq<Event>, job: Push.Job) returns (rest: seq<Event>)
    requires IsRun(s, es) && After(s, es).p == Arrived(job)
    ensures IsRun(s, es + rest) && After(s, es + rest).p == Dead(job)
  {
    hide IsRun, After;
    ThenP(s, es, Push.Turn(0, 1));
    var es1 := es + [P(Push.Turn(0, 1))];
    ThenP(s, es1, Push.Begin(0, 0));
    var es2 := es1 + [P(Push.Begin(0, 0))];
    ThenP(s, es2, Push.LookupFails(0));
    rest := [P(Push.Turn(0, 1)), P(Push.Begin(0, 0)), P(Push.LookupFails(0))];
    assert es + rest == es2 + [P(Push.LookupFails(0))];
    assert After(s, es + rest).p.workers == Dead(job).workers;
  }

  /** The input: any direct message, and Redis fails when the push server asks it for the receiver's gate.
      The run ends with an idle push server, and the request is unfinished. */
  lemma FailedLookupRun(r: Topic.Record) returns (s: State, es: seq<Event>)
    requires Topic.Accepts(r).Some? && !Topic.ToGroup(Topic.Accepts(r).value)
    requires var mq := Topic.Accepts(r).value; |SerPush(PushReq(Some(mq), 1, OriginReq(mq).toId))| < TWO_31
    ensures Initial(s) && IsRun(s, es) && 0 in Thrown(s, es)
    ensures var p := After(s, es).p;
            && p.server.pool == multiset{} && p.calls == multiset{} && p.ready == multiset{}
            && (forall w <- p.workers :: w.Idle?)
            && 0 in p.server.ctxs && !Rpc.Incoming(p.server, 0) && p.server.ctxs[0].finished == []
  {
    hide Topic.Accepts, Topic.ToGroup, SerPush, OriginReq, Transmitted, IsRun, After, Thrown, Dead, Arrived;
    var mq := Topic.Accepts(r).value;
    var x := Transfer.Ticket(OriginReq(mq).toId, 1, mq);
    s := State(Transfer.Boot(map[]), Push.Boot(0, 1), map[]);
    Nothing(s);
    es, x := NextPush(s, [], r, 0);
    Reached(s, es);
    FirstCall(s, es, x);
    es := es + [CallPush(0, 0)];
    var rest := FailedTask(s, es, Push.NewJob(Rpc.Inbound(0, Transfer.ReqOf(x))));
    es := es + rest;
    LostAlong(s, es, 0);
    DeadIsQuiet(Push.NewJob(Rpc.Inbound(0, Transfer.ReqOf(x))));
  }

  lemma DeadIsQuiet(job: Push.Job)
    ensures var p := Dead(job);
            && p.server.pool == multiset{} && p.calls == multiset{} && p.ready == multiset{} && 0 in p.lost
            && (forall w <- p.workers :: w.Idle?)
            && 0 in p.server.ctxs && !Rpc.Incoming(p.server, 0) && p.server.ctxs[0].finished == []
  {
  }

  // ---------------------------------------------------------------- contexts that the push server keeps

  function Forgotten(p: Push.State): set<Id> {
    set c <- p.server.ctxs | p.server.ctxs[c].retired
  }

  predicate Forgets(s: State, e: Event) {
    e.P? && e.pe.Turn? && e.pe.c in s.p.server.ctxs && s.p.server.ctxs[e.pe.c].done
  }

  /** How often the loop of the push server takes a done tag from its queue. */
  function DoneTurns(s: State, es: seq<Event>): nat
    requires IsRun(s, es)
    decreases |es|
  {
    if es == [] then 0 else (if Forgets(s, es[0]) then 1 else 0) + DoneTurns(Apply(s, es[0]), es[1..])
  }

  lemma ForgottenMoves(s: State, e: Event)
    requires Possible(s, e) && Live(s, e)
    ensures Forgotten(Apply(s, e).p) == Forgotten(s.p) + if Forgets(s, e) then {e.pe.c} else {}
    ensures Forgets(s, e) ==> e.pe.c !in Forgotten(s.p)
  {
    hide Transfer.Apply, Gate.Apply, Transmitted, Push.Apply, Transfer.Possible, Gate.Possible, Gate.Live, Forgotten;
    assert Forgets(s, e) ==> e.pe.c !in Forgotten(s.p) by { LiveIsKnown(s, e); }
    match e
    case P(pe) => ForgottenByPush(s.p, pe);
    case CallPush(i, c) => OneChange(s.p, Apply(s, e).p, c);
    case GateReplies(c, _, _) => OneChange(s.p, Apply(s, e).p, c);
    case GateBreaks(c, _) => OneChange(s.p, Apply(s, e).p, c);
    case _ =>
  }

  lemma LiveIsKnown(s: State, e: Event)
    requires Possible(s, e) && Live(s, e)
    ensures Forgets(s, e) ==> e.pe.c !in Forgotten(s.p)
  {
  }

  lemma OneChange(p: Push.State, p': Push.State, c: Id)
    requires c in p.server.ctxs && c in p'.server.ctxs && p'.server.ctxs == p.server.ctxs[c := p'.server.ctxs[c]]
    requires p'.server.ctxs[c].retired == p.server.ctxs[c].retired
    ensures Forgotten(p') == Forgotten(p)
  {
  }

  lemma ForgottenByPush(p: Push.State, e: Push.Event)
    requires Push.Possible(p, e) && Push.Live(p, e)
    ensures Forgotten(Push.Apply(p, e)) == Forgotten(p) + if e.Turn? && p.server.ctxs[e.c].done then {e.c} else {}
  {
    hide Push.StatusOf, Push.Known, Push.DoStep;
    if e.Step? { StepForgetsNothing(p, e.w); }
  }

  lemma StepForgetsNothing(p: Push.State, w: nat)
    requires Push.Possible(p, Push.Step(w)) && Push.Live(p, Push.Step(w))
    ensures Forgotten(Push.DoStep(p, w)) == Forgotten(p)
  {
    hide Push.StatusOf, Push.DoStep;
    if Push.Quiet(p.workers[w].at) {
      Push.QuietServer(p, w);
    } else {
      OneContext(p, w);
    }
  }

  lemma OneContext(p: Push.State, w: nat)
    requires Push.Possible(p, Push.Step(w)) && Push.Live(p, Push.Step(w)) && !Push.Quiet(p.workers[w].at)
    ensures var p', c := Push.DoStep(p, w), p.workers[w].c;
            && c in p'.server.ctxs && p'.server.ctxs == p.server.ctxs[c := p'.server.ctxs[c]]
            && p'.server.ctxs[c].retired == p.server.ctxs[c].retired
  {
    hide Push.StatusOf, Push.DoStep;
    Push.ServerMoves(p, w);
  }

  /** The push server never frees a context: after every run there are exactly as many finished contexts
      that nothing will ever use as done tags were taken from its queue. */
  lemma {:induction false} ContextsPileUp(s: State, es: seq<Event>)
    requires IsRun(s, es)
    ensures |Forgotten(After(s, es).p)| == |Forgotten(s.p)| + DoneTurns(s, es)
    ensures Forgotten(s.p) <= Forgotten(After(s, es).p)
    decreases |es|
  {
    hide Apply, Possible, Live, Forgotten;
    if es != [] {
      ForgottenMoves(s, es[0]);
      ContextsPileUp(Apply(s, es[0]), es[1..]);
    }
  }
}
