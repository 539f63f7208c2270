/** The whole delivery chain as one state machine: the Cassandra consumer, the push server and any
    number of gates, connected by RPCs that may break at any moment. */
module Delivery {
  import opened Options
  import opened Wire
  import opened Messages
  import opened Rpc
  import Transfer
  import Push
  import Gate

  datatype State = State(t: Transfer.State, p: Push.State, gates: map<Push.Address, Gate.State>)

  datatype Event =
    | T(te: Transfer.Event)
    | P(pe: Push.Event)
    | G(a: Push.Address, ge: Gate.Event)
    | CallPush(i: Id, c: Id)                   // call i of the consumer reaches context c of the push server
    | PushReplies(i: Id, c: Id)
    | PushBreaks(i: Id, code: nat)
    | CallGate(c: Id, a: Push.Address, g: Id)       // call c of the push server reaches context g of gate a
    | GateReplies(c: Id, a: Push.Address, g: Id)
    | GateBreaks(c: Id, code: nat)

  /** What the other side of a connection makes of a request. */
  function Transmitted(req: PushReq): Result<PushReq> {
    ParsePush(SerPush(req))
  }

  predicate Sendable(req: PushReq) {
    |SerPush(req)| < TWO_31 && Transmitted(req).Ok?
  }

  /** Context g of gate a has been finished on behalf of call c. */
  predicate GateAnswered(s: State, c: Id, a: Push.Address, g: Id) {
    && a in s.gates && g in s.gates[a].server.ctxs
    && var x := s.gates[a].server.ctxs[g]; x.req.Some? && x.req.value.origin == c && x.finished != []
  }

  predicate PushAnswered(s: State, i: Id, c: Id) {
    && c in s.p.server.ctxs
    && var x := s.p.server.ctxs[c]; x.req.Some? && x.req.value.inbound.origin == i && x.finished != []
  }

  predicate Flying(s: State, i: Id) {
    i in s.t.calls && s.t.calls[i].Flying?
  }

  predicate Possible(s: State, e: Event) {
    match e
    case T(te) => Transfer.Possible(s.t, te)
    case P(pe) => Push.Possible(s.p, pe)
    case G(a, ge) => a in s.gates && Gate.Possible(s.gates[a], ge)
    case CallPush(i, c) => Flying(s, i) && c in s.p.server.armed && Sendable(Transfer.ReqOf(s.t.calls[i].x))
    case PushReplies(i, c) => Flying(s, i) && PushAnswered(s, i, c)
    case PushBreaks(i, _) => Flying(s, i)
    case CallGate(c, a, g) =>
      && c in s.p.calls && Push.Usable(s.p, c) && Push.JobOf(s.p, c).target == Some(a)
      && a in s.gates && g in s.gates[a].server.armed && Sendable(Push.JobOf(s.p, c).inbound.req)
    case GateReplies(c, a, g) => c in s.p.calls && GateAnswered(s, c, a, g)
    case GateBreaks(c, _) => c in s.p.calls
  }

  /** The contexts that a step uses are allocated, not deleted, and hold a request where one is read. */
  predicate Live(s: State, e: Event)
    requires Possible(s, e)
  {
    match e
    case P(pe) => Push.Live(s.p, pe)
    case G(a, ge) => Gate.Live(s.gates[a], ge)
    case CallPush(i, c) => Rpc.Live(s.p.server, c)
    case CallGate(c, a, g) => Rpc.Live(s.gates[a].server, g)
    case GateReplies(c, _, _) => Push.Usable(s.p, c)
    case GateBreaks(c, _) => Push.Usable(s.p, c)
    case _ => true
  }

  function DoCallPush(s: State, i: Id, c: Id, req: PushReq): State
    requires Rpc.Live(s.p.server, c)
  {
    s.(p := s.p.(server := Arrive(s.p.server, c, Push.NewJob(Inbound(i, req)))))
  }

  function DoCallGate(s: State, c: Id, a: Push.Address, g: Id, req: PushReq): State
    requires a in s.gates && Rpc.Live(s.gates[a].server, g)
  {
    s.(gates := s.gates[a := s.gates[a].(server := Arrive(s.gates[a].server, g, Inbound(c, req)))])
  }

  function DoReturn(s: State, c: Id, back: Push.Back): State
    requires Push.Usable(s.p, c)
  {
    s.(p := Push.Return(s.p, c, back))
  }

  function DoAnswer(s: State, i: Id, status: Status): State
    requires i in s.t.calls
  {
    s.(t := Transfer.Return(s.t, i, status))
  }

  function Apply(s: State, e: Event): State
    requires Possible(s, e) && Live(s, e)
  {
    match e
    case T(te) => s.(t := Transfer.Apply(s.t, te))
    case P(pe) => s.(p := Push.Apply(s.p, pe))
    case G(a, ge) => s.(gates := s.gates[a := Gate.Apply(s.gates[a], ge)])
    case CallPush(i, c) => DoCallPush(s, i, c, Transmitted(Transfer.ReqOf(s.t.calls[i].x)).value)
    case PushReplies(i, c) => DoAnswer(s, i, s.p.server.ctxs[c].finished[0])
    case PushBreaks(i, code) => DoAnswer(s, i, Broken(code))
    case CallGate(c, a, g) => DoCallGate(s, c, a, g, Transmitted(Push.JobOf(s.p, c).inbound.req).value)
    case GateReplies(c, a, g) => DoReturn(s, c, Push.Back(s.gates[a].server.ctxs[g].finished[0], Some((a, g))))
    case GateBreaks(c, code) => DoReturn(s, c, Push.Back(Broken(code), None))
  }

  predicate IsRun(s: State, es: seq<Event>)
    decreases |es|
  {
    es == [] || (Possible(s, es[0]) && Live(s, es[0]) && IsRun(Apply(s, es[0]), es[1..]))
  }

  function After(s: State, es: seq<Event>): State
    requires IsRun(s, es)
    decreases |es|
  {
    if es == [] then s else After(Apply(s, es[0]), es[1..])
  }

  /** Nothing has been consumed; every server has armed its first context. */
  predicate Initial(s: State) {
    && s.t == Transfer.Boot(s.t.members)
    && s.p == Push.Boot(s.p.server.listener, |s.p.workers|)
    && forall a <- s.gates :: s.gates[a] == Gate.Boot(s.gates[a].server.listener, |s.gates[a].workers|)
  }

  // ---------------------------------------------------------------- the invariant

  /** Some gate sent this very request on a socket whose own uid is the receiver's. */
  ghost predicate Delivered(gates: map<Push.Address, Gate.State>, req: PushReq) {
    exists a <- gates :: Gate.SentFor(gates[a], req)
  }

  /** Each server by itself. */
  ghost predicate Parts(s: State) {
    Transfer.Inv(s.t) && Push.Inv(s.p) && forall a <- s.gates :: Gate.Inv(s.gates[a])
  }

  predicate PushLink(t: Transfer.State, r: Inbound) {
    r.origin in t.calls && r.req == Transfer.ReqOf(t.calls[r.origin].x)
  }

  predicate GateLink(p: Push.State, a: Push.Address, r: Inbound) {
    && r.origin in p.server.ctxs && p.server.ctxs[r.origin].req.Some?
    && var job := p.server.ctxs[r.origin].req.value; r.req == job.inbound.req && job.target == Some(a)
  }

  /** A server has the very request that its client sent, and a gate only calls that were made to it. */
  ghost predicate Linked(s: State) {
    && (forall c <- s.p.server.ctxs | s.p.server.ctxs[c].req.Some? ::
          PushLink(s.t, s.p.server.ctxs[c].req.value.inbound))
    && (forall a <- s.gates :: GateLinked(s.p, a, s.gates[a]))
  }

  ghost predicate GateLinked(p: Push.State, a: Push.Address, gate: Gate.State) {
    forall g <- gate.server.ctxs | gate.server.ctxs[g].req.Some? :: GateLink(p, a, gate.server.ctxs[g].req.value)
  }

  /** What came back to the push server is what a gate answered, or a broken connection. */
  ghost predicate BackOk(gates: map<Push.Address, Gate.State>, c: Id, job: Push.Job) {
    job.back.Some? ==>
      && (job.back.value.status == OK ==> Delivered(gates, job.inbound.req))
      && match job.back.value.from
         case None => job.back.value.status.Broken?
         case Some((a, g)) => job.target == Some(a) && Answered(gates, c, a, g, job.back.value.status)
  }

  predicate Answered(gates: map<Push.Address, Gate.State>, c: Id, a: Push.Address, g: Id, status: Status) {
    && a in gates && g in gates[a].server.ctxs
    && var x := gates[a].server.ctxs[g]; x.req.Some? && x.req.value.origin == c && x.finished == [status]
  }

  ghost predicate PushHonest(s: State) {
    forall c <- s.p.server.ctxs | s.p.server.ctxs[c].req.Some? :: BackOk(s.gates, c, s.p.server.ctxs[c].req.value)
  }

  ghost predicate TransferHonest(s: State) {
    && (forall i <- s.t.calls | s.t.calls[i].Back? && s.t.calls[i].status == OK ::
          Delivered(s.gates, Transfer.ReqOf(s.t.calls[i].x)))
    && (forall x <- s.t.acked :: Delivered(s.gates, Transfer.ReqOf(x)))
  }

  ghost predicate Inv(s: State) {
    Parts(s) && Linked(s) && PushHonest(s) && TransferHonest(s)
  }

  lemma InvInitial(s: State)
    requires Initial(s)
    ensures Inv(s)
  {
    hide Initial, Parts, Linked, PushHonest, TransferHonest;
    PartsInitial(s);
    LinkedInitial(s);
    HonestInitial(s);
  }

  lemma PartsInitial(s: State)
    requires Initial(s)
    ensures Parts(s)
  {
    hide Transfer.Inv, Push.Inv, Gate.Inv;
    Transfer.InvBoot(s.t.members);
    Push.InvBoot(s.p.server.listener, |s.p.workers|);
    forall a <- s.gates ensures Gate.Inv(s.gates[a]) {
      Gate.InvBoot(s.gates[a].server.listener, |s.gates[a].workers|);
    }
  }

  lemma LinkedInitial(s: State)
    requires Initial(s)
    ensures Linked(s)
  {
    hide PushLink, GateLink;
    assert forall c <- s.p.server.ctxs :: s.p.server.ctxs[c].req.None?;
    forall a <- s.gates ensures GateLinked(s.p, a, s.gates[a]) {
      assert forall g <- s.gates[a].server.ctxs :: s.gates[a].server.ctxs[g].req.None?;
    }
  }

  lemma HonestInitial(s: State)
    requires Initial(s)
    ensures PushHonest(s) && TransferHonest(s)
  {
    hide Delivered, BackOk;
    assert forall c <- s.p.server.ctxs :: s.p.server.ctxs[c].req.None?;
  }

  lemma AlwaysLive(s: State, e: Event)
    requires Inv(s) && Possible(s, e)
    ensures Live(s, e)
  {
    hide Transfer.Inv, Push.Inv, Gate.Inv, Linked, PushHonest, TransferHonest, Sendable;
    match e
    case P(pe) => Push.AlwaysLive(s.p, pe);
    case G(a, ge) => Gate.AlwaysLive(s.gates[a], ge);
    case CallPush(i, c) => Push.InvInbound(s.p, c, Inbound(i, NO_PUSH));
    case CallGate(c, a, g) => Gate.InvInbound(s.gates[a], g, Inbound(c, NO_PUSH));
    case GateReplies(c, _, _) => Push.InvReturn(s.p, c, Push.Back(OK, None));
    case GateBreaks(c, _) => Push.InvReturn(s.p, c, Push.Back(OK, None));
    case _ =>
  }

  // ---------------------------------------------------------------- every step keeps it

  lemma InvT(s: State, e: Transfer.Event)
    requires Inv(s) && Transfer.Possible(s.t, e)
    ensures Inv(s.(t := Transfer.Apply(s.t, e)))
  {
    hide Transfer.Inv, Push.Inv, Gate.Inv, Transfer.Apply, Transfer.Possible, Transfer.ReqOf, Delivered, GateLinked,
         BackOk;
    Transfer.InvStep(s.t, e);
    Transfer.CallsMove(s.t, e);
    assert e.Complete? ==> Transfer.Possible(s.t, e) && e.i in s.t.calls by { CompletePossible(s.t, e); }
  }

  lemma CompletePossible(t: Transfer.State, e: Transfer.Event)
    requires Transfer.Possible(t, e)
    ensures e.Complete? ==> e.i in t.calls
  {
  }

  lemma InvAnswer(s: State, i: Id, status: Status)
    requires Inv(s) && i in s.t.calls
    requires status == OK ==> Delivered(s.gates, Transfer.ReqOf(s.t.calls[i].x))
    ensures Inv(DoAnswer(s, i, status))
  {
    hide Transfer.Inv, Push.Inv, Gate.Inv, Transfer.ReqOf, Delivered, GateLinked, BackOk;
    Transfer.InvReturn(s.t, i, status);
  }

  lemma InvP(s: State, e: Push.Event)
    requires Inv(s) && Push.Possible(s.p, e) && Push.Live(s.p, e)
    ensures Inv(s.(p := Push.Apply(s.p, e)))
  {
    hide Transfer.Inv, Push.Inv, Gate.Inv, Push.Apply, Push.Possible, Push.Live, TransferHonest, PushLink, Delivered,
         Answered;
    Push.InvStep(s.p, e);
    Push.StepKeepsJobs(s.p, e);
    var s' := s.(p := Push.Apply(s.p, e));
    forall a <- s'.gates ensures GateLinked(s'.p, a, s'.gates[a]) { assert GateLinked(s.p, a, s.gates[a]); }
    assert TransferHonest(s') by { TransferSame(s, s'); }
  }

  lemma TransferSame(s: State, s': State)
    requires TransferHonest(s) && s'.t == s.t && s'.gates == s.gates
    ensures TransferHonest(s')
  {
  }

  lemma InvReturn(s: State, c: Id, back: Push.Back)
    requires Inv(s) && c in s.p.calls && Push.Usable(s.p, c)
    requires BackOk(s.gates, c, Push.JobOf(s.p, c).(back := Some(back)))
    ensures Inv(DoReturn(s, c, back))
  {
    hide Transfer.Inv, Push.Inv, Gate.Inv, TransferHonest, PushLink, BackOk;
    Push.InvReturn(s.p, c, back);
    var s' := DoReturn(s, c, back);
    forall a <- s'.gates ensures GateLinked(s'.p, a, s'.gates[a]) { assert GateLinked(s.p, a, s.gates[a]); }
    TransferSame(s, s');
  }

  lemma InvCallPush(s: State, i: Id, c: Id)
    requires Inv(s) && c in s.p.server.armed && i in s.t.calls && Rpc.Live(s.p.server, c)
    ensures Inv(DoCallPush(s, i, c, Transfer.ReqOf(s.t.calls[i].x)))
  {
    hide Transfer.Inv, Push.Inv, Gate.Inv, TransferHonest, Transfer.ReqOf, Delivered, Answered;
    var req := Transfer.ReqOf(s.t.calls[i].x);
    Push.InvInbound(s.p, c, Inbound(i, req));
    ArmedIsNew(s.p, c);
    var s' := DoCallPush(s, i, c, req);
    forall a <- s'.gates ensures GateLinked(s'.p, a, s'.gates[a]) { assert GateLinked(s.p, a, s.gates[a]); }
    TransferSame(s, s');
  }

  lemma ArmedIsNew(p: Push.State, c: Id)
    requires Push.Inv(p) && c in p.server.armed && Rpc.Live(p.server, c)
    ensures p.server.ctxs[c].req.None?
  {
    assert CtxOk(p.server, c);
  }

  /** Gates only ever add to what they sent and answered. */
  ghost predicate GatesGrow(gates: map<Push.Address, Gate.State>, gates': map<Push.Address, Gate.State>) {
    gates.Keys == gates'.Keys && forall a <- gates :: Gate.AnswersStay(gates[a], gates'[a])
  }

  lemma DeliveredKept(gates: map<Push.Address, Gate.State>, gates': map<Push.Address, Gate.State>, req: PushReq)
    requires GatesGrow(gates, gates') && Delivered(gates, req)
    ensures Delivered(gates', req)
  {
    var a :| a in gates && Gate.SentFor(gates[a], req);
    Gate.SentKept(gates[a], gates'[a], req);
  }

  lemma BackKept(gates: map<Push.Address, Gate.State>, gates': map<Push.Address, Gate.State>, c: Id, job: Push.Job)
    requires GatesGrow(gates, gates') && BackOk(gates, c, job)
    ensures BackOk(gates', c, job)
  {
    hide Delivered, Gate.AnswersStay;
    if job.back.Some? {
      if job.back.value.status == OK { DeliveredKept(gates, gates', job.inbound.req); }
      match job.back.value.from
      case None =>
      case Some((a, g)) => AnsweredKept(gates[a], gates'[a], g);
    }
  }

  lemma AnsweredKept(gate: Gate.State, gate': Gate.State, g: Id)
    requires Gate.AnswersStay(gate, gate') && g in gate.server.ctxs
    ensures Gate.SameAnswer(gate, gate', g)
  {
  }

  lemma InvGates(s: State, gates': map<Push.Address, Gate.State>)
    requires Inv(s) && GatesGrow(s.gates, gates')
    requires forall a <- gates' :: Gate.Inv(gates'[a]) && GateLinked(s.p, a, gates'[a])
    ensures Inv(s.(gates := gates'))
  {
    hide Transfer.Inv, Push.Inv, Gate.Inv, GatesGrow, Delivered, BackOk, PushLink, GateLinked, Transfer.ReqOf;
    var s' := s.(gates := gates');
    forall c <- s.p.server.ctxs | s.p.server.ctxs[c].req.Some? ensures BackOk(gates', c, s.p.server.ctxs[c].req.value) {
      BackKept(s.gates, gates', c, s.p.server.ctxs[c].req.value);
    }
    forall i <- s.t.calls | s.t.calls[i].Back? && s.t.calls[i].status == OK
      ensures Delivered(gates', Transfer.ReqOf(s.t.calls[i].x))
    {
      DeliveredKept(s.gates, gates', Transfer.ReqOf(s.t.calls[i].x));
    }
    forall x <- s.t.acked ensures Delivered(gates', Transfer.ReqOf(x)) {
      DeliveredKept(s.gates, gates', Transfer.ReqOf(x));
    }
  }

  lemma Unchanged(g: Gate.State)
    ensures Gate.AnswersStay(g, g)
  {
  }

  lemma InvOneGate(s: State, a: Push.Address, gate': Gate.State)
    requires Inv(s) && a in s.gates && Gate.Inv(gate') && GateLinked(s.p, a, gate')
    requires Gate.AnswersStay(s.gates[a], gate')
    ensures Inv(s.(gates := s.gates[a := gate']))
  {
    hide Transfer.Inv, Push.Inv, Gate.Inv, PushHonest, TransferHonest, PushLink, GateLinked, Gate.AnswersStay;
    var gates' := s.gates[a := gate'];
    forall b <- s.gates ensures Gate.AnswersStay(s.gates[b], gates'[b]) { Unchanged(s.gates[b]); }
    forall b <- gates' ensures Gate.Inv(gates'[b]) && GateLinked(s.p, b, gates'[b]) {
      if b != a { assert b in s.gates; }
    }
    InvGates(s, gates');
  }

  lemma InvG(s: State, a: Push.Address, e: Gate.Event)
    requires Inv(s) && a in s.gates && Gate.Possible(s.gates[a], e) && Gate.Live(s.gates[a], e)
    ensures Inv(s.(gates := s.gates[a := Gate.Apply(s.gates[a], e)]))
  {
    hide Transfer.Inv, Push.Inv, Gate.Inv, Gate.Apply, Gate.Possible, Gate.Live, PushHonest, TransferHonest, PushLink;
    var g := s.gates[a];
    var gate' := Gate.Apply(g, e);
    Gate.InvStep(g, e);
    Gate.StepKeepsAnswers(g, e);
    assert GateLinked(s.p, a, g);
    LinkStays(s.p, a, g, gate');
    InvOneGate(s, a, gate');
  }

  lemma LinkStays(p: Push.State, a: Push.Address, g: Gate.State, g': Gate.State)
    requires GateLinked(p, a, g) && Gate.AnswersStay(g, g') && Gate.NoArrival(g, g')
    ensures GateLinked(p, a, g')
  {
    hide GateLink;
    forall c <- g'.server.ctxs | g'.server.ctxs[c].req.Some? ensures GateLink(p, a, g'.server.ctxs[c].req.value) {
      assert Gate.SameAnswer(g, g', c);
    }
  }

  lemma InvCallGate(s: State, c: Id, a: Push.Address, g: Id)
    requires Inv(s) && Push.Usable(s.p, c) && Push.JobOf(s.p, c).target == Some(a)
    requires a in s.gates && g in s.gates[a].server.armed && Rpc.Live(s.gates[a].server, g)
    ensures Inv(DoCallGate(s, c, a, g, Push.JobOf(s.p, c).inbound.req))
  {
    hide Transfer.Inv, Push.Inv, Gate.Inv, PushHonest, TransferHonest, PushLink;
    var gate, r := s.gates[a], Inbound(c, Push.JobOf(s.p, c).inbound.req);
    var gate' := gate.(server := Arrive(gate.server, g, r));
    assert GateLinked(s.p, a, gate);
    Gate.InvInbound(gate, g, r);
    ArmedAtGate(gate, g);
    ArrivalKeeps(gate, gate', g);
    InvOneGate(s, a, gate');
  }

  lemma ArmedAtGate(gate: Gate.State, g: Id)
    requires Gate.Inv(gate) && g in gate.server.armed && Rpc.Live(gate.server, g)
    ensures gate.server.ctxs[g].req.None? && gate.server.ctxs[g].finished == []
  {
    assert CtxOk(gate.server, g);
  }

  lemma ArrivalKeeps(gate: Gate.State, gate': Gate.State, g: Id)
    requires g in gate.server.ctxs && gate.server.ctxs[g].req.None? && gate.server.ctxs[g].finished == []
    requires g in gate'.server.ctxs && gate'.server.ctxs == gate.server.ctxs[g := gate'.server.ctxs[g]]
    requires gate'.sent == gate.sent && gate'.uidOf == gate.uidOf
    ensures Gate.AnswersStay(gate, gate')
  {
  }

  /** The codec gives the other side exactly what was sent. */
  lemma TransmissionIsExact(s: State, i: Id)
    requires Inv(s) && i in s.t.calls && |SerPush(Transfer.ReqOf(s.t.calls[i].x))| < TWO_31
    ensures Transmitted(Transfer.ReqOf(s.t.calls[i].x)) == Ok(Transfer.ReqOf(s.t.calls[i].x))
  {
    hide Push.Inv, Gate.Inv, Linked, PushHonest, TransferHonest, ParsePush, SerPush, Transfer.Fanned, Transfer.Numbered;
    var x := s.t.calls[i].x;
    assert x in s.t.handed;
    PushRoundTrip(Transfer.ReqOf(x));
  }

  lemma InvNetwork(s: State, e: Event)
    requires Inv(s) && Possible(s, e) && Live(s, e) && !e.T? && !e.P? && !e.G?
    ensures Inv(Apply(s, e))
  {
    hide Inv, DoAnswer, DoReturn, DoCallPush, DoCallGate, Transmitted;
    match e
    case CallPush(i, c) =>
      TransmissionIsExact(s, i);
      InvCallPush(s, i, c);
    case PushReplies(i, c) =>
      ReplyIsHonest(s, i, c);
      InvAnswer(s, i, s.p.server.ctxs[c].finished[0]);
    case PushBreaks(i, code) => InvAnswer(s, i, Broken(code));
    case CallGate(c, a, g) =>
      RequestOfCall(s, c);
      InvCallGate(s, c, a, g);
    case GateReplies(c, a, g) =>
      GateReplyIsHonest(s, c, a, g);
      InvReturn(s, c, Push.Back(s.gates[a].server.ctxs[g].finished[0], Some((a, g))));
    case GateBreaks(c, code) => InvReturn(s, c, Push.Back(Broken(code), None));
  }

  lemma RequestOfCall(s: State, c: Id)
    requires Inv(s) && Push.Usable(s.p, c) && |SerPush(Push.JobOf(s.p, c).inbound.req)| < TWO_31
    ensures Transmitted(Push.JobOf(s.p, c).inbound.req) == Ok(Push.JobOf(s.p, c).inbound.req)
  {
    hide Parts, PushHonest, TransferHonest, SerPush, Transfer.ReqOf, Transmitted;
    var r := s.p.server.ctxs[c].req.value.inbound;
    assert PushLink(s.t, r);
    TransmissionIsExact(s, r.origin);
  }

  /** If the push server answered OK, the push was delivered. */
  lemma ReplyIsHonest(s: State, i: Id, c: Id)
    requires Inv(s) && i in s.t.calls && PushAnswered(s, i, c)
    ensures s.p.server.ctxs[c].finished[0] == OK ==> Delivered(s.gates, Transfer.ReqOf(s.t.calls[i].x))
  {
    hide Transfer.Inv, Gate.Inv, TransferHonest, Delivered, Transfer.ReqOf, Answered, Held;
    var x := s.p.server.ctxs[c];
    assert Push.Here(s.p, c);
    assert PushLink(s.t, x.req.value.inbound);
    assert BackOk(s.gates, c, x.req.value);
  }

  /** If a gate answered OK, it sent the push. */
  lemma GateReplyIsHonest(s: State, c: Id, a: Push.Address, g: Id)
    requires Inv(s) && Push.Usable(s.p, c) && GateAnswered(s, c, a, g)
    ensures var back := Push.Back(s.gates[a].server.ctxs[g].finished[0], Some((a, g)));
            BackOk(s.gates, c, Push.JobOf(s.p, c).(back := Some(back)))
  {
    hide Transfer.Inv, Push.Inv, TransferHonest, PushHonest, Gate.SentFor, Gate.FrameOk, Held;
    var gate := s.gates[a];
    var x := gate.server.ctxs[g];
    assert Gate.Inv(gate) && Gate.Honest(gate, g) && CtxOk(gate.server, g);
    assert GateLinked(s.p, a, gate) && GateLink(s.p, a, x.req.value);
    InvIsSound(gate.server);
    assert x.finished == [x.finished[0]];
    if x.finished[0] == OK { assert Gate.SentFor(gate, x.req.value.req); }
  }

  lemma InvStep(s: State, e: Event)
    requires Inv(s) && Possible(s, e) && Live(s, e)
    ensures Inv(Apply(s, e))
  {
    hide Inv;
    match e
    case T(te) => InvT(s, te);
    case P(pe) => InvP(s, pe);
    case G(a, ge) => InvG(s, a, ge);
    case _ => InvNetwork(s, e);
  }

  lemma {:induction false} InvRun(s: State, es: seq<Event>)
    requires Inv(s) && IsRun(s, es)
    ensures Inv(After(s, es))
    decreases |es|
  {
    hide Inv, Apply, Possible, Live;
    if es != [] {
      InvStep(s, es[0]);
      InvRun(Apply(s, es[0]), es[1..]);
    }
  }

  lemma Reached(s: State, es: seq<Event>)
    requires Initial(s) && IsRun(s, es)
    ensures Inv(After(s, es))
  {
    InvInitial(s);
    InvRun(s, es);
  }

  // ---------------------------------------------------------------- main results

  /** The safety of the whole chain, in every run and for every ticket (uid, seq) that was ever handed
      out: once its insert is no longer outstanding, a row that is missing from the inbox either failed
      to be inserted, or its push was sent by some gate on a registered socket of the receiver's own, and
      what was sent is this ticket's PushReq, which the receiver's parser reads back exactly. */
  lemma MissingMeansDelivered(s: State, es: seq<Event>, x: Transfer.Ticket)
    requires Initial(s) && IsRun(s, es) && x in After(s, es).t.handed
    requires var t := After(s, es).t;
             Transfer.Write(x) !in t.running && Transfer.InsertOf(x) !in t.ops && Transfer.RowOf(x) !in t.inbox
    ensures var s' := After(s, es);
            || Transfer.InsertOf(x) in s'.t.lost
            || exists a <- s'.gates, sent <- s'.gates[a].sent ::
                 && sent.data == SerPush(PushReq(Some(x.mq), x.no, x.uid)) && sent.uid == x.uid
                 && sent.ws in s'.gates[a].uidOf && s'.gates[a].uidOf[sent.ws] == x.uid
  {
    hide Push.Inv, Gate.Inv, Linked, PushHonest, Transfer.Inv, SerPush;
    Reached(s, es);
    var s' := After(s, es);
    if Transfer.InsertOf(x) !in s'.t.lost {
      Transfer.MissingMeansAcked(s'.t, x);
      assert Delivered(s'.gates, Transfer.ReqOf(x));
      var a :| a in s'.gates && Gate.SentFor(s'.gates[a], Transfer.ReqOf(x));
    }
  }

  /** What the receiver reads from the socket. */
  lemma ReceiverReadsIt(s: State, es: seq<Event>, x: Transfer.Ticket)
    requires Initial(s) && IsRun(s, es) && x in After(s, es).t.handed
    requires |SerPush(PushReq(Some(x.mq), x.no, x.uid))| < TWO_31
    ensures ParsePush(SerPush(PushReq(Some(x.mq), x.no, x.uid))) == Ok(PushReq(Some(x.mq), x.no, x.uid))
  {
    hide Push.Inv, Gate.Inv, Linked, PushHonest, TransferHonest, ParsePush, SerPush, Transfer.Fanned, Transfer.Numbered;
    Reached(s, es);
    PushRoundTrip(PushReq(Some(x.mq), x.no, x.uid));
  }

  /** The numbers handed out to a user are 1, 2, 3, … in that order, whatever direct messages and
      fan-out tasks interleave. */
  lemma NumbersAreConsecutive(s: State, es: seq<Event>, u: Uid)
    requires Initial(s) && IsRun(s, es)
    ensures var t := After(s, es).t;
            0 <= Transfer.CounterOf(t, u) && Transfer.NumbersOf(t.handed, u) == Transfer.UpTo(Transfer.CounterOf(t, u))
  {
    Reached(s, es);
  }

  /** No inbox row is ever overwritten with another msgid: all inserts for a row, outstanding, failed or
      applied, carry the same one. */
  lemma RowsAreWrittenOnce(s: State, es: seq<Event>, row: Transfer.Row, m: bytes)
    requires Initial(s) && IsRun(s, es) && row in After(s, es).t.inbox
    requires Transfer.Insert(row, m) in After(s, es).t.ops || Transfer.Insert(row, m) in After(s, es).t.lost
    ensures After(s, es).t.inbox[row] == m
  {
    hide Push.Inv, Gate.Inv, Linked, PushHonest, TransferHonest, Transfer.Fanned, Transfer.Numbered, Transfer.OpOk;
    Reached(s, es);
    var t := After(s, es).t;
    Transfer.NeverOverwritten(t, row, m, t.inbox[row]);
  }

  /** Memory safety: whatever step control has reached in the push server or a gate, the contexts it
      uses are allocated and not deleted. */
  lemma NoUseAfterDelete(s: State, es: seq<Event>, e: Event)
    requires Initial(s) && IsRun(s, es) && Possible(After(s, es), e)
    ensures Live(After(s, es), e)
  {
    Reached(s, es);
    AlwaysLive(After(s, es), e);
  }

  /** In every reachable state the push server and every gate have exactly one context on its way in and
      no context that was finished twice. There is one pointer to each context that is not retired, in
      a queue, a call or a thread, except that in the push server there is none to a context whose task
      died in its lookup. */
  lemma ServersAreSound(s: State, es: seq<Event>)
    requires Initial(s) && IsRun(s, es)
    ensures var s' := After(s, es); Sound(s'.p.server) && forall a <- s'.gates :: Sound(s'.gates[a].server)
    ensures var p := After(s, es).p;
            forall c :: Push.Pointers(p, c) == if Rpc.Live(p.server, c) && c !in p.lost then 1 else 0
    ensures var gates := After(s, es).gates;
            forall a <- gates, c :: Gate.Pointers(gates[a], c) == if Rpc.Live(gates[a].server, c) then 1 else 0
  {
    hide Transfer.Inv, Linked, PushHonest, TransferHonest, Sound, Push.Inv, Gate.Inv;
    Reached(s, es);
    var s' := After(s, es);
    PushPointers(s'.p);
    forall a <- s'.gates
      ensures Sound(s'.gates[a].server)
      ensures forall c :: Gate.Pointers(s'.gates[a], c) == if Rpc.Live(s'.gates[a].server, c) then 1 else 0
    {
      GatePointers(s'.gates[a]);
    }
  }

  lemma PushPointers(p: Push.State)
    requires Push.Inv(p)
    ensures Sound(p.server)
    ensures forall c :: Push.Pointers(p, c) == if Rpc.Live(p.server, c) && c !in p.lost then 1 else 0
  {
    hide Push.FramesOk, Push.AllHere, Held, Sound;
    InvIsSound(p.server);
    forall c ensures Push.Pointers(p, c) == if Rpc.Live(p.server, c) && c !in p.lost then 1 else 0 {
      assert p.server.out[c] == Held(p.workers, c) + p.calls[c] + p.ready[c] + p.lost[c];
      assert Total(p.server, c) == if Rpc.Live(p.server, c) then 1 else 0;
    }
  }

  lemma GatePointers(g: Gate.State)
    requires Gate.Inv(g)
    ensures Sound(g.server)
    ensures forall c :: Gate.Pointers(g, c) == if Rpc.Live(g.server, c) then 1 else 0
  {
    hide Held, Sound, Gate.Honest, Gate.FrameOk;
    InvIsSound(g.server);
    forall c ensures Gate.Pointers(g, c) == if Rpc.Live(g.server, c) then 1 else 0 {
      assert Total(g.server, c) == if Rpc.Live(g.server, c) then 1 else 0;
    }
  }

  /** What the push server told its caller, if anything: NOT_FOUND if Redis had no gate for the user;
      otherwise the one status that the gate which Redis named gave for this call, or that of a broken
      connection. */
  lemma StatusIsRelayed(s: State, es: seq<Event>, c: Id)
    requires Initial(s) && IsRun(s, es) && c in After(s, es).p.server.ctxs
    requires After(s, es).p.server.ctxs[c].finished != []
    ensures var s' := After(s, es);
            var x := s'.p.server.ctxs[c];
            && x.req.Some? && x.req.value.looked.Some?
            && (if !Push.Known(x.req.value.looked.value) then x.finished == [NotFound]
                else || (exists code :: x.finished == [Broken(code)])
                     || (var a := x.req.value.looked.value.value;
                         a in s'.gates && exists g <- s'.gates[a].server.ctxs ::
                           && s'.gates[a].server.ctxs[g].req.Some? && s'.gates[a].server.ctxs[g].req.value.origin == c
                           && x.finished == s'.gates[a].server.ctxs[g].finished))
  {
    hide Transfer.Inv, Gate.Inv, TransferHonest, Delivered, Held;
    Reached(s, es);
    var s' := After(s, es);
    assert Push.Here(s'.p, c);
    assert BackOk(s'.gates, c, s'.p.server.ctxs[c].req.value);
  }

  /** When nothing is left to do for the push server, a request that it took from its queue has been
      finished exactly once if and only if its lookup returned; if the lookup threw, never. */
  lemma QuietPushServerAnsweredAll(s: State, es: seq<Event>, c: Id)
    requires Initial(s) && IsRun(s, es) && c in After(s, es).p.server.ctxs && !Incoming(After(s, es).p.server, c)
    requires var p := After(s, es).p;
             && p.server.pool == multiset{} && p.calls == multiset{} && p.ready == multiset{}
             && forall w <- p.workers :: w.Idle?
    ensures var x := After(s, es).p.server.ctxs[c];
            && x.req.Some?
            && (|x.finished| == 1 <==> x.req.value.looked.Some?)
            && (x.finished == [] <==> x.req.value.looked.None?)
  {
    hide Transfer.Inv, Gate.Inv, Linked, PushHonest, TransferHonest;
    Reached(s, es);
    QuietContext(After(s, es).p, c);
  }

  lemma QuietContext(p: Push.State, c: Id)
    requires Push.Inv(p) && c in p.server.ctxs && !Incoming(p.server, c)
    requires p.server.pool == multiset{} && p.calls == multiset{} && p.ready == multiset{}
    requires forall w <- p.workers :: w.Idle?
    ensures var x := p.server.ctxs[c];
            && x.req.Some? && |x.finished| <= 1 && (x.finished != [] <==> x.req.value.looked.Some?)
  {
    hide Push.FramesOk, Held;
    NobodyHolds(p.workers, c);
    assert p.server.out[c] == Held(p.workers, c) + p.calls[c] + p.ready[c] + p.lost[c];
    assert Total(p.server, c) == if Rpc.Live(p.server, c) then 1 else 0;
    assert CtxOk(p.server, c) && Push.Here(p, c);
  }

  /** The branch for a null stub is never reached. */
  lemma NullStubUnreachable(s: State, es: seq<Event>)
    requires Initial(s) && IsRun(s, es)
    ensures forall w <- After(s, es).p.workers :: w.Busy? ==> !w.at.NoStub?
  {
    hide Transfer.Inv, Gate.Inv, Linked, PushHonest, TransferHonest;
    Reached(s, es);
    var p := After(s, es).p;
    forall w <- p.workers | w.Busy? ensures !w.at.NoStub? { assert Push.FrameOk(p, w); }
  }
}
