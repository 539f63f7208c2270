/** The gate (server/msg_gate/gate_server.cc, user_mgr.h): the registry of web sockets and the pooled
    task that sends a push on the socket of its receiver. Sockets open and close at any time between
    the steps of a task. */
module Gate {
  import opened Wire
  import opened Messages
  import opened Rpc

  type Ws = nat  // a web socket connection

  // ---------------------------------------------------------------- the registry

  class WebSocket {
    var uid: Uid

    constructor (uid: Uid)
      ensures this.uid == uid
    {
      this.uid := uid;
    }
  }

  /** `UserManager`, with the sockets it points to. */
  class UserManager {
    var sockets: map<Uid, WebSocket>

    /** Every registered socket belongs to the user it is registered for. */
    ghost predicate Valid()
      reads this, sockets.Values
    {
      forall u <- sockets :: sockets[u].uid == u
    }

    constructor ()
      ensures Valid() && sockets == map[]
    {
      sockets := map[];
    }

    /** The socket gets the uid. Registered sockets keep belonging to their users exactly if the socket is
        not registered for somebody else, which holds when `OpenHandle` calls it for a new socket. */
    method AddWS(uid: Uid, ws: WebSocket)
      modifies this, ws
      ensures sockets == old(sockets)[uid := ws] && ws.uid == uid
      ensures old(Valid()) ==> (Valid() <==> forall u <- old(sockets) | u != uid :: old(sockets)[u] != ws)
    {
      sockets := sockets[uid := ws];
      ws.uid := uid;
      assert forall u <- sockets | u != uid :: u in old(sockets) && sockets[u] == old(sockets)[u];
    }

    method DelWS(uid: Uid)
      modifies this
      ensures sockets == old(sockets) - {uid}
      ensures old(Valid()) ==> Valid()
    {
      sockets := sockets - {uid};
    }

    method GetWS(uid: Uid) returns (ws: WebSocket?)
      ensures ws == null <==> uid !in sockets
      ensures ws != null ==> ws == sockets[uid] && (Valid() ==> ws.uid == uid)
    {
      if uid !in sockets { return null; }
      ws := sockets[uid];
    }
  }

  // ---------------------------------------------------------------- state and steps

  /** Program points of the pooled task. */
  datatype Point =
    | Got                          // GetWS
    | Send(ws: Ws)                 // SerializeToString, ws->send
    | SetDone(status: Status)
    | Finishing(status: Status)

  /** What was sent: on which socket, whose socket it was, the bytes, and whether the socket was still the
      one that is registered for the receiver. */
  datatype Sent = Sent(ws: Ws, uid: Uid, data: bytes, registered: bool)

  /** `uidOf` has every socket that was ever opened, `closed` those that were closed since. */
  datatype State = State(
    server: Server<Inbound>, workers: seq<Worker<Point>>, sockets: map<Uid, Ws>, uidOf: map<Ws, Uid>, closed: set<Ws>,
    sent: set<Sent>)

  datatype Event =
    | Turn(c: Id, n: Id)
    | Begin(w: nat, c: Id)
    | Step(w: nat)
    | Open(ws: Ws, uid: Uid)
    | Close(ws: Ws)

  predicate Possible(g: State, e: Event) {
    match e
    case Turn(c, n) => c in g.server.cq && n !in g.server.ctxs
    case Begin(w, c) => Free(g.workers, w) && c in g.server.pool
    case Step(w) => At(g.workers, w)
    case Open(ws, _) => ws !in g.uidOf
    case Close(ws) => IsOpen(g, ws)
  }

  predicate IsOpen(g: State, ws: Ws) {
    ws in g.uidOf && ws !in g.closed
  }

  predicate IsRegistered(g: State, uid: Uid, ws: Ws) {
    uid in g.sockets && g.sockets[uid] == ws
  }

  /** The context that a step dereferences is allocated, not deleted, and holds a request. */
  predicate Usable(g: State, c: Id) {
    Rpc.Live(g.server, c) && g.server.ctxs[c].req.Some?
  }

  predicate Live(g: State, e: Event)
    requires Possible(g, e)
  {
    match e
    case Turn(c, _) => Usable(g, c)
    case Step(w) => Usable(g, g.workers[w].c)
    case _ => true
  }

  function ReqOf(g: State, c: Id): PushReq
    requires Usable(g, c)
  {
    g.server.ctxs[c].req.value.req
  }

  function DoStep(g: State, w: nat): State
    requires At(g.workers, w) && Usable(g, g.workers[w].c)
  {
    var c := g.workers[w].c;
    match g.workers[w].at
    case Got =>
      var uid := ReqOf(g, c).toUid;
      g.(workers := g.workers[w := Busy(c, if uid in g.sockets then Send(g.sockets[uid]) else SetDone(NotFound))])
    case Send(ws) =>
      g.(workers := g.workers[w := Busy(c, SetDone(OK))],
         sent := g.sent + {Sent(ws, if ws in g.uidOf then g.uidOf[ws] else 0, SerPush(ReqOf(g, c)),
                                IsRegistered(g, ReqOf(g, c).toUid, ws))})
    case SetDone(status) => g.(workers := g.workers[w := Busy(c, Finishing(status))], server := Mark(g.server, c))
    case Finishing(status) => g.(workers := g.workers[w := Idle], server := Finish(g.server, c, status))
  }

  function Apply(g: State, e: Event): State
    requires Possible(g, e) && Live(g, e)
  {
    match e
    case Turn(c, n) => g.(server := Next(g.server, c, n))
    case Begin(w, c) => g.(workers := g.workers[w := Busy(c, Got)], server := Take(g.server, c))
    case Step(w) => DoStep(g, w)
    case Open(ws, uid) => g.(sockets := g.sockets[uid := ws], uidOf := g.uidOf[ws := uid])
    case Close(ws) => g.(sockets := g.sockets - {g.uidOf[ws]}, closed := g.closed + {ws})
  }

  // ---------------------------------------------------------------- who is registered

  /** The event opens or closes a socket of this user. */
  predicate Touches(g: State, e: Event, uid: Uid) {
    (e.Open? && e.uid == uid) || (e.Close? && e.ws in g.uidOf && g.uidOf[e.ws] == uid)
  }

  /** What one step does to a user's registration: opening registers the socket, closing any socket of the
      user removes whichever is registered, and nothing else matters. */
  lemma RegistrationMoves(g: State, e: Event, uid: Uid, ws: Ws)
    requires Possible(g, e) && Live(g, e)
    ensures IsRegistered(Apply(g, e), uid, ws)
       <==> if Touches(g, e, uid) then e == Open(ws, uid) else IsRegistered(g, uid, ws)
    ensures uid in Apply(g, e).sockets <==> if Touches(g, e, uid) then e.Open? else uid in g.sockets
  {
    hide SerPush;
  }

  /** Two sockets of one user; the older one closes, and the user is not registered any more although the
      newer one is open. */
  lemma NewerSocketIsForgotten(g: State, uid: Uid, older: Ws, newer: Ws)
    requires Inv(g) && older !in g.uidOf && newer !in g.uidOf && older != newer
    ensures var a := Apply(g, Open(older, uid));
            && Possible(g, Open(older, uid)) && Possible(a, Open(newer, uid))
            && var b := Apply(a, Open(newer, uid));
               && Possible(b, Close(older)) && IsRegistered(b, uid, newer)
               && var c := Apply(b, Close(older));
                  && IsOpen(c, newer) && c.uidOf[newer] == uid && uid !in c.sockets
                  && forall w: nat | At(c.workers, w) && c.workers[w].at.Got? && Usable(c, c.workers[w].c) ::
                       ReqOf(c, c.workers[w].c).toUid == uid ==> DoStep(c, w).workers[w].at == SetDone(NotFound)
  {
    hide Rpc.Inv, Held, SentFor, SerPush;
  }

  // ---------------------------------------------------------------- the invariant

  /** This very request was sent on a socket that was opened for the receiver. */
  ghost predicate SentFor(g: State, req: PushReq) {
    exists x <- g.sent :: x.uid == req.toUid && x.data == SerPush(req) && x.ws in g.uidOf && g.uidOf[x.ws] == x.uid
  }

  /** What was sent and whose socket was whose is not forgotten. */
  ghost predicate Remembers(g: State, g': State) {
    g.sent <= g'.sent && forall ws <- g.uidOf :: ws in g'.uidOf && g'.uidOf[ws] == g.uidOf[ws]
  }

  ghost predicate FrameOk(g: State, f: Worker<Point>)
    requires f.Busy? && Usable(g, f.c)
  {
    && (g.server.ctxs[f.c].done <==> f.at.Finishing?)
    && (f.at.Send? ==> f.at.ws in g.uidOf && g.uidOf[f.at.ws] == ReqOf(g, f.c).toUid)
    && (f.at.SetDone? || f.at.Finishing? ==> f.at.status == OK || f.at.status == NotFound)
    && ((f.at.SetDone? || f.at.Finishing?) && f.at.status == OK ==> SentFor(g, ReqOf(g, f.c)))
  }

  /** A call that was answered with OK was sent. */
  ghost predicate Honest(g: State, c: Id)
    requires c in g.server.ctxs
  {
    var x := g.server.ctxs[c];
    && (x.finished != [] ==> x.req.Some?)
    && (OK in x.finished ==> x.req.Some? && SentFor(g, x.req.value.req))
  }

  ghost predicate Inv(g: State) {
    && Rpc.Inv(g.server) && g.closed <= g.uidOf.Keys
    && (forall c :: g.server.out[c] == Held(g.workers, c))
    && (forall u <- g.sockets :: IsOpen(g, g.sockets[u]) && g.uidOf[g.sockets[u]] == u)
    && (forall i | 0 <= i < |g.workers| && g.workers[i].Busy? :: Usable(g, g.workers[i].c) && FrameOk(g, g.workers[i]))
    && (forall c <- g.server.ctxs :: Honest(g, c))
  }

  /** In how many places there is a pointer to `c`. */
  function Pointers(g: State, c: Id): nat {
    g.server.armed[c] + g.server.cq[c] + g.server.pool[c] + Held(g.workers, c)
  }

  function Boot(first: Id, threads: nat): State {
    State(Rpc.Start(first), AllIdle(threads), map[], map[], {}, {})
  }

  lemma InvBoot(first: Id, threads: nat)
    ensures Inv(Boot(first, threads))
  {
    forall c ensures Held(Boot(first, threads).workers, c) == 0 { NothingHeld<Point>(threads, c); }
    InvStart<Inbound>(first);
  }

  lemma HeldIsOut(g: State, w: nat)
    requires Inv(g) && At(g.workers, w)
    ensures g.workers[w].c in g.server.out
  {
    Update(g.workers, w, Idle);
  }

  /** Another worker's frame is about another context. */
  lemma OthersElsewhere(g: State, w: nat, i: nat)
    requires Inv(g) && At(g.workers, w) && At(g.workers, i) && i != w
    ensures g.workers[i].c != g.workers[w].c
  {
    assert Total(g.server, g.workers[w].c) <= 1;
    if g.workers[i].c == g.workers[w].c {
      Together(g.workers, if i < w then i else w, if i < w then w else i);
    }
  }

  lemma AlwaysLive(g: State, e: Event)
    requires Inv(g) && Possible(g, e)
    ensures Live(g, e)
  {
    match e
    case Turn(c, _) =>
      assert Total(g.server, c) >= 1;
      assert CtxOk(g.server, c);
    case _ =>
  }

  lemma SentKept(g: State, g': State, req: PushReq)
    requires Remembers(g, g') && SentFor(g, req)
    ensures SentFor(g', req)
  {
    var x :| x in g.sent && x.uid == req.toUid && x.data == SerPush(req) && x.ws in g.uidOf && g.uidOf[x.ws] == x.uid;
    assert x in g'.sent;
  }

  /** What holds of the frames and answers of untouched contexts carries over. */
  lemma Carry(g: State, g': State, C: set<Id>)
    requires Remembers(g, g')
    requires forall c <- g.server.ctxs | c !in C :: c in g'.server.ctxs && g'.server.ctxs[c] == g.server.ctxs[c]
    ensures forall f: Worker<Point> | f.Busy? && f.c !in C && Usable(g, f.c) && FrameOk(g, f) ::
              Usable(g', f.c) && FrameOk(g', f)
    ensures forall c <- g.server.ctxs | c !in C && Honest(g, c) :: Honest(g', c)
  {
    hide SerPush, SentFor;
    forall f: Worker<Point> | f.Busy? && f.c !in C && Usable(g, f.c) && FrameOk(g, f)
      ensures Usable(g', f.c) && FrameOk(g', f)
    {
      if SentFor(g, ReqOf(g, f.c)) { SentKept(g, g', ReqOf(g, f.c)); }
    }
    forall c <- g.server.ctxs | c !in C && Honest(g, c) ensures Honest(g', c) {
      var x := g.server.ctxs[c];
      if OK in x.finished { SentKept(g, g', x.req.value.req); }
    }
  }

  lemma InvWorker(g: State, w: nat)
    requires Inv(g) && At(g.workers, w) && Usable(g, g.workers[w].c)
    ensures Inv(DoStep(g, w))
  {
    hide SerPush, SentFor, Rpc.Inv, Held, FrameOk, Honest, DoStep, Remembers;
    var g', c := DoStep(g, w), g.workers[w].c;
    StepFrame(g, w);
    HeldIsOut(g, w);
    Update(g.workers, w, g'.workers[w]);
    ServerKept(g, w);
    StepMoves(g, w);
    Carry(g, g', {c});
    OthersKept(g, g', w);
  }

  /** What a step leaves as it is. */
  lemma StepFrame(g: State, w: nat)
    requires At(g.workers, w) && Usable(g, g.workers[w].c)
    ensures var g' := DoStep(g, w);
            && Remembers(g, g') && g'.sockets == g.sockets && g'.uidOf == g.uidOf && g'.closed == g.closed
            && g'.workers == g.workers[w := if g.workers[w].at.Finishing? then Idle else g'.workers[w]]
            && (g'.workers[w].Busy? ==> g'.workers[w].c == g.workers[w].c)
            && (g'.workers[w].Busy? || g'.workers[w].Idle?)
            && (g'.workers[w].Idle? <==> g.workers[w].at.Finishing?)
  {
    hide SerPush;
  }

  lemma OthersKept(g: State, g': State, w: nat)
    requires Inv(g) && At(g.workers, w) && |g'.workers| == |g.workers|
    requires forall i | 0 <= i < |g.workers| && i != w :: g'.workers[i] == g.workers[i]
    requires forall f: Worker<Point> | f.Busy? && f.c !in {g.workers[w].c} && Usable(g, f.c) && FrameOk(g, f) ::
               Usable(g', f.c) && FrameOk(g', f)
    ensures forall i | 0 <= i < |g'.workers| && g'.workers[i].Busy? && i != w ::
              Usable(g', g'.workers[i].c) && FrameOk(g', g'.workers[i])
  {
    hide SerPush, SentFor, Rpc.Inv, Held, FrameOk, Honest;
    forall i | 0 <= i < |g'.workers| && g'.workers[i].Busy? && i != w
      ensures Usable(g', g'.workers[i].c) && FrameOk(g', g'.workers[i])
    {
      OthersElsewhere(g, w, i);
    }
  }

  lemma ServerKept(g: State, w: nat)
    requires Inv(g) && At(g.workers, w) && Usable(g, g.workers[w].c) && g.workers[w].c in g.server.out
    ensures var g' := DoStep(g, w); var c := g.workers[w].c;
            && Rpc.Inv(g'.server)
            && g'.server.out == (if g.workers[w].at.Finishing? then g.server.out - multiset{c} else g.server.out)
            && g'.server.ctxs.Keys == g.server.ctxs.Keys
            && (forall d <- g.server.ctxs | d != c :: g'.server.ctxs[d] == g.server.ctxs[d])
  {
    hide SerPush, SentFor, Rpc.Inv;
    match g.workers[w].at
    case SetDone(_) => InvMark(g.server, g.workers[w].c);
    case Finishing(status) => InvFinish(g.server, g.workers[w].c, status);
    case _ =>
  }

  /** The worker's own context and frame after its step. */
  lemma StepMoves(g: State, w: nat)
    requires Inv(g) && At(g.workers, w) && Usable(g, g.workers[w].c)
    ensures var g' := DoStep(g, w); var c := g.workers[w].c;
            && c in g'.server.ctxs && Honest(g', c)
            && (g'.workers[w].Busy? ==> g'.workers[w].c == c && Usable(g', c) && FrameOk(g', g'.workers[w]))
  {
    hide SerPush;
    HeldIsOut(g, w);
    var g', c := DoStep(g, w), g.workers[w].c;
    assert CtxOk(g.server, c);
    if g.workers[w].at.Send? {
      var ws, uid := g.workers[w].at.ws, ReqOf(g, c).toUid;
      assert Sent(ws, uid, SerPush(ReqOf(g, c)), IsRegistered(g, uid, ws)) in g'.sent;
      assert SentFor(g', ReqOf(g, c));
    } else if SentFor(g, ReqOf(g, c)) {
      SentKept(g, g', ReqOf(g, c));
    }
  }

  lemma InvBegin(g: State, w: nat, c: Id)
    requires Inv(g) && Free(g.workers, w) && c in g.server.pool
    ensures Inv(g.(workers := g.workers[w := Busy(c, Got)], server := Take(g.server, c)))
  {
    hide SerPush, SentFor, Held, Rpc.Inv;
    var g' := g.(workers := g.workers[w := Busy(c, Got)], server := Take(g.server, c));
    Pooled(g, c);
    InvTake(g.server, c);
    Update(g.workers, w, Busy(c, Got));
    Carry(g, g', {});
  }

  lemma Pooled(g: State, c: Id)
    requires Inv(g) && c in g.server.pool
    ensures Rpc.Live(g.server, c) && CtxOk(g.server, c)
  {
    assert Total(g.server, c) >= 1;
  }

  lemma InvSockets(g: State, e: Event)
    requires Inv(g) && Possible(g, e) && (e.Open? || e.Close?)
    ensures Inv(Apply(g, e))
  {
    hide SerPush, SentFor, Held, Rpc.Inv;
    Carry(g, Apply(g, e), {});
  }

  lemma InvStep(g: State, e: Event)
    requires Inv(g) && Possible(g, e) && Live(g, e)
    ensures Inv(Apply(g, e))
  {
    hide Inv;
    match e
    case Turn(c, n) => Turned(g, c, n);
    case Begin(w, c) => InvBegin(g, w, c);
    case Step(w) => InvWorker(g, w);
    case _ => InvSockets(g, e);
  }

  lemma Turned(g: State, c: Id, n: Id)
    requires Inv(g) && c in g.server.cq && n !in g.server.ctxs && Usable(g, c)
    ensures Inv(g.(server := Next(g.server, c, n)))
  {
    hide SerPush, SentFor, Held, Rpc.Inv, FrameOk, Honest;
    InvNext(g.server, c, n);
    var g' := g.(server := Next(g.server, c, n));
    Carry(g, g', {c, n});
    assert Honest(g, c);
    Answers(g, g', c);
    NewIsHonest(g', n);
    forall i | 0 <= i < |g.workers| && g.workers[i].Busy?
      ensures Usable(g', g.workers[i].c) && FrameOk(g', g.workers[i])
    {
      HeldElsewhere(g, i, c);
    }
  }

  lemma NewIsHonest(g: State, n: Id)
    ensures n in g.server.ctxs && g.server.ctxs[n].finished == [] ==> Honest(g, n)
  {
    hide SentFor;
  }

  /** A queued context is with no thread. */
  lemma HeldElsewhere(g: State, i: nat, c: Id)
    requires Inv(g) && At(g.workers, i) && c in g.server.cq
    ensures g.workers[i].c != c
  {
    hide SentFor, Held, FrameOk, Honest;
    HeldIsOut(g, i);
    assert Total(g.server, c) <= 1;
  }

  /** A context keeps its honest answer when only its flags change. */
  lemma Answers(g: State, g': State, c: Id)
    requires c in g.server.ctxs && c in g'.server.ctxs && Honest(g, c) && Remembers(g, g')
    requires g'.server.ctxs[c].req == g.server.ctxs[c].req && g'.server.ctxs[c].finished == g.server.ctxs[c].finished
    ensures Honest(g', c)
  {
    hide SerPush, SentFor;
    var x := g.server.ctxs[c];
    if OK in x.finished { SentKept(g, g', x.req.value.req); }
  }

  /** A request comes in from the network. */
  lemma InvInbound(g: State, c: Id, r: Inbound)
    requires Inv(g) && c in g.server.armed
    ensures Rpc.Live(g.server, c) && Inv(g.(server := Arrive(g.server, c, r)))
  {
    hide SerPush, SentFor;
    InvArrive(g.server, c, r);
    var g' := g.(server := Arrive(g.server, c, r));
    assert CtxOk(g.server, c);
    Carry(g, g', {c});
    forall i | 0 <= i < |g.workers| && g.workers[i].Busy?
      ensures Usable(g', g.workers[i].c) && FrameOk(g', g.workers[i])
    {
      HeldIsOut(g, i);
      assert Total(g.server, c) <= 1;
    }
  }

  /** Requests and given answers stay as they are. */
  ghost predicate AnswersStay(g: State, g': State) {
    (forall c <- g.server.ctxs :: SameAnswer(g, g', c)) && Remembers(g, g')
  }

  ghost predicate NoArrival(g: State, g': State) {
    forall c <- g'.server.ctxs | g'.server.ctxs[c].req.Some? :: c in g.server.ctxs && g.server.ctxs[c].req.Some?
  }

  predicate SameAnswer(g: State, g': State, c: Id)
    requires c in g.server.ctxs
  {
    && c in g'.server.ctxs
    && var (x, x') := (g.server.ctxs[c], g'.server.ctxs[c]);
       && (x.req.Some? ==> x'.req == x.req) && (x.finished != [] ==> x'.finished == x.finished)
  }

  lemma OneAnswer(g: State, g': State, c: Id, x: Ctx<Inbound>)
    requires g'.server.ctxs == g.server.ctxs[c := x] && Remembers(g, g')
    requires if c in g.server.ctxs then SameAnswer(g, g', c) && g.server.ctxs[c].req == x.req else x.req.None?
    ensures AnswersStay(g, g') && NoArrival(g, g')
  {
  }

  lemma SameServer(g: State, g': State)
    requires g'.server.ctxs == g.server.ctxs && Remembers(g, g')
    ensures AnswersStay(g, g') && NoArrival(g, g')
  {
  }

  lemma StepKeepsAnswers(g: State, e: Event)
    requires Inv(g) && Possible(g, e) && Live(g, e)
    ensures AnswersStay(g, Apply(g, e)) && NoArrival(g, Apply(g, e))
  {
    hide Inv, AnswersStay, NoArrival, SerPush;
    var g' := Apply(g, e);
    match e
    case Turn(c, n) =>
      OneAnswer(g, g', if g.server.ctxs[c].done then c else n, g'.server.ctxs[if g.server.ctxs[c].done then c else n]);
    case Step(w) => WorkerKeepsAnswers(g, w);
    case _ => SameServer(g, g');
  }

  lemma WorkerKeepsAnswers(g: State, w: nat)
    requires Inv(g) && At(g.workers, w) && Usable(g, g.workers[w].c)
    ensures AnswersStay(g, DoStep(g, w)) && NoArrival(g, DoStep(g, w))
  {
    hide AnswersStay, NoArrival, SerPush, Inv, Remembers;
    var g', c := DoStep(g, w), g.workers[w].c;
    NotFinished(g, w);
    StepFrame(g, w);
    OneAnswer(g, g', c, g'.server.ctxs[c]);
  }

  lemma NotFinished(g: State, w: nat)
    requires Inv(g) && At(g.workers, w) && Usable(g, g.workers[w].c)
    ensures g.server.ctxs[g.workers[w].c].finished == []
  {
    hide SerPush, SentFor, Held, FrameOk, Honest;
    HeldIsOut(g, w);
    assert CtxOk(g.server, g.workers[w].c);
  }
}
