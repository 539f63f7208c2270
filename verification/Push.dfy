/** The push server (server/push/push_server.cc, async_gate_client.cc): a pooled task looks the
    receiver's gate up and calls it; the completion thread of the gate client relays the answer from
    its own completion queue to the server's. */
module Push {
  import opened Options
  import opened Wire
  import opened Rpc

  type Address = bytes

  type Stub = nat  // a stub, by address

  /** `GateService::NewStub` allocates a stub and returns it. */
  function NewStub(made: Stub): Option<Stub> {
    Some(made)
  }

  // ---------------------------------------------------------------- state and steps

  /** What came back for a call: the status, and which context of which gate answered (None when the
      connection broke). */
  datatype Back = Back(status: Status, from: Option<(Address, Id)>)

  /** A context's request and the fields for the call to the gate. `looked` is history: what Redis
      said. */
  datatype Job = Job(inbound: Inbound, looked: Option<Option<Address>>, target: Option<Address>, back: Option<Back>)

  function NewJob(r: Inbound): Job {
    Job(r, None, None, None)
  }

  /** Program points of the pooled task and of the completion thread. */
  datatype Point =
    | Look                    // hget
    | Offline                 // done = true
    | Refuse                  // Finish(NOT_FOUND)
    | Find(to: Address)                  // stubs_.find, locked
    | Fetch(to: Address)                 // iter->second, after the lock was released
    | Prepare(to: Address, stub: Stub)   // PrepareAsyncPush on that stub
    | Connect(to: Address)               // NewStub, and PrepareAsyncPush on the new stub
    | NoStub                             // the branch for a null stub
    | Store(to: Address, stub: Stub)     // stubs_[gate_address] = std::move(stub), locked
    | Call(to: Address)                  // StartCall, Finish on the client's side
    | Relay                              // AsyncRpcComplete: done = true
    | Answer                             // Finish(status)

  /** `calls` and `ready` are the outgoing calls and the client's completion queue; `made` counts the
      stubs that were allocated. `lost` are the contexts whose task died with an exception: nothing
      points to them any more. */
  datatype State = State(
    server: Server<Job>, workers: seq<Worker<Point>>, stubs: map<Address, Stub>, made: nat, calls: multiset<Id>,
    ready: multiset<Id>, lost: multiset<Id>)

  datatype Event =
    | Turn(c: Id, n: Id)
    | Begin(w: nat, c: Id)
    | Lookup(w: nat, value: Option<Address>)
    | LookupFails(w: nat)          // hget throws, and the packaged_task swallows it
    | Step(w: nat)
    | Complete(w: nat, c: Id)      // cq_.Next in AsyncRpcComplete

  predicate Possible(p: State, e: Event) {
    match e
    case Turn(c, n) => c in p.server.cq && n !in p.server.ctxs
    case Begin(w, c) => Free(p.workers, w) && c in p.server.pool
    case Lookup(w, _) => At(p.workers, w) && p.workers[w].at.Look?
    case LookupFails(w) => At(p.workers, w) && p.workers[w].at.Look?
    case Step(w) => At(p.workers, w) && !p.workers[w].at.Look?
    case Complete(w, c) => Free(p.workers, w) && c in p.ready
  }

  predicate Usable(p: State, c: Id) {
    Rpc.Live(p.server, c) && p.server.ctxs[c].req.Some?
  }

  predicate Live(p: State, e: Event)
    requires Possible(p, e)
  {
    match e
    case Turn(c, _) => Usable(p, c)
    case Lookup(w, _) => Usable(p, p.workers[w].c)
    case LookupFails(w) => Usable(p, p.workers[w].c)
    case Step(w) => Usable(p, p.workers[w].c) && Placed(p, p.workers[w].at)
    case _ => true
  }

  /** The iterator that the thread got from `find` points to an entry. */
  predicate Placed(p: State, at: Point) {
    at.Fetch? ==> at.to in p.stubs
  }

  function JobOf(p: State, c: Id): Job
    requires Usable(p, c)
  {
    p.server.ctxs[c].req.value
  }

  /** The context's `status`, which starts out as OK. */
  function StatusOf(j: Job): Status {
    if j.back.Some? then j.back.value.status else OK
  }

  predicate Known(value: Option<Address>) {
    value.Some? && value.value != []
  }

  function Move(p: State, w: nat, f: Worker<Point>, server: Server<Job>): State
    requires w < |p.workers|
  {
    p.(workers := p.workers[w := f], server := server)
  }

  function DoLookup(p: State, w: nat, value: Option<Address>): State
    requires At(p.workers, w) && Usable(p, p.workers[w].c)
  {
    var c := p.workers[w].c;
    Move(p, w, Busy(c, if Known(value) then Find(value.value) else Offline),
         Note(p.server, c, JobOf(p, c).(looked := Some(value))))
  }

  function DoStep(p: State, w: nat): State
    requires At(p.workers, w) && !p.workers[w].at.Look? && Usable(p, p.workers[w].c) && Placed(p, p.workers[w].at)
  {
    var c, s := p.workers[w].c, p.server;
    match p.workers[w].at
    case Offline => Move(p, w, Busy(c, Refuse), Mark(s, c))
    case Refuse => Move(p, w, Idle, Finish(s, c, NotFound))
    case Find(to) => Move(p, w, Busy(c, if to in p.stubs then Fetch(to) else Connect(to)), s)
    case Fetch(to) => Move(p, w, Busy(c, Prepare(to, p.stubs[to])), s)
    case Prepare(to, _) => Move(p, w, Busy(c, Call(to)), s)
    case Connect(to) =>
      (match NewStub(p.made)
       case Some(stub) => Move(p, w, Busy(c, Store(to, stub)), s).(made := p.made + 1)
       case None => Move(p, w, Busy(c, NoStub), s))
    case NoStub => p
    case Store(to, stub) => Move(p, w, Busy(c, Call(to)), s).(stubs := p.stubs[to := stub])
    case Call(to) => Move(p, w, Idle, Note(s, c, JobOf(p, c).(target := Some(to)))).(calls := p.calls + multiset{c})
    case Relay => Move(p, w, Busy(c, Answer), Mark(s, c))
    case Answer => Move(p, w, Idle, Finish(s, c, StatusOf(JobOf(p, c))))
  }

  function Apply(p: State, e: Event): State
    requires Possible(p, e) && Live(p, e)
  {
    match e
    case Turn(c, n) => p.(server := Next(p.server, c, n))
    case Begin(w, c) => Move(p, w, Busy(c, Look), Take(p.server, c))
    case Lookup(w, value) => DoLookup(p, w, value)
    case LookupFails(w) => Move(p, w, Idle, p.server).(lost := p.lost + multiset{p.workers[w].c})
    case Step(w) => DoStep(p, w)
    case Complete(w, c) => Move(p, w, Busy(c, Relay), p.server).(ready := p.ready - multiset{c})
  }

  /** The gate's answer, or the failure of the connection, reaches the client. */
  function Return(p: State, c: Id, back: Back): State
    requires Usable(p, c)
  {
    p.(calls := p.calls - multiset{c}, ready := p.ready + multiset{c},
       server := Note(p.server, c, JobOf(p, c).(back := Some(back))))
  }

  // ---------------------------------------------------------------- the invariant

  predicate JobAt(j: Job, done: bool, at: Point) {
    && (done <==> at.Refuse? || at.Answer?)
    && match at
       case Look => j == NewJob(j.inbound)
       case Offline => j.looked.Some? && !Known(j.looked.value)
       case Refuse => j.looked.Some? && !Known(j.looked.value)
       case Find(to) => to != [] && j == Job(j.inbound, Some(Some(to)), None, None)
       case Fetch(to) => to != [] && j == Job(j.inbound, Some(Some(to)), None, None)
       case Prepare(to, _) => to != [] && j == Job(j.inbound, Some(Some(to)), None, None)
       case Connect(to) => to != [] && j == Job(j.inbound, Some(Some(to)), None, None)
       case Store(to, _) => to != [] && j == Job(j.inbound, Some(Some(to)), None, None)
       case Call(to) => to != [] && j == Job(j.inbound, Some(Some(to)), None, None)
       case NoStub => false
       case Relay => Returned(j)
       case Answer => Returned(j)
  }

  predicate Called(j: Job) {
    j.target.Some? && j.target.value != [] && j.looked == Some(j.target)
  }

  predicate Returned(j: Job) {
    Called(j) && j.back.Some?
  }

  /** The answer that was given is the right one: NOT_FOUND if Redis had no gate, and what came back
      from the gate otherwise. */
  predicate Relayed(x: Ctx<Job>) {
    x.finished != [] ==>
      && x.req.Some? && x.req.value.looked.Some?
      && (!Known(x.req.value.looked.value) ==> x.finished == [NotFound])
      && (Known(x.req.value.looked.value) ==> Returned(x.req.value) && x.finished == [x.req.value.back.value.status])
  }

  ghost predicate FrameOk(p: State, f: Worker<Point>) {
    f.Busy? ==> Usable(p, f.c) && JobAt(JobOf(p, f.c), p.server.ctxs[f.c].done, f.at) && Placed(p, f.at)
  }

  /** The invariant at one context. */
  ghost predicate Here(p: State, c: Id) {
    && (c in p.calls ==> Usable(p, c) && !p.server.ctxs[c].done && Called(JobOf(p, c)) && JobOf(p, c).back.None?)
    && (c in p.ready ==> Usable(p, c) && !p.server.ctxs[c].done && Returned(JobOf(p, c)))
    && (c in p.lost ==> Usable(p, c) && !p.server.ctxs[c].done && JobOf(p, c) == NewJob(JobOf(p, c).inbound))
    && (c in p.server.pool || (c in p.server.cq && c in p.server.ctxs && !p.server.ctxs[c].done) ==>
          Usable(p, c) && JobOf(p, c) == NewJob(JobOf(p, c).inbound))
    && (c in p.server.ctxs ==> Relayed(p.server.ctxs[c]))
  }

  ghost predicate OutOk(p: State) {
    forall c :: p.server.out[c] == Held(p.workers, c) + p.calls[c] + p.ready[c] + p.lost[c]
  }

  ghost predicate FramesOk(p: State) {
    forall i | 0 <= i < |p.workers| :: FrameOk(p, p.workers[i])
  }

  ghost predicate AllHere(p: State) {
    forall c :: Here(p, c)
  }

  ghost predicate Inv(p: State) {
    Rpc.Inv(p.server) && OutOk(p) && FramesOk(p) && AllHere(p)
  }

  function Boot(first: Id, threads: nat): State {
    State(Rpc.Start(first), AllIdle(threads), map[], 0, multiset{}, multiset{}, multiset{})
  }

  lemma InvBoot(first: Id, threads: nat)
    ensures Inv(Boot(first, threads))
  {
    forall c ensures Held(Boot(first, threads).workers, c) == 0 { NothingHeld<Point>(threads, c); }
    InvStart<Job>(first);
  }

  /** In how many places there is a pointer to `c`. */
  function Pointers(p: State, c: Id): nat {
    p.server.armed[c] + p.server.cq[c] + p.server.pool[c] + Held(p.workers, c) + p.calls[c] + p.ready[c]
  }

  lemma OnlyHere(p: State, c: Id)
    requires Inv(p)
    requires || c in p.server.out || c in p.server.armed || c in p.server.cq || c in p.server.pool
             || c in p.calls || c in p.ready || c in p.lost
    ensures Rpc.Live(p.server, c) && CtxOk(p.server, c)
    ensures Pointers(p, c) + p.lost[c] == 1
  {
    hide Held;
    assert p.server.out[c] == Held(p.workers, c) + p.calls[c] + p.ready[c] + p.lost[c];
    assert Total(p.server, c) == if Rpc.Live(p.server, c) then 1 else 0;
  }

  lemma AlwaysLive(p: State, e: Event)
    requires Inv(p) && Possible(p, e)
    ensures Live(p, e)
  {
    hide Held;
    match e
    case Turn(c, _) => OnlyHere(p, c);
    case Lookup(w, _) => assert FrameOk(p, p.workers[w]);
    case LookupFails(w) => assert FrameOk(p, p.workers[w]);
    case Step(w) => assert FrameOk(p, p.workers[w]);
    case _ =>
  }

  // ---------------------------------------------------------------- steps are local

  /** Nothing but the contexts C and worker w changes. */
  ghost predicate Only(p: State, p': State, C: set<Id>, w: int) {
    && |p'.workers| == |p.workers|
    && (forall i | 0 <= i < |p.workers| && i != w :: p'.workers[i] == p.workers[i])
    && (forall d | d !in C :: SameAt(p, p', d))
    && p.stubs.Keys <= p'.stubs.Keys
  }

  ghost predicate SameAt(p: State, p': State, d: Id) {
    && (d in p'.server.ctxs <==> d in p.server.ctxs) && (d in p.server.ctxs ==> p'.server.ctxs[d] == p.server.ctxs[d])
    && p'.calls[d] == p.calls[d] && p'.ready[d] == p.ready[d] && p'.lost[d] == p.lost[d]
    && p'.server.cq[d] == p.server.cq[d] && p'.server.pool[d] == p.server.pool[d]
  }

  lemma Local(p: State, p': State, C: set<Id>, w: int)
    requires Inv(p) && Only(p, p', C, w) && Rpc.Inv(p'.server) && OutOk(p')
    requires forall c <- C :: Here(p', c)
    requires 0 <= w < |p.workers| ==> FrameOk(p', p'.workers[w])
    requires forall i | 0 <= i < |p.workers| && i != w && p.workers[i].Busy? :: p.workers[i].c !in C
    ensures Inv(p')
  {
    hide Rpc.Inv, OutOk, Held, Relayed, JobAt;
    forall c ensures Here(p', c) {
      if c !in C { assert SameAt(p, p', c) && Here(p, c); }
    }
    forall i | 0 <= i < |p'.workers| ensures FrameOk(p', p'.workers[i]) {
      if i != w {
        assert FrameOk(p, p.workers[i]);
        if p.workers[i].Busy? { assert SameAt(p, p', p.workers[i].c); }
      }
    }
  }

  /** What every step of worker w starts from. */
  lemma Setup(p: State, w: nat, f: Worker<Point>)
    requires Inv(p) && At(p.workers, w) && (f.Busy? ==> f.c == p.workers[w].c)
    ensures var c := p.workers[w].c;
            && FrameOk(p, p.workers[w]) && Here(p, c) && Rpc.Live(p.server, c) && CtxOk(p.server, c)
            && c in p.server.out && p.calls[c] == p.ready[c] == p.lost[c] == 0
            && p.server.armed[c] == p.server.cq[c] == p.server.pool[c] == 0
            && (forall i | 0 <= i < |p.workers| && i != w && p.workers[i].Busy? :: p.workers[i].c !in {c})
    ensures forall d :: Held(p.workers[w := f], d)
                     == Held(p.workers, d) - (if !f.Busy? && d == p.workers[w].c then 1 else 0)
  {
    hide Held, JobAt, Relayed;
    var c := p.workers[w].c;
    Update(p.workers, w, f);
    assert p.server.out[c] == Held(p.workers, c) + p.calls[c] + p.ready[c] + p.lost[c];
    OnlyHere(p, c);
    forall i | 0 <= i < |p.workers| && i != w && p.workers[i].Busy? ensures p.workers[i].c !in {c} {
      if p.workers[i].c == c {
        Together(p.workers, if i < w then i else w, if i < w then w else i);
      }
    }
  }

  /** What a step starts from that takes context c out of a container (or into one). */
  lemma Unheld(p: State, c: Id)
    requires Inv(p) && (c in p.server.armed || c in p.server.cq || c in p.server.pool || c in p.calls || c in p.ready)
    ensures Here(p, c) && Rpc.Live(p.server, c) && CtxOk(p.server, c) && Held(p.workers, c) == 0 && c !in p.lost
    ensures p.server.armed[c] + p.server.cq[c] + p.server.pool[c] + p.calls[c] + p.ready[c] == 1
    ensures forall i | 0 <= i < |p.workers| && p.workers[i].Busy? :: p.workers[i].c != c
  {
    hide Held, JobAt, Relayed;
    OnlyHere(p, c);
    forall i | 0 <= i < |p.workers| && p.workers[i].Busy? ensures p.workers[i].c != c {
      Update(p.workers, i, Idle);
    }
  }

  lemma OutNow(p: State, c: Id)
    requires OutOk(p)
    ensures p.server.out[c] == Held(p.workers, c) + p.calls[c] + p.ready[c] + p.lost[c]
  {
  }

  lemma InvTurn(p: State, c: Id, n: Id)
    requires Inv(p) && c in p.server.cq && n !in p.server.ctxs && Usable(p, c)
    ensures Inv(p.(server := Next(p.server, c, n)))
  {
    hide Held, JobAt, Rpc.Inv, FramesOk, AllHere, Here, Only;
    var p' := p.(server := Next(p.server, c, n));
    Unheld(p, c);
    Absent(p, n);
    InvNext(p.server, c, n);
    OnlyTurn(p, c, n);
    TurnedHere(p, c, n);
    Local(p, p', {c, n}, -1);
  }

  lemma OnlyTurn(p: State, c: Id, n: Id)
    requires c in p.server.cq && n !in p.server.ctxs && Usable(p, c)
    ensures Only(p, p.(server := Next(p.server, c, n)), {c, n}, -1)
  {
  }

  lemma TurnedHere(p: State, c: Id, n: Id)
    requires Here(p, c) && c in p.server.cq && n !in p.server.ctxs && Usable(p, c) && CtxOk(p.server, c)
    requires p.server.armed[c] + p.server.cq[c] + p.server.pool[c] + p.calls[c] + p.ready[c] == 1 && c !in p.lost
    requires n !in p.calls && n !in p.ready && n !in p.lost && n !in p.server.cq && n !in p.server.pool
    ensures var p' := p.(server := Next(p.server, c, n)); Here(p', c) && Here(p', n)
  {
    hide Returned, Known;
  }

  lemma Absent(p: State, n: Id)
    requires Inv(p) && n !in p.server.ctxs
    ensures n !in p.calls && n !in p.ready && n !in p.lost && n !in p.server.cq && n !in p.server.pool
    ensures forall i | 0 <= i < |p.workers| && p.workers[i].Busy? :: p.workers[i].c != n
  {
    hide Held, JobAt, Relayed;
    assert Here(p, n) && Total(p.server, n) == 0;
    forall i | 0 <= i < |p.workers| && p.workers[i].Busy? ensures p.workers[i].c != n {
      assert FrameOk(p, p.workers[i]);
    }
  }

  lemma InvBegin(p: State, w: nat, c: Id)
    requires Inv(p) && Free(p.workers, w) && c in p.server.pool
    ensures Inv(Move(p, w, Busy(c, Look), Take(p.server, c)))
  {
    hide Held, Relayed, Rpc.Inv, FramesOk, AllHere;
    var p' := Move(p, w, Busy(c, Look), Take(p.server, c));
    Unheld(p, c);
    InvTake(p.server, c);
    Update(p.workers, w, Busy(c, Look));
    Local(p, p', {c}, w);
  }

  lemma InvLookup(p: State, w: nat, value: Option<Address>)
    requires Inv(p) && At(p.workers, w) && p.workers[w].at.Look? && Usable(p, p.workers[w].c)
    ensures Inv(DoLookup(p, w, value))
  {
    hide Held, Rpc.Inv, FramesOk, AllHere;
    var p', c := DoLookup(p, w, value), p.workers[w].c;
    Setup(p, w, p'.workers[w]);
    InvNote(p.server, c, JobOf(p, c).(looked := Some(value)));
    Local(p, p', {c}, w);
  }

  /** Steps that leave the server alone. */
  predicate Quiet(at: Point) {
    at.Find? || at.Fetch? || at.Prepare? || at.Connect? || at.NoStub? || at.Store?
  }

  lemma QuietServer(p: State, w: nat)
    requires At(p.workers, w) && Usable(p, p.workers[w].c) && Placed(p, p.workers[w].at) && Quiet(p.workers[w].at)
    ensures var p' := DoStep(p, w);
            && p' == p.(workers := p'.workers, stubs := p'.stubs, made := p'.made) && p.stubs.Keys <= p'.stubs.Keys
            && |p'.workers| == |p.workers| && p'.workers == p.workers[w := p'.workers[w]]
            && p'.workers[w].Busy? && p'.workers[w].c == p.workers[w].c
    ensures FrameOk(p, p.workers[w]) ==> FrameOk(DoStep(p, w), DoStep(p, w).workers[w])
  {
  }

  lemma InvQuietStep(p: State, w: nat)
    requires Inv(p) && At(p.workers, w) && Usable(p, p.workers[w].c) && Placed(p, p.workers[w].at)
    requires Quiet(p.workers[w].at)
    ensures Inv(DoStep(p, w))
  {
    hide Held, Rpc.Inv, FramesOk, AllHere, Relayed, JobAt, DoStep;
    var p' := DoStep(p, w);
    QuietServer(p, w);
    Setup(p, w, p'.workers[w]);
    Local(p, p', {p.workers[w].c}, w);
  }

  lemma InvLookupFails(p: State, w: nat)
    requires Inv(p) && At(p.workers, w) && p.workers[w].at.Look?
    ensures Inv(Move(p, w, Idle, p.server).(lost := p.lost + multiset{p.workers[w].c}))
  {
    hide Held, Rpc.Inv, FramesOk, AllHere;
    var c := p.workers[w].c;
    var p' := Move(p, w, Idle, p.server).(lost := p.lost + multiset{c});
    Setup(p, w, Idle);
    Local(p, p', {c}, w);
  }

  lemma InvCall(p: State, w: nat)
    requires Inv(p) && At(p.workers, w) && Usable(p, p.workers[w].c) && p.workers[w].at.Call?
    ensures Inv(DoStep(p, w))
  {
    hide Held, Rpc.Inv, FramesOk, AllHere;
    var p', c := DoStep(p, w), p.workers[w].c;
    Setup(p, w, Idle);
    InvNote(p.server, c, JobOf(p, c).(target := Some(p.workers[w].at.to)));
    Local(p, p', {c}, w);
  }

  lemma InvMarkStep(p: State, w: nat)
    requires Inv(p) && At(p.workers, w) && Usable(p, p.workers[w].c)
    requires p.workers[w].at.Offline? || p.workers[w].at.Relay?
    ensures Inv(DoStep(p, w))
  {
    hide Held, Rpc.Inv, FramesOk, AllHere;
    var p', c := DoStep(p, w), p.workers[w].c;
    Setup(p, w, p'.workers[w]);
    InvMark(p.server, c);
    Local(p, p', {c}, w);
  }

  /** A thread finishes its marked context with the right status. */
  lemma InvFinished(p: State, w: nat, status: Status)
    requires Inv(p) && At(p.workers, w) && Usable(p, p.workers[w].c) && p.server.ctxs[p.workers[w].c].done
    requires Relayed(p.server.ctxs[p.workers[w].c].(finished := [status]))
    ensures Inv(Move(p, w, Idle, Finish(p.server, p.workers[w].c, status)))
  {
    hide Held, Rpc.Inv, FramesOk, AllHere, Relayed, JobAt;
    var c := p.workers[w].c;
    Setup(p, w, Idle);
    InvFinish(p.server, c, status);
    assert Finish(p.server, c, status).ctxs[c] == p.server.ctxs[c].(finished := [status]);
    Local(p, Move(p, w, Idle, Finish(p.server, c, status)), {c}, w);
  }

  lemma Frame(p: State, w: nat)
    requires Inv(p) && At(p.workers, w)
    ensures FrameOk(p, p.workers[w])
  {
    hide Rpc.Inv, OutOk, AllHere, JobAt;
  }

  lemma InvRefuse(p: State, w: nat)
    requires Inv(p) && At(p.workers, w) && Usable(p, p.workers[w].c) && p.workers[w].at.Refuse?
    ensures Inv(DoStep(p, w))
  {
    hide Inv, Returned;
    Frame(p, w);
    InvFinished(p, w, NotFound);
  }

  lemma InvAnswer(p: State, w: nat)
    requires Inv(p) && At(p.workers, w) && Usable(p, p.workers[w].c) && p.workers[w].at.Answer?
    ensures Inv(DoStep(p, w))
  {
    hide Inv;
    Frame(p, w);
    InvFinished(p, w, StatusOf(JobOf(p, p.workers[w].c)));
  }

  lemma InvComplete(p: State, w: nat, c: Id)
    requires Inv(p) && Free(p.workers, w) && c in p.ready
    ensures Inv(Move(p, w, Busy(c, Relay), p.server).(ready := p.ready - multiset{c}))
  {
    hide Held, Rpc.Inv, FramesOk, AllHere, Relayed;
    var p' := Move(p, w, Busy(c, Relay), p.server).(ready := p.ready - multiset{c});
    Unheld(p, c);
    Update(p.workers, w, Busy(c, Relay));
    Local(p, p', {c}, w);
  }

  lemma InvStep(p: State, e: Event)
    requires Inv(p) && Possible(p, e) && Live(p, e)
    ensures Inv(Apply(p, e))
  {
    hide Inv;
    match e
    case Turn(c, n) => InvTurn(p, c, n);
    case Begin(w, c) => InvBegin(p, w, c);
    case Lookup(w, value) => InvLookup(p, w, value);
    case LookupFails(w) => InvLookupFails(p, w);
    case Complete(w, c) => InvComplete(p, w, c);
    case Step(w) =>
      match p.workers[w].at {
        case Offline => InvMarkStep(p, w);
        case Relay => InvMarkStep(p, w);
        case Refuse => InvRefuse(p, w);
        case Answer => InvAnswer(p, w);
        case Call(_) => InvCall(p, w);
        case _ => InvQuietStep(p, w);
      }
  }

  /** A request comes in from the network. */
  lemma InvInbound(p: State, c: Id, r: Inbound)
    requires Inv(p) && c in p.server.armed
    ensures Rpc.Live(p.server, c) && Inv(p.(server := Arrive(p.server, c, NewJob(r))))
  {
    hide Held, Rpc.Inv, FramesOk, AllHere, JobAt;
    Unheld(p, c);
    InvArrive(p.server, c, NewJob(r));
    var p' := p.(server := Arrive(p.server, c, NewJob(r)));
    Local(p, p', {c}, -1);
  }

  lemma InvReturn(p: State, c: Id, back: Back)
    requires Inv(p) && c in p.calls
    ensures Usable(p, c) && Inv(Return(p, c, back))
  {
    hide Held, Rpc.Inv, FramesOk, AllHere, JobAt;
    Unheld(p, c);
    OutNow(p, c);
    InvNote(p.server, c, JobOf(p, c).(back := Some(back)));
    Local(p, Return(p, c, back), {c}, -1);
  }

  /** Requests and answers from the gate are only set by the network, and a target is set once. */
  ghost predicate JobsStay(p: State, p': State) {
    && (forall c <- p.server.ctxs :: SameJob(p, p', c))
    && (forall c <- p'.server.ctxs | p'.server.ctxs[c].req.Some? :: c in p.server.ctxs)
  }

  predicate SameJob(p: State, p': State, c: Id)
    requires c in p.server.ctxs
  {
    && c in p'.server.ctxs
    && var (x, x') := (p.server.ctxs[c], p'.server.ctxs[c]);
       && (x.req.Some? <==> x'.req.Some?)
       && (x.req.Some? ==> x'.req.value.inbound == x.req.value.inbound && x'.req.value.back == x.req.value.back)
       && (x.req.Some? && x.req.value.target.Some? ==> x'.req.value.target == x.req.value.target)
  }

  lemma OneJob(p: State, p': State, c: Id, x: Ctx<Job>)
    requires p'.server.ctxs == p.server.ctxs[c := x]
    requires if c in p.server.ctxs then SameJob(p, p', c) else x.req.None?
    ensures JobsStay(p, p')
  {
  }

  lemma StepKeepsJobs(p: State, e: Event)
    requires Inv(p) && Possible(p, e) && Live(p, e)
    ensures JobsStay(p, Apply(p, e))
  {
    hide Inv, JobsStay;
    var p' := Apply(p, e);
    match e
    case Turn(c, n) =>
      OneJob(p, p', if p.server.ctxs[c].done then c else n, p'.server.ctxs[if p.server.ctxs[c].done then c else n]);
    case Lookup(w, _) => OneJob(p, p', p.workers[w].c, p'.server.ctxs[p.workers[w].c]);
    case LookupFails(_) => SameServer(p, p');
    case Step(w) => WorkerKeepsJobs(p, w);
    case Begin(_, _) => SameServer(p, p');
    case Complete(_, _) => SameServer(p, p');
  }

  lemma SameServer(p: State, p': State)
    requires p'.server.ctxs == p.server.ctxs
    ensures JobsStay(p, p')
  {
  }

  lemma WorkerKeepsJobs(p: State, w: nat)
    requires Inv(p) && At(p.workers, w) && !p.workers[w].at.Look? && Usable(p, p.workers[w].c)
    requires Placed(p, p.workers[w].at)
    ensures JobsStay(p, DoStep(p, w))
  {
    hide JobsStay, StatusOf, Inv, DoStep;
    if Quiet(p.workers[w].at) {
      QuietServer(p, w);
      SameServer(p, DoStep(p, w));
    } else if p.workers[w].at.Call? {
      NotYetCalled(p, w);
      CallKeepsJob(p, w);
    } else {
      FlagKeepsJob(p, w);
    }
  }

  /** What the other steps do to the server. */
  lemma ServerMoves(p: State, w: nat)
    requires At(p.workers, w) && Usable(p, p.workers[w].c) && !p.workers[w].at.Look? && !Quiet(p.workers[w].at)
    ensures var (s, s', c) := (p.server, DoStep(p, w).server, p.workers[w].c);
            || s' == Mark(s, c) || s' == Finish(s, c, NotFound) || s' == Finish(s, c, StatusOf(JobOf(p, c)))
            || (p.workers[w].at.Call? && s' == Note(s, c, JobOf(p, c).(target := Some(p.workers[w].at.to))))
  {
    hide StatusOf, Mark, Finish, Note;
  }

  lemma NotYetCalled(p: State, w: nat)
    requires Inv(p) && At(p.workers, w) && p.workers[w].at.Call? && Usable(p, p.workers[w].c)
    ensures JobOf(p, p.workers[w].c).target.None?
  {
    hide Rpc.Inv, OutOk, AllHere;
    assert FrameOk(p, p.workers[w]);
  }

  lemma CallKeepsJob(p: State, w: nat)
    requires At(p.workers, w) && p.workers[w].at.Call? && Usable(p, p.workers[w].c)
    requires JobOf(p, p.workers[w].c).target.None?
    ensures JobsStay(p, DoStep(p, w))
  {
    hide JobsStay;
    var c := p.workers[w].c;
    OneJob(p, DoStep(p, w), c, DoStep(p, w).server.ctxs[c]);
  }

  /** Marking and finishing change flags only. */
  lemma FlagKeepsJob(p: State, w: nat)
    requires At(p.workers, w) && !p.workers[w].at.Look? && Usable(p, p.workers[w].c) && Placed(p, p.workers[w].at)
    requires !Quiet(p.workers[w].at) && !p.workers[w].at.Call?
    ensures JobsStay(p, DoStep(p, w))
  {
    hide JobsStay, StatusOf;
    var c := p.workers[w].c;
    OneJob(p, DoStep(p, w), c, DoStep(p, w).server.ctxs[c]);
  }
}
