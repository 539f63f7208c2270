/** The life of a stub in the push server's gate client (server/push/async_gate_client.cc): `iter->second` is
    read and used after the lock was released, while another thread that also missed the address may
    replace, and so destroy, that stub. */
module Stubs {
  import opened Options
  import opened Messages
  import opened Delivery
  import Rpc
  import Push
  import Transfer
  import Gate

  predicate Storing(p: Push.State, i: nat) {
    Rpc.At(p.workers, i) && p.workers[i].at.Store?
  }

  function StubAt(p: Push.State, i: nat): Push.Stub
    requires Storing(p, i)
  {
    p.workers[i].at.stub
  }

  /** The stub was made, and no thread is about to store it. */
  ghost predicate Settled(p: Push.State, stub: Push.Stub) {
    stub < p.made && forall i | Storing(p, i) :: StubAt(p, i) != stub
  }

  /** Stored stubs are settled; those about to be stored were made, each for one thread. */
  ghost predicate StubsOk(p: Push.State) {
    && (forall a <- p.stubs :: Settled(p, p.stubs[a]))
    && (forall i | Storing(p, i) :: StubAt(p, i) < p.made)
    && (forall i, j | Storing(p, i) && Storing(p, j) && StubAt(p, i) == StubAt(p, j) :: i == j)
  }

  /** The step puts a stub into the map. */
  predicate IsStore(p: Push.State, e: Push.Event) {
    e.Step? && Storing(p, e.w)
  }

  predicate IsConnect(p: Push.State, e: Push.Event) {
    e.Step? && Rpc.At(p.workers, e.w) && p.workers[e.w].at.Connect?
  }

  /** What a step does to the stubs. */
  lemma StubsMove(p: Push.State, e: Push.Event)
    requires Push.Possible(p, e) && Push.Live(p, e)
    ensures var p' := Push.Apply(p, e);
            && p'.made == (if IsConnect(p, e) then p.made + 1 else p.made)
            && p'.stubs == (if IsStore(p, e) then p.stubs[p.workers[e.w].at.to := StubAt(p, e.w)] else p.stubs)
            && (forall i | Storing(p', i) ::
                  if IsConnect(p, e) && i == e.w then StubAt(p', i) == p.made
                  else Storing(p, i) && StubAt(p', i) == StubAt(p, i) && !(IsStore(p, e) && i == e.w))
  {
    hide Push.StatusOf, Push.Known;
    if e.Step? {
      WorkersMove(p, e);
    } else {
      OtherStepsKeepStubs(p, e);
    }
  }

  /** Every step moves at most its own thread. */
  lemma WorkersMove(p: Push.State, e: Push.Event)
    requires Push.Possible(p, e) && Push.Live(p, e)
    ensures var p' := Push.Apply(p, e);
            if e.Turn? then p'.workers == p.workers else p'.workers == p.workers[e.w := p'.workers[e.w]]
  {
    hide Push.StatusOf, Push.Known;
  }

  lemma OtherStepsKeepStubs(p: Push.State, e: Push.Event)
    requires Push.Possible(p, e) && Push.Live(p, e) && !e.Step?
    ensures var p' := Push.Apply(p, e);
            && p'.stubs == p.stubs && p'.made == p.made
            && forall i | Storing(p', i) :: Storing(p, i) && StubAt(p', i) == StubAt(p, i)
  {
    NewFrame(p, e);
    WorkersMove(p, e);
    hide Push.Apply;
  }

  lemma NewFrame(p: Push.State, e: Push.Event)
    requires Push.Possible(p, e) && Push.Live(p, e) && !e.Step?
    ensures var p' := Push.Apply(p, e);
            p'.stubs == p.stubs && p'.made == p.made && (!e.Turn? ==> e.w < |p'.workers| && !Storing(p', e.w))
  {
    hide Push.Known, Rpc.Take, Rpc.Note, Rpc.Next;
  }

  lemma StubsStep(p: Push.State, e: Push.Event, stub: Push.Stub)
    requires StubsOk(p) && Push.Possible(p, e) && Push.Live(p, e)
    ensures StubsOk(Push.Apply(p, e))
    ensures Settled(p, stub) ==> Settled(Push.Apply(p, e), stub)
  {
    hide Push.Apply, Push.Possible, Push.Live;
    StubsMove(p, e);
  }

  lemma SameStubs(s: State, e: Event)
    requires Possible(s, e) && Live(s, e) && !e.P?
    ensures var p' := Apply(s, e).p; p'.workers == s.p.workers && p'.stubs == s.p.stubs && p'.made == s.p.made
  {
    hide Transfer.Apply, Gate.Apply, Transmitted, Transfer.Possible, Gate.Possible, Gate.Live,
         DoCallPush, DoReturn, DoCallGate, DoAnswer, Transfer.ReqOf;
    match e
    case CallPush(i, c) => Delivers(s, i, c, Transmitted(Transfer.ReqOf(s.t.calls[i].x)).value);
    case GateReplies(c, a, g) => Returns(s, c, Push.Back(s.gates[a].server.ctxs[g].finished[0], Some((a, g))));
    case GateBreaks(c, code) => Returns(s, c, Push.Back(Rpc.Broken(code), None));
    case PushReplies(i, c) => Untouched(s, i);
    case PushBreaks(i, code) => Untouched(s, i);
    case CallGate(c, a, g) => GateCalled(s, c, a, g);
    case _ =>
  }

  lemma Untouched(s: State, i: Rpc.Id)
    requires i in s.t.calls
    ensures forall status :: DoAnswer(s, i, status).p == s.p
  {
  }

  lemma GateCalled(s: State, c: Rpc.Id, a: Push.Address, g: Rpc.Id)
    requires a in s.gates && Rpc.Live(s.gates[a].server, g)
    ensures forall req :: DoCallGate(s, c, a, g, req).p == s.p
  {
  }

  lemma Delivers(s: State, i: Rpc.Id, c: Rpc.Id, req: PushReq)
    requires Rpc.Live(s.p.server, c)
    ensures var p' := DoCallPush(s, i, c, req).p;
            p'.workers == s.p.workers && p'.stubs == s.p.stubs && p'.made == s.p.made
  {
  }

  lemma Returns(s: State, c: Rpc.Id, back: Push.Back)
    requires Push.Usable(s.p, c)
    ensures var p' := DoReturn(s, c, back).p;
            p'.workers == s.p.workers && p'.stubs == s.p.stubs && p'.made == s.p.made
  {
  }

  lemma StubsKept(s: State, e: Event, stub: Push.Stub)
    requires Possible(s, e) && Live(s, e) && StubsOk(s.p)
    ensures StubsOk(Apply(s, e).p)
    ensures Settled(s.p, stub) ==> Settled(Apply(s, e).p, stub)
  {
    if e.P? {
      StubsStep(s.p, e.pe, stub);
    } else {
      SameStubs(s, e);
      SameMeans(s.p, Apply(s, e).p, stub);
    }
  }

  lemma SameMeans(p: Push.State, p': Push.State, stub: Push.Stub)
    requires StubsOk(p) && p'.workers == p.workers && p'.stubs == p.stubs && p'.made == p.made
    ensures StubsOk(p') && (Settled(p, stub) ==> Settled(p', stub))
  {
    assert forall i :: Storing(p', i) <==> Storing(p, i);
    assert forall i | Storing(p, i) :: StubAt(p', i) == StubAt(p, i);
    forall a <- p'.stubs ensures Settled(p', p'.stubs[a]) { assert Settled(p, p.stubs[a]); }
  }

  // ---------------------------------------------------------------- when a stub is replaced

  /** The event replaces the stub for the address. */
  predicate Stores(s: State, e: Event, to: Push.Address) {
    e.P? && IsStore(s.p, e.pe) && s.p.workers[e.pe.w].at.to == to
  }

  predicate Replaced(s: State, es: seq<Event>, to: Push.Address)
    requires IsRun(s, es)
    decreases |es|
  {
    es != [] && (Stores(s, es[0], to) || Replaced(Apply(s, es[0]), es[1..], to))
  }

  predicate IsStored(p: Push.State, to: Push.Address, stub: Push.Stub) {
    to in p.stubs && p.stubs[to] == stub
  }

  lemma StoredMoves(s: State, e: Event, to: Push.Address, stub: Push.Stub)
    requires Possible(s, e) && Live(s, e) && Settled(s.p, stub)
    ensures IsStored(Apply(s, e).p, to, stub) <==> IsStored(s.p, to, stub) && !Stores(s, e, to)
  {
    if e.P? {
      StubsMove(s.p, e.pe);
      hide Push.Apply;
    } else {
      SameStubs(s, e);
    }
  }

  lemma {:induction false} StoredAlong(s: State, es: seq<Event>, to: Push.Address, stub: Push.Stub)
    requires IsRun(s, es) && StubsOk(s.p) && Settled(s.p, stub)
    ensures IsStored(After(s, es).p, to, stub) <==> IsStored(s.p, to, stub) && !Replaced(s, es, to)
    decreases |es|
  {
    hide Possible, Live, Apply, StubsOk, Settled, Stores, IsStored;
    if es != [] {
      StubsKept(s, es[0], stub);
      StoredMoves(s, es[0], to, stub);
      StoredAlong(Apply(s, es[0]), es[1..], to, stub);
    }
  }

  lemma {:induction false} StubsRun(s: State, es: seq<Event>)
    requires IsRun(s, es) && StubsOk(s.p)
    ensures StubsOk(After(s, es).p)
    decreases |es|
  {
    hide Possible, Live, Apply, StubsOk;
    if es != [] {
      StubsKept(s, es[0], 0);
      StubsRun(Apply(s, es[0]), es[1..]);
    }
  }

  /** In any reachable state a thread reads the stub for an address, and uses it after any run of other
      steps. The stub that it uses is still the stored one, and so not destroyed, exactly if no thread
      stored another for this address in between. */
  lemma StubInUseIff(s: State, es: seq<Event>, more: seq<Event>, w: nat)
    requires Initial(s) && IsRun(s, es) && Rpc.At(After(s, es).p.workers, w) && After(s, es).p.workers[w].at.Fetch?
    requires Possible(After(s, es), P(Push.Step(w))) && Live(After(s, es), P(Push.Step(w)))
    requires IsRun(Apply(After(s, es), P(Push.Step(w))), more) && P(Push.Step(w)) !in more
    ensures var s1 := Apply(After(s, es), P(Push.Step(w)));
            var s2 := After(s1, more);
            && Rpc.At(s2.p.workers, w) && s2.p.workers[w].at.Prepare?
            && var Prepare(to, stub) := s2.p.workers[w].at; IsStored(s2.p, to, stub) <==> !Replaced(s1, more, to)
  {
    hide IsRun, StubsOk, Settled, Initial;
    var s0 := After(s, es);
    var s1 := Apply(s0, P(Push.Step(w)));
    assert StubsOk(s.p) by { NoStubsYet(s); }
    StubsRun(s, es);
    StubsKept(s0, P(Push.Step(w)), 0);
    Waits(s1, more, w);
    var Prepare(to, stub) := s1.p.workers[w].at;
    StoredIsSettled(s1.p, to);
    StoredAlong(s1, more, to, stub);
  }

  lemma StoredIsSettled(p: Push.State, to: Push.Address)
    requires StubsOk(p) && to in p.stubs
    ensures Settled(p, p.stubs[to])
  {
  }

  lemma NoStubsYet(s: State)
    requires Initial(s)
    ensures StubsOk(s.p)
  {
  }

  lemma {:induction false} Waits(s: State, es: seq<Event>, w: nat)
    requires IsRun(s, es) && Rpc.At(s.p.workers, w) && !s.p.workers[w].at.Look? && P(Push.Step(w)) !in es
    ensures Rpc.At(After(s, es).p.workers, w) && After(s, es).p.workers[w] == s.p.workers[w]
    decreases |es|
  {
    hide Apply;
    if es != [] {
      WaitsOnce(s, es[0], w);
      Waits(Apply(s, es[0]), es[1..], w);
    }
  }

  lemma WaitsOnce(s: State, e: Event, w: nat)
    requires Possible(s, e) && Live(s, e) && Rpc.At(s.p.workers, w) && !s.p.workers[w].at.Look? && e != P(Push.Step(w))
    ensures Rpc.At(Apply(s, e).p.workers, w) && Apply(s, e).p.workers[w] == s.p.workers[w]
  {
    if e.P? {
      WorkersMove(s.p, e.pe);
      hide Push.Apply;
    } else {
      SameStubs(s, e);
    }
  }
}
