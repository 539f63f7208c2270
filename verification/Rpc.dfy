/** The completion-queue loop that the logic server, the push server and the gate share
    (server/msg_logic/logic_server.cc, server/push/push_server.cc, server/msg_gate/gate_server.cc):
    contexts are armed, arrive in the queue, go to the thread pool, are worked on, marked done and
    finished, and come back through the queue. */
module Rpc {
  import opened Options
  import opened Messages

  type Id = nat  // a context, by address

  datatype Status = OK | NotFound | Broken(code: nat)

  /** `finished` lists the statuses that were passed to `Finish`. A retired context was dequeued with
      `done` set; the logic server and the gate delete it, the push server only forgets it. */
  datatype Ctx<+R> = Ctx(req: Option<R>, done: bool, finished: seq<Status>, retired: bool)

  /** `out` has one entry for every pointer that is with a pool thread, an outgoing call or another
      completion queue. `listener` is an auxiliary variable: the context armed last. */
  datatype Server<+R> = Server(
    ctxs: map<Id, Ctx<R>>, armed: multiset<Id>, cq: multiset<Id>, pool: multiset<Id>, out: multiset<Id>,
    listener: Id)

  /** A push request and the call it belongs to on the client's side. */
  datatype Inbound = Inbound(origin: Id, req: PushReq)

  function Fresh<R>(): Ctx<R> {
    Ctx(None, false, [], false)
  }

  function Start<R>(c: Id): Server<R> {
    Server(map[c := Fresh()], multiset{c}, multiset{}, multiset{}, multiset{}, c)
  }

  // ---------------------------------------------------------------- steps

  predicate Live<R>(s: Server<R>, c: Id) {
    c in s.ctxs && !s.ctxs[c].retired
  }

  function Arrive<R>(s: Server<R>, c: Id, r: R): Server<R>
    requires Live(s, c)
  {
    s.(ctxs := s.ctxs[c := s.ctxs[c].(req := Some(r))], armed := s.armed - multiset{c}, cq := s.cq + multiset{c})
  }

  /** One turn of the loop: a done tag is retired, any other goes to the pool after a new context has
      been armed. */
  function Next<R>(s: Server<R>, c: Id, n: Id): Server<R>
    requires Live(s, c)
  {
    if s.ctxs[c].done then
      s.(ctxs := s.ctxs[c := s.ctxs[c].(retired := true)], cq := s.cq - multiset{c})
    else
      s.(ctxs := s.ctxs[n := Fresh()], armed := s.armed + multiset{n}, cq := s.cq - multiset{c},
         pool := s.pool + multiset{c}, listener := n)
  }

  function Take<R>(s: Server<R>, c: Id): Server<R> {
    s.(pool := s.pool - multiset{c}, out := s.out + multiset{c})
  }

  function Mark<R>(s: Server<R>, c: Id): Server<R>
    requires Live(s, c)
  {
    s.(ctxs := s.ctxs[c := s.ctxs[c].(done := true)])
  }

  /** The context's own data changes. */
  function Note<R>(s: Server<R>, c: Id, r: R): Server<R>
    requires Live(s, c)
  {
    s.(ctxs := s.ctxs[c := s.ctxs[c].(req := Some(r))])
  }

  function Finish<R>(s: Server<R>, c: Id, status: Status): Server<R>
    requires Live(s, c)
  {
    s.(ctxs := s.ctxs[c := s.ctxs[c].(finished := s.ctxs[c].finished + [status])],
       out := s.out - multiset{c}, cq := s.cq + multiset{c})
  }

  // ---------------------------------------------------------------- the invariant

  /** In how many places there is a pointer to `c`. */
  function Total<R>(s: Server<R>, c: Id): nat {
    s.armed[c] + s.cq[c] + s.pool[c] + s.out[c]
  }

  /** Armed, or arrived and not yet dequeued. */
  predicate Incoming<R>(s: Server<R>, c: Id) {
    c in s.armed || (c in s.cq && c in s.ctxs && !s.ctxs[c].done)
  }

  ghost predicate CtxOk<R>(s: Server<R>, c: Id)
    requires c in s.ctxs
  {
    var x := s.ctxs[c];
    && (c in s.armed ==> x.req.None? && !x.done && x.finished == [])
    && (c in s.cq ==> x.req.Some? && |x.finished| == if x.done then 1 else 0)
    && (c in s.pool ==> x.req.Some? && !x.done && x.finished == [])
    && (c in s.out ==> x.req.Some? && x.finished == [])
    && (x.retired ==> x.req.Some? && x.done && |x.finished| == 1)
  }

  ghost predicate Inv<R>(s: Server<R>) {
    && (forall c :: Total(s, c) == if Live(s, c) then 1 else 0)
    && (forall c <- s.ctxs :: CtxOk(s, c))
    && (forall c :: Incoming(s, c) <==> c == s.listener)
  }

  lemma InvStart<R>(c: Id)
    ensures Inv(Start<R>(c))
  {
  }

  lemma InvArrive<R>(s: Server<R>, c: Id, r: R)
    requires Inv(s) && c in s.armed
    ensures Live(s, c) && s.ctxs[c].req.None? && Inv(Arrive(s, c, r))
  {
    assert Total(s, c) == 1;
    var s' := Arrive(s, c, r);
    forall d ensures Total(s', d) == if Live(s', d) then 1 else 0 {
      assert Total(s', d) == Total(s, d);
    }
    forall d <- s'.ctxs ensures CtxOk(s', d) { assert CtxOk(s, d); }
    forall d ensures Incoming(s', d) <==> d == s'.listener { assert Incoming(s, d) <==> d == s.listener; }
  }

  lemma InvNext<R>(s: Server<R>, c: Id, n: Id)
    requires Inv(s) && c in s.cq && n !in s.ctxs
    ensures Live(s, c) && Inv(Next(s, c, n))
  {
    assert Total(s, c) == 1;
    assert Total(s, n) == 0;
    var s' := Next(s, c, n);
    forall d ensures Total(s', d) == if Live(s', d) then 1 else 0 {
      assert Total(s, d) == if Live(s, d) then 1 else 0;
    }
    forall d <- s'.ctxs ensures CtxOk(s', d) {
      if d in s.ctxs { assert CtxOk(s, d); }
    }
    forall d ensures Incoming(s', d) <==> d == s'.listener {
      assert Incoming(s, d) <==> d == s.listener;
      assert Incoming(s, c) <==> c == s.listener;
    }
  }

  lemma InvTake<R>(s: Server<R>, c: Id)
    requires Inv(s) && c in s.pool
    ensures Live(s, c) && s.ctxs[c].req.Some? && Inv(Take(s, c))
  {
    assert Total(s, c) == 1;
    var s' := Take(s, c);
    forall d ensures Total(s', d) == if Live(s', d) then 1 else 0 {
      assert Total(s', d) == Total(s, d);
    }
    forall d <- s'.ctxs ensures CtxOk(s', d) { assert CtxOk(s, d); }
    forall d ensures Incoming(s', d) <==> d == s'.listener { assert Incoming(s, d) <==> d == s.listener; }
  }

  lemma InvMark<R>(s: Server<R>, c: Id)
    requires Inv(s) && c in s.out
    ensures Live(s, c) && Inv(Mark(s, c))
  {
    assert Total(s, c) == 1;
    var s' := Mark(s, c);
    forall d ensures Total(s', d) == if Live(s', d) then 1 else 0 {
      assert Total(s', d) == Total(s, d);
    }
    forall d <- s'.ctxs ensures CtxOk(s', d) { assert CtxOk(s, d); }
    forall d ensures Incoming(s', d) <==> d == s'.listener { assert Incoming(s, d) <==> d == s.listener; }
  }

  lemma InvNote<R>(s: Server<R>, c: Id, r: R)
    requires Inv(s) && c in s.out
    ensures Live(s, c) && Inv(Note(s, c, r))
  {
    assert Total(s, c) == 1;
    var s' := Note(s, c, r);
    forall d ensures Total(s', d) == if Live(s', d) then 1 else 0 {
      assert Total(s', d) == Total(s, d);
    }
    forall d <- s'.ctxs ensures CtxOk(s', d) { assert CtxOk(s, d); }
    forall d ensures Incoming(s', d) <==> d == s'.listener { assert Incoming(s, d) <==> d == s.listener; }
  }

  lemma InvFinish<R>(s: Server<R>, c: Id, status: Status)
    requires Inv(s) && c in s.out && c in s.ctxs && s.ctxs[c].done
    ensures Live(s, c) && s.ctxs[c].finished == [] && Inv(Finish(s, c, status))
  {
    assert Total(s, c) == 1;
    assert CtxOk(s, c);
    var s' := Finish(s, c, status);
    forall d ensures Total(s', d) == if Live(s', d) then 1 else 0 {
      assert Total(s', d) == Total(s, d);
    }
    forall d <- s'.ctxs ensures CtxOk(s', d) { assert CtxOk(s, d); }
    forall d ensures Incoming(s', d) <==> d == s'.listener { assert Incoming(s, d) <==> d == s.listener; }
  }

  // ---------------------------------------------------------------- what the invariant means

  /** Exactly one context is on its way in; every pointer is to a context that has not been retired,
      and there is one such pointer; `Finish` was called at most once, and before the context came
      back; a queued tag is done exactly when it has been finished. */
  ghost predicate Sound<R>(s: Server<R>) {
    && (exists c :: Incoming(s, c))
    && (forall c, d :: Incoming(s, c) && Incoming(s, d) ==> c == d)
    && (forall c :: Total(s, c) == if c in s.ctxs && !s.ctxs[c].retired then 1 else 0)
    && (forall c <- s.ctxs :: |s.ctxs[c].finished| <= 1 && (s.ctxs[c].retired ==> |s.ctxs[c].finished| == 1))
    && (forall c <- s.cq :: c in s.ctxs && (s.ctxs[c].done <==> |s.ctxs[c].finished| == 1))
  }

  lemma InvIsSound<R>(s: Server<R>)
    requires Inv(s)
    ensures Sound(s)
  {
    assert Incoming(s, s.listener);
    forall c <- s.ctxs
      ensures |s.ctxs[c].finished| <= 1 && (s.ctxs[c].retired ==> |s.ctxs[c].finished| == 1)
    {
      assert CtxOk(s, c);
      assert Total(s, c) == if Live(s, c) then 1 else 0;
    }
    forall c <- s.cq ensures c in s.ctxs && (s.ctxs[c].done <==> |s.ctxs[c].finished| == 1) {
      assert Total(s, c) == if Live(s, c) then 1 else 0;
      assert CtxOk(s, c);
    }
  }

  // ---------------------------------------------------------------- pool threads

  /** A thread is idle, has a context and is at some point of its program, or is at a point where it has
      none. */
  datatype Worker<+P> = Idle | Busy(c: Id, at: P) | Aside(at: P)

  predicate At<P>(ws: seq<Worker<P>>, w: nat) {
    w < |ws| && ws[w].Busy?
  }

  predicate Free<P>(ws: seq<Worker<P>>, w: nat) {
    w < |ws| && ws[w].Idle?
  }

  /** How many threads have the context. */
  function Held<P>(ws: seq<Worker<P>>, c: Id): nat {
    if ws == [] then 0 else (if ws[0].Busy? && ws[0].c == c then 1 else 0) + Held(ws[1..], c)
  }

  lemma {:induction false} Update<P>(ws: seq<Worker<P>>, i: nat, f: Worker<P>)
    requires i < |ws|
    ensures forall c :: Held(ws[i := f], c)
                     == Held(ws, c) - (if ws[i].Busy? && ws[i].c == c then 1 else 0)
                         + (if f.Busy? && f.c == c then 1 else 0)
    ensures ws[i].Busy? ==> Held(ws, ws[i].c) > 0
  {
    if i == 0 {
      assert ws[0 := f][1..] == ws[1..];
    } else {
      Update(ws[1..], i - 1, f);
      assert ws[i := f][1..] == ws[1..][i - 1 := f];
    }
  }

  lemma {:induction false} Together<P>(ws: seq<Worker<P>>, i: nat, j: nat)
    requires i < j < |ws| && ws[i].Busy? && ws[j].Busy? && ws[i].c == ws[j].c
    ensures Held(ws, ws[i].c) >= 2
  {
    if i == 0 {
      Update(ws[1..], j - 1, Idle);
    } else {
      Together(ws[1..], i - 1, j - 1);
    }
  }

  function AllIdle<P>(n: nat): seq<Worker<P>> {
    seq(n, _ => Idle)
  }

  lemma {:induction false} NothingHeld<P>(n: nat, c: Id)
    ensures Held(AllIdle<P>(n), c) == 0
  {
    if n > 0 {
      NothingHeld<P>(n - 1, c);
      assert AllIdle<P>(n)[1..] == AllIdle<P>(n - 1);
    }
  }

  lemma {:induction false} NobodyHolds<A>(ws: seq<Worker<A>>, c: Id)
    requires forall w <- ws :: w.Idle?
    ensures Held(ws, c) == 0
  {
    if ws != [] {
      assert ws[0] in ws;
      NobodyHolds(ws[1..], c);
    }
  }

  // ---------------------------------------------------------------- the loop

  /** The body of `while (true)` in `Run`, on the fields it changes. */
  class Loop<R> {
    var s: Server<R>

    constructor (first: Id)
      ensures s == Start(first)
    {
      s := Start(first);
    }

    method Turn(tag: Id, made: Id)
      requires Inv(s) && tag in s.cq && made !in s.ctxs
      modifies this
      ensures Live(old(s), tag) && s == Next(old(s), tag, made) && Inv(s)
    {
      InvNext(s, tag, made);
      s := s.(cq := s.cq - multiset{tag});
      if s.ctxs[tag].done {
        s := s.(ctxs := s.ctxs[tag := s.ctxs[tag].(retired := true)]);
      } else {
        s := s.(ctxs := s.ctxs[made := Fresh()], listener := made);
        s := s.(armed := s.armed + multiset{made});
        s := s.(pool := s.pool + multiset{tag});
      }
    }
  }
}
