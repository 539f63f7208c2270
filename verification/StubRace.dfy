/** The input at which a stub is destroyed while a thread is about to use it: three direct messages for one
    gate, and two threads of the push server that both miss its address. */
module StubRace {
  import opened Options
  import opened Wire
  import opened Messages
  import opened Delivery
  import opened Runs
  import Rpc
  import Topic
  import Transfer
  import Push
  import Gate
  import Stubs

  type Thread = Rpc.Worker<Push.Point>

  /** Context c is the armed one and the youngest. */
  predicate Listens(p: Push.State, c: Id) {
    c in p.server.armed && forall d <- p.server.ctxs :: d <= c
  }

  /** The call of a ticket reaches the push server. */
  lemma Called(s: State, es: seq<Event>, i: Id, x: Transfer.Ticket, c: Id)
    requires Initial(s) && IsRun(s, es) && Listens(After(s, es).p, c)
    requires i in After(s, es).t.calls && After(s, es).t.calls[i] == Transfer.Flying(x)
    requires |SerPush(Transfer.ReqOf(x))| < TWO_31
    ensures IsRun(s, es + [CallPush(i, c)])
    ensures var (a, b) := (After(s, es), After(s, es + [CallPush(i, c)]));
            && b.t == a.t && b.p == a.p.(server := b.p.server)
            && c in b.p.server.cq && c in b.p.server.ctxs && !b.p.server.ctxs[c].done
            && b.p.server.ctxs.Keys == a.p.server.ctxs.Keys
  {
    hide SerPush, Transmitted, IsRun, After, Initial, Transfer.ReqOf, Inv;
    Reached(s, es);
    NotDone(After(s, es), c);
    TransmissionIsExact(After(s, es), i);
    Advance(s, es, CallPush(i, c));
  }

  lemma NotDone(s: State, c: Id)
    requires Inv(s) && c in s.p.server.armed
    ensures c in s.p.server.ctxs && !s.p.server.ctxs[c].done
  {
    hide Transfer.Inv, Gate.Inv, Linked, PushHonest, TransferHonest, Push.FramesOk, Push.AllHere;
    Push.OnlyHere(s.p, c);
  }

  /** The loop takes it from the queue, and a thread from the pool. */
  lemma Dequeued(s: State, es: seq<Event>, c: Id, w: nat)
    requires Initial(s) && IsRun(s, es) && Rpc.Free(After(s, es).p.workers, w)
    requires var p := After(s, es).p;
             c in p.server.cq && c in p.server.ctxs && !p.server.ctxs[c].done && forall d <- p.server.ctxs :: d <= c
    ensures var es' := es + [P(Push.Turn(c, c + 1))] + [P(Push.Begin(w, c))];
            && IsRun(s, es')
            && var (a, b) := (After(s, es), After(s, es'));
               && b.t == a.t && Listens(b.p, c + 1)
               && b.p == a.p.(server := b.p.server, workers := a.p.workers[w := Rpc.Busy(c, Push.Look)])
  {
    hide IsRun, After, Initial;
    Advance(s, es, P(Push.Turn(c, c + 1)));
    Advance(s, es + [P(Push.Turn(c, c + 1))], P(Push.Begin(w, c)));
  }

  lemma LookedUp(s: State, es: seq<Event>, c: Id, w: nat, to: Push.Address)
    requires Initial(s) && IsRun(s, es) && w < |After(s, es).p.workers| && to != []
    requires After(s, es).p.workers[w] == Rpc.Busy(c, Push.Look)
    ensures var es' := es + [P(Push.Lookup(w, Some(to)))];
            && IsRun(s, es')
            && var (a, b) := (After(s, es), After(s, es'));
               && b.t == a.t && (forall d | Listens(a.p, d) :: Listens(b.p, d))
               && b.p == a.p.(server := b.p.server, workers := a.p.workers[w := Rpc.Busy(c, Push.Find(to))])
  {
    hide IsRun, After, Initial;
    Advance(s, es, P(Push.Lookup(w, Some(to))));
  }

  /** All of this: thread w is about to search the stubs for the gate of a new request. */
  lemma Searches(s: State, es: seq<Event>, i: Id, x: Transfer.Ticket, c: Id, w: nat, to: Push.Address)
    returns (es': seq<Event>)
    requires Initial(s) && IsRun(s, es) && Listens(After(s, es).p, c) && Rpc.Free(After(s, es).p.workers, w) && to != []
    requires i in After(s, es).t.calls && After(s, es).t.calls[i] == Transfer.Flying(x)
    requires |SerPush(Transfer.ReqOf(x))| < TWO_31
    ensures IsRun(s, es') && After(s, es').t == After(s, es).t && Listens(After(s, es').p, c + 1)
    ensures var (a, b) := (After(s, es).p, After(s, es').p);
            b == a.(server := b.server, workers := a.workers[w := Rpc.Busy(c, Push.Find(to))])
  {
    hide IsRun, After, Initial, SerPush, Transfer.ReqOf;
    Called(s, es, i, x, c);
    es' := es + [CallPush(i, c)];
    Dequeued(s, es', c, w);
    es' := es' + [P(Push.Turn(c, c + 1))] + [P(Push.Begin(w, c))];
    LookedUp(s, es', c, w, to);
    es' := es' + [P(Push.Lookup(w, Some(to)))];
    var (a, b) := (After(s, es).p, After(s, es').p);
    assert b.workers == a.workers[w := Rpc.Busy(c, Push.Find(to))];
  }

  /** A thread takes a step in GateClient::Push. */
  lemma Moves(s: State, es: seq<Event>, w: nat)
    requires Initial(s) && IsRun(s, es) && Rpc.At(After(s, es).p.workers, w)
    requires Push.Quiet(After(s, es).p.workers[w].at) || After(s, es).p.workers[w].at.Call?
    ensures var es' := es + [P(Push.Step(w))];
            && IsRun(s, es') && After(s, es').t == After(s, es).t
            && (forall d | Listens(After(s, es).p, d) :: Listens(After(s, es').p, d))
            && var (a, b, c) := (After(s, es).p, After(s, es').p, After(s, es).p.workers[w].c);
               match a.workers[w].at
               case Find(to) =>
                 var next := if to in a.stubs then Push.Fetch(to) else Push.Connect(to);
                 Becomes(a, b, w, Rpc.Busy(c, next), a.stubs, a.made)
               case Fetch(to) =>
                 to in a.stubs && Becomes(a, b, w, Rpc.Busy(c, Push.Prepare(to, a.stubs[to])), a.stubs, a.made)
               case Connect(to) => Becomes(a, b, w, Rpc.Busy(c, Push.Store(to, a.made)), a.stubs, a.made + 1)
               case Store(to, stub) => Becomes(a, b, w, Rpc.Busy(c, Push.Call(to)), a.stubs[to := stub], a.made)
               case Call(_) => Becomes(a, b, w, Rpc.Idle, a.stubs, a.made)
               case _ => true
  {
    hide IsRun, After, Initial;
    Advance(s, es, P(Push.Step(w)));
  }

  /** Thread w is now at f, and these are the stubs. */
  predicate Becomes(a: Push.State, b: Push.State, w: nat, f: Thread, stubs: map<Push.Address, Push.Stub>, made: nat)
    requires w < |a.workers|
  {
    b.workers == a.workers[w := f] && b.stubs == stubs && b.made == made
  }

  /** A direct message that can be pushed. */
  ghost predicate Pushable(r: Topic.Record) {
    && Topic.Accepts(r).Some? && !Topic.ToGroup(Topic.Accepts(r).value)
    && forall n: int64 | 1 <= n <= 3 :: |SerPush(Request(Topic.Accepts(r).value, n))| < TWO_31
  }

  function Request(mq: MqMessage, n: int64): PushReq {
    PushReq(Some(mq), n, OriginReq(mq).toId)
  }

  predicate Underway(s: State, x: seq<Transfer.Ticket>) {
    && |x| == 3
    && forall i | 0 <= i < 3 ::
         && i in s.t.calls && s.t.calls[i] == Transfer.Flying(x[i]) && |SerPush(Transfer.ReqOf(x[i]))| < TWO_31
  }

  /** Three calls are under way to a push server with two idle threads. */
  lemma ThreeCalls(s: State, rs: seq<Topic.Record>) returns (es: seq<Event>, x: seq<Transfer.Ticket>)
    requires s == State(Transfer.Boot(map[]), Push.Boot(0, 2), map[]) && |rs| == 3
    requires Pushable(rs[0]) && Pushable(rs[1]) && Pushable(rs[2])
    ensures Initial(s) && IsRun(s, es) && After(s, es).p == s.p && Underway(After(s, es), x)
  {
    hide IsRun, After, Topic.Accepts, Topic.ToGroup, OriginReq, SerPush;
    Nothing(s);
    var x0, x1, x2;
    es, x0 := NextPush(s, [], rs[0], 0);
    es, x1 := NextPush(s, es, rs[1], 1);
    es, x2 := NextPush(s, es, rs[2], 2);
    Fits(rs[0], x0);
    Fits(rs[1], x1);
    Fits(rs[2], x2);
    x := [x0, x1, x2];
  }

  lemma Fits(r: Topic.Record, x: Transfer.Ticket)
    requires Pushable(r) && x.mq == Topic.Accepts(r).value && x.uid == OriginReq(x.mq).toId && 1 <= x.no <= 3
    ensures |SerPush(Transfer.ReqOf(x))| < TWO_31
  {
    hide SerPush, Topic.Accepts, Topic.ToGroup;
    assert Transfer.ReqOf(x) == Request(x.mq, x.no);
  }

  lemma Steps(s: State, es: seq<Event>, w: nat) returns (es': seq<Event>)
    requires Initial(s) && IsRun(s, es) && Rpc.At(After(s, es).p.workers, w) && After(s, es).p.workers[w].at.Find?
    requires After(s, es).p.workers[w].at.to !in After(s, es).p.stubs
    ensures IsRun(s, es') && After(s, es').t == After(s, es).t
    ensures forall d | Listens(After(s, es).p, d) :: Listens(After(s, es').p, d)
    ensures var (a, b) := (After(s, es).p, After(s, es').p);
            Becomes(a, b, w, Rpc.Busy(a.workers[w].c, Push.Store(a.workers[w].at.to, a.made)), a.stubs, a.made + 1)
  {
    hide IsRun, After, Initial;
    Moves(s, es, w);
    es' := es + [P(Push.Step(w))];
    Moves(s, es', w);
    es' := es' + [P(Push.Step(w))];
  }

  /** Both threads miss the address and make a stub; the first stores its own and is done. */
  lemma BothMiss(s: State, es: seq<Event>, x: seq<Transfer.Ticket>, to: Push.Address) returns (es': seq<Event>)
    requires Initial(s) && IsRun(s, es) && After(s, es).p == Push.Boot(0, 2) && to != []
    requires Underway(After(s, es), x)
    ensures IsRun(s, es') && After(s, es').t == After(s, es).t && Listens(After(s, es').p, 2)
    ensures var p := After(s, es').p;
            p.workers == [Rpc.Idle, Rpc.Busy(1, Push.Store(to, 1))] && p.stubs == map[to := 0] && p.made == 2
  {
    hide IsRun, After, Initial, SerPush, Transfer.ReqOf;
    es' := Searches(s, es, 0, x[0], 0, 0, to);
    es' := Searches(s, es', 1, x[1], 1, 1, to);
    es' := Steps(s, es', 0);
    es' := Steps(s, es', 1);
    Moves(s, es', 0);
    es' := es' + [P(Push.Step(0))];
    Moves(s, es', 0);
    es' := es' + [P(Push.Step(0))];
  }

  /** The input: any three direct messages whose receivers are at the same gate. The third request finds the
      first stub, and while its thread is about to use it, the second thread stores its own: the stub in
      use is destroyed. */
  lemma StubDestroyedInUse(rs: seq<Topic.Record>, to: Push.Address) returns (s: State, es: seq<Event>)
    requires |rs| == 3 && Pushable(rs[0]) && Pushable(rs[1]) && Pushable(rs[2]) && to != []
    ensures Initial(s) && IsRun(s, es)
    ensures var p := After(s, es).p;
            && p.workers == [Rpc.Busy(2, Push.Prepare(to, 0)), Rpc.Busy(1, Push.Call(to))]
            && !Stubs.IsStored(p, to, 0)
  {
    hide IsRun, After, Initial, SerPush, Transfer.ReqOf, Pushable;
    s := State(Transfer.Boot(map[]), Push.Boot(0, 2), map[]);
    var x;
    es, x := ThreeCalls(s, rs);
    es := BothMiss(s, es, x, to);
    es := Searches(s, es, 2, x[2], 2, 0, to);
    Moves(s, es, 0);
    es := es + [P(Push.Step(0))];
    Moves(s, es, 0);
    es := es + [P(Push.Step(0))];
    Moves(s, es, 1);
    es := es + [P(Push.Step(1))];
  }
}
