/** server/include/connection_pool.h: a blocking pool. `Acquire`, `Release` and the locked part of
    `Shutdown` are steps of a state machine over any number of callers. */
module ConnectionPool {
  import opened Options

  type Conn = nat

  // ---------------------------------------------------------------- the critical sections

  class Pool {
    var pool: seq<Option<Conn>>
    var isStop: bool

    constructor (connections: seq<Option<Conn>>)
      ensures pool == connections && !isStop
    {
      pool, isStop := connections, false;
    }

    /** `Acquire` from the moment its wait is over. */
    method Acquire() returns (conn: Option<Conn>)
      requires isStop || pool != []
      modifies this
      ensures isStop == old(isStop)
      ensures old(isStop) ==> conn == None && pool == old(pool)
      ensures !old(isStop) ==> old(pool) == [conn] + pool
    {
      if isStop { return None; }
      conn := pool[0];
      pool := pool[1..];
    }

    method Release(conn: Option<Conn>)
      modifies this
      ensures pool == old(pool) + [conn] && isStop == old(isStop)
    {
      pool := pool + [conn];
    }

    method Shutdown()
      modifies this
      ensures isStop
      ensures pool == if old(isStop) then old(pool) else []
    {
      if isStop { return; }
      isStop := true;
      while pool != []
        invariant isStop
        decreases |pool|
      {
        pool := pool[1..];
      }
    }
  }

  // ---------------------------------------------------------------- the state machine

  /** A caller is outside, about to test the predicate, asleep in `wait`, or owns what `Acquire`
      returned (None is the null pointer). */
  datatype Caller = Idle | Trying | Asleep | Holding(conn: Option<Conn>)

  /** `closers` counts calls of `Shutdown` between the unlocked test and the lock; `destroyed` is
      history. */
  datatype State = State(pool: seq<Option<Conn>>, stop: bool, callers: seq<Caller>, closers: nat,
                         destroyed: seq<Option<Conn>>)

  datatype Event =
    | Call(i: nat)
    | Check(i: nat)
    | Spurious(i: nat)
    | Release(i: nat, woken: Option<nat>)
    | ShutdownTest
    | ShutdownLocked

  predicate Enabled(s: State, e: Event) {
    match e
    case Call(i) => i < |s.callers| && s.callers[i].Idle?
    case Check(i) => i < |s.callers| && s.callers[i].Trying?
    case Spurious(i) => i < |s.callers| && s.callers[i].Asleep?
    case Release(i, None) => i < |s.callers| && s.callers[i].Holding? && Asleep !in s.callers
    case Release(i, Some(j)) =>
      i < |s.callers| && s.callers[i].Holding? && j < |s.callers| && s.callers[j].Asleep?
    case ShutdownTest => !s.stop
    case ShutdownLocked => s.closers > 0
  }

  function Awake(cs: seq<Caller>): (r: seq<Caller>)
    ensures |r| == |cs|
  {
    if cs == [] then [] else [if cs[0].Asleep? then Trying else cs[0]] + Awake(cs[1..])
  }

  function Apply(s: State, e: Event): State
    requires Enabled(s, e)
  {
    match e
    case Call(i) => s.(callers := s.callers[i := Trying])
    case Check(i) =>
      if s.stop then s.(callers := s.callers[i := Holding(None)])
      else if s.pool == [] then s.(callers := s.callers[i := Asleep])
      else s.(callers := s.callers[i := Holding(s.pool[0])], pool := s.pool[1..])
    case Spurious(i) => s.(callers := s.callers[i := Trying])
    case Release(i, None) => s.(callers := s.callers[i := Idle], pool := s.pool + [s.callers[i].conn])
    case Release(i, Some(j)) =>
      s.(callers := s.callers[i := Idle][j := Trying], pool := s.pool + [s.callers[i].conn])
    case ShutdownTest => s.(closers := s.closers + 1)
    case ShutdownLocked =>
      State([], true, Awake(s.callers), s.closers - 1, s.destroyed + s.pool)
  }

  predicate IsRun(s: State, es: seq<Event>)
    decreases |es|
  {
    es == [] || (Enabled(s, es[0]) && IsRun(Apply(s, es[0]), es[1..]))
  }

  function After(s: State, es: seq<Event>): State
    requires IsRun(s, es)
    decreases |es|
  {
    if es == [] then s else After(Apply(s, es[0]), es[1..])
  }

  // ---------------------------------------------------------------- counting

  function Holders(cs: seq<Caller>, c: Conn): nat {
    if cs == [] then 0 else (if cs[0] == Holding(Some(c)) then 1 else 0) + Holders(cs[1..], c)
  }

  function Sleepers(cs: seq<Caller>): nat {
    if cs == [] then 0 else (if cs[0].Asleep? then 1 else 0) + Sleepers(cs[1..])
  }

  function Triers(cs: seq<Caller>): nat {
    if cs == [] then 0 else (if cs[0].Trying? then 1 else 0) + Triers(cs[1..])
  }

  lemma {:induction false} Update(cs: seq<Caller>, i: nat, x: Caller)
    requires i < |cs|
    ensures forall c :: Holders(cs[i := x], c)
                     == Holders(cs, c) - (if cs[i] == Holding(Some(c)) then 1 else 0)
                         + (if x == Holding(Some(c)) then 1 else 0)
    ensures Sleepers(cs[i := x]) == Sleepers(cs) - (if cs[i].Asleep? then 1 else 0) + (if x.Asleep? then 1 else 0)
    ensures Triers(cs[i := x]) == Triers(cs) - (if cs[i].Trying? then 1 else 0) + (if x.Trying? then 1 else 0)
  {
    if i == 0 {
      assert cs[0 := x][1..] == cs[1..];
    } else {
      Update(cs[1..], i - 1, x);
      assert cs[i := x][1..] == cs[1..][i - 1 := x];
    }
  }

  lemma {:induction false} AwakeCounts(cs: seq<Caller>)
    ensures Sleepers(Awake(cs)) == 0
    ensures forall c :: Holders(Awake(cs), c) == Holders(cs, c)
    ensures Asleep in cs <==> Sleepers(cs) > 0
  {
    if cs != [] {
      AwakeCounts(cs[1..]);
      assert Awake(cs)[1..] == Awake(cs[1..]);
      assert cs == [cs[0]] + cs[1..];
    }
  }

  // ---------------------------------------------------------------- the invariant

  /** Every created connection is in exactly one place; nobody sleeps after the stop; while anybody
      sleeps there are at least as many callers on their way as idle connections. */
  ghost predicate Inv(s: State, created: set<Conn>) {
    && (forall c :: multiset(s.pool)[Some(c)] + Holders(s.callers, c) + multiset(s.destroyed)[Some(c)]
                 == if c in created then 1 else 0)
    && (!s.stop ==> s.destroyed == [])
    && (s.stop ==> Sleepers(s.callers) == 0)
    && (Sleepers(s.callers) > 0 ==> |s.pool| <= Triers(s.callers))
  }

  lemma InvCheck(s: State, created: set<Conn>, i: nat)
    requires Inv(s, created) && Enabled(s, Check(i))
    ensures Inv(Apply(s, Check(i)), created)
  {
    hide Holders, Sleepers, Triers;
    Update(s.callers, i, if s.stop then Holding(None) else if s.pool == [] then Asleep else Holding(s.pool[0]));
    if !s.stop && s.pool != [] {
      assert s.pool == [s.pool[0]] + s.pool[1..];
    }
  }

  lemma InvRelease(s: State, created: set<Conn>, i: nat, woken: Option<nat>)
    requires Inv(s, created) && Enabled(s, Release(i, woken))
    ensures Inv(Apply(s, Release(i, woken)), created)
  {
    hide Holders, Sleepers, Triers;
    AwakeCounts(s.callers);
    Update(s.callers, i, Idle);
    assert multiset(s.pool + [s.callers[i].conn]) == multiset(s.pool) + multiset{s.callers[i].conn};
    if woken.Some? {
      Update(s.callers[i := Idle], woken.value, Trying);
    }
  }

  lemma InvStep(s: State, created: set<Conn>, e: Event)
    requires Inv(s, created) && Enabled(s, e)
    ensures Inv(Apply(s, e), created)
  {
    hide Holders, Sleepers, Triers, Awake;
    match e
    case Call(i) => Update(s.callers, i, Trying);
    case Check(i) => InvCheck(s, created, i);
    case Spurious(i) => Update(s.callers, i, Trying);
    case Release(i, woken) => InvRelease(s, created, i, woken);
    case ShutdownTest =>
    case ShutdownLocked =>
      AwakeCounts(s.callers);
      assert multiset(s.destroyed + s.pool) == multiset(s.destroyed) + multiset(s.pool);
  }

  lemma {:induction false} InvRun(s: State, created: set<Conn>, es: seq<Event>)
    requires Inv(s, created) && IsRun(s, es)
    ensures Inv(After(s, es), created)
    decreases |es|
  {
    if es != [] {
      InvStep(s, created, es[0]);
      InvRun(Apply(s, es[0]), created, es[1..]);
    }
  }

  // ---------------------------------------------------------------- main results

  ghost predicate Initial(s: State, created: set<Conn>) {
    && !s.stop && s.closers == 0 && s.destroyed == []
    && (forall i | 0 <= i < |s.callers| :: s.callers[i].Idle?)
    && (forall c :: multiset(s.pool)[Some(c)] == if c in created then 1 else 0)
  }

  lemma {:induction false} AllIdle(cs: seq<Caller>)
    requires forall i | 0 <= i < |cs| :: cs[i].Idle?
    ensures Sleepers(cs) == 0 && forall c :: Holders(cs, c) == 0
  {
    if cs != [] {
      AllIdle(cs[1..]);
    }
  }

  /** In every reachable state each connection is idle, lent or destroyed, never two of these and never
      lent twice; before shutdown none is destroyed. No caller sleeps beside an unclaimed connection,
      and none sleeps at all after shutdown. */
  lemma Conservation(s: State, created: set<Conn>, es: seq<Event>)
    requires Initial(s, created) && IsRun(s, es)
    ensures var t := After(s, es);
            && (forall c <- created ::
                  multiset(t.pool)[Some(c)] + Holders(t.callers, c) + multiset(t.destroyed)[Some(c)] == 1)
            && (!t.stop ==> t.destroyed == [])
            && (Sleepers(t.callers) > 0 ==> !t.stop && |t.pool| <= Triers(t.callers))
  {
    AllIdle(s.callers);
    InvRun(s, created, es);
  }

  /** The steps are the methods of the class: the first connection is taken, a released one goes to the end. */
  lemma StepsAreMethods(s: State, e: Event)
    requires Enabled(s, e)
    ensures e.Check? ==>
              var s' := Apply(s, e);
              if s.stop then s'.callers[e.i] == Holding(None) && s'.pool == s.pool
              else if s.pool == [] then s'.callers[e.i] == Asleep && s'.pool == []
              else s'.callers[e.i].Holding? && s.pool == [s'.callers[e.i].conn] + s'.pool
    ensures e.Release? ==> Apply(s, e).pool == s.pool + [s.callers[e.i].conn] && !Apply(s, e).callers[e.i].Holding?
  {
  }

  predicate Takes(s: State, e: Event)
    requires Enabled(s, e)
  {
    e.Check? && Apply(s, e).callers[e.i].Holding? && Apply(s, e).callers[e.i].conn.Some?
  }

  /** After shutdown no `Acquire` returns a connection, whatever is released. */
  lemma {:induction false} NothingAfterShutdown(s: State, es: seq<Event>, e: Event)
    requires s.stop && IsRun(s, es) && Enabled(After(s, es), e)
    ensures After(s, es).stop && !Takes(After(s, es), e)
    decreases |es|
  {
    if es != [] {
      NothingAfterShutdown(Apply(s, es[0]), es[1..], e);
    }
  }
}
