/** server/include/thread_pool.h. Every critical section and every notification is one step of a
    state machine, so that a run is any interleaving of workers, callers of `Enqueue` and the
    destructor, with spurious wake-ups. */
module ThreadPool {
  import opened Options

  type Task = nat

  /** A worker is about to lock and test the predicate, asleep in `wait`, running a task, or gone. */
  datatype Worker = Ready | Waiting | Running(task: Task) | Exited

  /** `notifies` counts callers of `Enqueue` between unlock and `notify_one`; `notifyAll` says that the
      destructor is between unlock and `notify_all`. The last three fields are history. */
  datatype State = State(
    workers: seq<Worker>, queue: seq<Task>, stop: bool, notifies: nat, notifyAll: bool,
    accepted: seq<Task>, started: seq<Task>, finished: seq<Task>)

  datatype Event =
    | Check(w: nat)                  // lock, test the predicate, take / return / sleep
    | Finish(w: nat)
    | Spurious(w: nat)
    | Push(task: Task)
    | NotifyOne(woken: Option<nat>)
    | SetStop
    | NotifyAll

  // ---------------------------------------------------------------- the critical sections

  datatype Taken = Sleep | Return | Take(task: Task)

  function Decide(queue: seq<Task>, stop: bool): Taken {
    if !stop && queue == [] then Sleep
    else if queue == [] then Return
    else Take(queue[0])
  }

  class Pool {
    var tasks: seq<Task>
    var stop: bool

    constructor ()
      ensures tasks == [] && !stop
    {
      tasks, stop := [], false;
    }

    /** The locked part of `Enqueue`; false stands for the exception. */
    method Enqueue(task: Task) returns (ok: bool)
      modifies this
      ensures stop == old(stop) && ok == !old(stop)
      ensures tasks == if ok then old(tasks) + [task] else old(tasks)
    {
      if stop { return false; }
      tasks := tasks + [task];
      return true;
    }

    /** The locked part of a worker's round. */
    method Round() returns (r: Taken)
      modifies this
      ensures r == Decide(old(tasks), old(stop)) && stop == old(stop)
      ensures tasks == if r.Take? then old(tasks)[1..] else old(tasks)
    {
      if !(stop || tasks != []) { return Sleep; }
      if stop && tasks == [] { return Return; }
      r := Take(tasks[0]);
      tasks := tasks[1..];
    }
  }

  // ---------------------------------------------------------------- the state machine

  predicate Enabled(s: State, e: Event) {
    match e
    case Check(w) => w < |s.workers| && s.workers[w].Ready?
    case Finish(w) => w < |s.workers| && s.workers[w].Running?
    case Spurious(w) => w < |s.workers| && s.workers[w].Waiting?
    case Push(_) => !s.stop
    case NotifyOne(None) => s.notifies > 0 && Waiting !in s.workers
    case NotifyOne(Some(w)) => s.notifies > 0 && w < |s.workers| && s.workers[w].Waiting?
    case SetStop => !s.stop
    case NotifyAll => s.notifyAll
  }

  function Awake(ws: seq<Worker>): (r: seq<Worker>)
    ensures |r| == |ws|
  {
    if ws == [] then [] else [if ws[0].Waiting? then Ready else ws[0]] + Awake(ws[1..])
  }

  function Apply(s: State, e: Event): State
    requires Enabled(s, e)
  {
    match e
    case Check(w) =>
      (match Decide(s.queue, s.stop)
       case Sleep => s.(workers := s.workers[w := Waiting])
       case Return => s.(workers := s.workers[w := Exited])
       case Take(t) =>
         s.(workers := s.workers[w := Running(t)], queue := s.queue[1..], started := s.started + [t]))
    case Finish(w) => s.(workers := s.workers[w := Ready], finished := s.finished + [s.workers[w].task])
    case Spurious(w) => s.(workers := s.workers[w := Ready])
    case Push(t) => s.(queue := s.queue + [t], accepted := s.accepted + [t], notifies := s.notifies + 1)
    case NotifyOne(None) => s.(notifies := s.notifies - 1)
    case NotifyOne(Some(w)) => s.(notifies := s.notifies - 1, workers := s.workers[w := Ready])
    case SetStop => s.(stop := true, notifyAll := true)
    case NotifyAll => s.(notifyAll := false, workers := Awake(s.workers))
  }

  predicate IsRun(s: State, es: seq<Event>)
    decreases |es|
  {
    es == [] || (Enabled(s, es[0]) && IsRun(Apply(s, es[0]), es[1..]))
  }

  function After(s: State, es: seq<Event>): State
    requires IsRun(s, es)
    decreases |es|
  {
    if es == [] then s else After(Apply(s, es[0]), es[1..])
  }

  function Start(threads: nat): State {
    State(seq(threads, _ => Ready), [], false, 0, false, [], [], [])
  }

  // ---------------------------------------------------------------- counting workers

  function Kind(w: Worker): nat {
    match w case Ready => 0 case Waiting => 1 case Running(_) => 2 case Exited => 3
  }

  function Count(ws: seq<Worker>, k: nat): nat {
    if ws == [] then 0 else (if Kind(ws[0]) == k then 1 else 0) + Count(ws[1..], k)
  }

  const READY := 0
  const WAITING := 1
  const RUNNING := 2
  const EXITED := 3

  /** How many workers are running task `t`. */
  function Runners(ws: seq<Worker>, t: Task): nat {
    if ws == [] then 0 else (if ws[0] == Running(t) then 1 else 0) + Runners(ws[1..], t)
  }

  lemma {:induction false} Update(ws: seq<Worker>, i: nat, w: Worker)
    requires i < |ws|
    ensures forall k :: Count(ws[i := w], k)
                     == Count(ws, k) - (if Kind(ws[i]) == k then 1 else 0) + (if Kind(w) == k then 1 else 0)
    ensures forall t :: Runners(ws[i := w], t)
                     == Runners(ws, t) - (if ws[i] == Running(t) then 1 else 0) + (if w == Running(t) then 1 else 0)
  {
    if i == 0 {
      assert ws[0 := w][1..] == ws[1..];
    } else {
      var rest := ws[1..];
      Update(rest, i - 1, w);
      assert ws[i := w][1..] == rest[i - 1 := w];
    }
  }

  lemma {:induction false} CountPositive(ws: seq<Worker>, k: nat)
    ensures Count(ws, k) > 0 <==> exists i :: 0 <= i < |ws| && Kind(ws[i]) == k
    ensures Count(ws, READY) + Count(ws, WAITING) + Count(ws, RUNNING) + Count(ws, EXITED) == |ws|
  {
    if ws != [] {
      CountPositive(ws[1..], k);
      if Count(ws[1..], k) > 0 {
        var i :| 0 <= i < |ws[1..]| && Kind(ws[1..][i]) == k;
        assert Kind(ws[i + 1]) == k;
      }
    }
  }

  lemma {:induction false} AwakeCounts(ws: seq<Worker>)
    ensures Count(Awake(ws), WAITING) == 0
    ensures Count(Awake(ws), READY) == Count(ws, READY) + Count(ws, WAITING)
    ensures Count(Awake(ws), RUNNING) == Count(ws, RUNNING) && Count(Awake(ws), EXITED) == Count(ws, EXITED)
    ensures forall t :: Runners(Awake(ws), t) == Runners(ws, t)
  {
    if ws != [] {
      AwakeCounts(ws[1..]);
      assert Awake(ws)[1..] == Awake(ws[1..]);
    }
  }

  lemma {:induction false} AllReady(n: nat)
    ensures var ws := Start(n).workers;
            Count(ws, WAITING) == 0 && Count(ws, EXITED) == 0 && forall t :: Runners(ws, t) == 0
  {
    if n > 0 {
      AllReady(n - 1);
      assert Start(n).workers[1..] == Start(n - 1).workers;
    }
  }

  // ---------------------------------------------------------------- the invariant

  /** The wake-up clause: as long as anybody sleeps, there are at least as many pending notifications
      and awake workers as queued tasks. */
  ghost predicate Inv(s: State) {
    && s.started + s.queue == s.accepted
    && (forall t :: multiset(s.finished)[t] + Runners(s.workers, t) == multiset(s.started)[t])
    && (Count(s.workers, WAITING) > 0 ==> |s.queue| <= s.notifies + Count(s.workers, READY))
    && (s.stop && Count(s.workers, WAITING) > 0 ==> s.notifyAll)
    && (Count(s.workers, EXITED) > 0 ==> s.stop && s.queue == [])
    && (s.notifyAll ==> s.stop)
  }

  lemma InvStart(threads: nat)
    ensures Inv(Start(threads))
  {
    AllReady(threads);
  }

  lemma InvCheck(s: State, w: nat)
    requires Inv(s) && Enabled(s, Check(w))
    ensures Inv(Apply(s, Check(w)))
  {
    hide Count, Runners;
    var d := Decide(s.queue, s.stop);
    var next := if d.Sleep? then Waiting else if d.Return? then Exited else Running(d.task);
    Update(s.workers, w, next);
    if d.Take? {
      assert s.started + [d.task] + s.queue[1..] == s.started + s.queue;
      assert multiset(s.started + [d.task]) == multiset(s.started) + multiset{d.task};
    }
  }

  lemma InvFinish(s: State, w: nat)
    requires Inv(s) && Enabled(s, Finish(w))
    ensures Inv(Apply(s, Finish(w)))
  {
    hide Count, Runners;
    Update(s.workers, w, Ready);
    assert multiset(s.finished + [s.workers[w].task]) == multiset(s.finished) + multiset{s.workers[w].task};
  }

  lemma InvStep(s: State, e: Event)
    requires Inv(s) && Enabled(s, e)
    ensures Inv(Apply(s, e))
  {
    hide Count, Runners, Awake;
    match e
    case Check(w) => InvCheck(s, w);
    case Finish(w) => InvFinish(s, w);
    case Spurious(w) =>
      Update(s.workers, w, Ready);
    case Push(t) =>
      assert s.started + (s.queue + [t]) == s.started + s.queue + [t];
    case NotifyOne(None) => CountPositive(s.workers, WAITING);
    case NotifyOne(Some(w)) =>
      Update(s.workers, w, Ready);
    case SetStop =>
    case NotifyAll => AwakeCounts(s.workers);
  }

  lemma {:induction false} InvRun(s: State, es: seq<Event>)
    requires Inv(s) && IsRun(s, es)
    ensures Inv(After(s, es))
    decreases |es|
  {
    if es != [] {
      InvStep(s, es[0]);
      InvRun(Apply(s, es[0]), es[1..]);
    }
  }

  // ---------------------------------------------------------------- main results

  /** No lost wake-up, in every reachable state: if a worker sleeps beside a queued task, then another one is
      on its way to the queue or a notification is (a busy worker does not count); and if there is work
      or the order to stop, and some worker is alive, then one is awake or a notification is on its way. */
  lemma NoLostWakeup(threads: nat, es: seq<Event>)
    requires IsRun(Start(threads), es)
    ensures var s := After(Start(threads), es);
            s.queue != [] && Waiting in s.workers ==> s.notifies > 0 || Ready in s.workers
    ensures var s := After(Start(threads), es);
            s.stop && Waiting in s.workers ==> s.notifyAll
    ensures var s := After(Start(threads), es);
            (s.queue != [] || s.stop) && (exists w <- s.workers :: !w.Exited?)
            ==> s.notifies > 0 || s.notifyAll || exists w <- s.workers :: w.Ready? || w.Running?
  {
    InvStart(threads);
    InvRun(Start(threads), es);
    var s := After(Start(threads), es);
    CountPositive(s.workers, WAITING);
    CountPositive(s.workers, READY);
    if Waiting in s.workers { assert Kind(Waiting) == WAITING; }
    if Count(s.workers, READY) > 0 {
      var i :| 0 <= i < |s.workers| && Kind(s.workers[i]) == READY;
      assert s.workers[i] in s.workers && s.workers[i] == Ready;
    }
    if w :| w in s.workers && !w.Exited? && !w.Ready? && !w.Running? { assert w == Waiting; }
  }

  /** First in, first out, exactly once, in every reachable state: the started tasks followed by the
      queue are the accepted tasks in order, and the started tasks are those finished or running. */
  lemma FifoExactlyOnce(threads: nat, es: seq<Event>)
    requires IsRun(Start(threads), es)
    ensures var s := After(Start(threads), es);
            && s.started + s.queue == s.accepted
            && (forall t :: multiset(s.finished)[t] + Runners(s.workers, t) == multiset(s.started)[t])
  {
    InvStart(threads);
    InvRun(Start(threads), es);
  }

  function Weight(ws: seq<Worker>): nat {
    Count(ws, READY) + 2 * Count(ws, WAITING) + 2 * Count(ws, RUNNING)
  }

  function Measure(s: State): nat {
    2 * |s.queue| + Weight(s.workers) + s.notifies + if s.notifyAll then 1 else 0
  }

  lemma StepsShrinkAfterStop(s: State, e: Event)
    requires Inv(s) && s.stop && Enabled(s, e)
    ensures Apply(s, e).stop && Measure(Apply(s, e)) < Measure(s)
  {
    hide Count, Runners, Awake;
    match e
    case Check(w) =>
      var d := Decide(s.queue, s.stop);
      Update(s.workers, w, if d.Sleep? then Waiting else if d.Return? then Exited else Running(d.task));
    case Finish(w) => Update(s.workers, w, Ready);
    case Spurious(w) => Update(s.workers, w, Ready);
    case Push(t) =>
    case NotifyOne(None) =>
    case NotifyOne(Some(w)) => Update(s.workers, w, Ready);
    case SetStop =>
    case NotifyAll => AwakeCounts(s.workers);
  }

  /** Nothing but a spurious wake-up could happen. */
  ghost predicate Quiet(s: State) {
    forall e :: Enabled(s, e) ==> e.Spurious?
  }

  lemma QuietMeansGone(s: State)
    requires Inv(s) && s.stop && Quiet(s)
    ensures forall w <- s.workers :: w.Exited?
    ensures s.workers != [] ==> s.queue == []
    ensures multiset(s.finished) == multiset(s.started)
  {
    assert !Enabled(s, NotifyAll);
    forall i | 0 <= i < |s.workers|
      ensures s.workers[i].Exited?
    {
      assert !Enabled(s, Check(i)) && !Enabled(s, Finish(i));
      CountPositive(s.workers, WAITING);
      assert !s.workers[i].Waiting?;
    }
    if s.workers != [] {
      assert Kind(s.workers[0]) == EXITED;
    }
    CountPositive(s.workers, EXITED);
    NoTasks(s.workers);
  }

  lemma {:induction false} NoTasks(ws: seq<Worker>)
    requires forall w <- ws :: w.Exited?
    ensures forall t :: Runners(ws, t) == 0
  {
    if ws != [] {
      NoTasks(ws[1..]);
      assert ws[0] in ws && ws[0].Exited?;
    }
  }

  /** Shutdown: once `stop_` is set, every run is finite, and where it cannot go on all workers have
      returned. All accepted tasks have then run, each once, if and only if the pool had a worker or
      nothing was queued. */
  lemma {:induction false} ShutdownDrains(s: State, es: seq<Event>)
    requires Inv(s) && s.stop && IsRun(s, es)
    ensures |es| <= Measure(s)
    ensures var t := After(s, es);
            Quiet(t) ==>
              && (forall w <- t.workers :: w.Exited?)
              && (multiset(t.finished) == multiset(t.accepted) <==> t.workers != [] || t.queue == [])
    decreases |es|
  {
    if es == [] {
      if Quiet(s) {
        QuietMeansGone(s);
        assert multiset(s.accepted) == multiset(s.started) + multiset(s.queue);
        if s.queue != [] {
          assert s.queue[0] in multiset(s.queue);
        }
      }
    } else {
      InvStep(s, es[0]);
      StepsShrinkAfterStop(s, es[0]);
      ShutdownDrains(Apply(s, es[0]), es[1..]);
    }
  }
}
