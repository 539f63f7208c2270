/** Delivery reports are served only by `poll` inside a successful `Produce` (server/msg_logic/
    kafka_producer.cc), so a client whose message is already in Kafka may wait for somebody else to send. */
module Waiting {
  import opened Options
  import opened Wire
  import opened Messages
  import opened Logic
  import Rpc
  import Topic
  import Handler

  /** With all threads idle, the calls that are still in the table are exactly those with an unserved
      report. */
  lemma IdleEntryIff(first: Rpc.Id, threads: nat, es: seq<Event>, k: bytes)
    requires IsRun(Boot(first, threads), es) && forall w <- After(Boot(first, threads), es).workers :: w.Idle?
    ensures var s := After(Boot(first, threads), es); k in s.table <==> k in s.reports
  {
    hide IsRun, After, Inv;
    Reached(first, threads, es);
    IdleKey(After(Boot(first, threads), es), k);
  }

  lemma IdleKey(s: State, k: bytes)
    requires Inv(s) && forall w <- s.workers :: w.Idle?
    ensures k in s.table <==> k in s.reports
  {
    hide Serving, Rpc.Held, Rpc.Inv, OutOk, FramesOk, AllHere, TopicOk, Named;
    NobodyServes(s.workers, k);
    assert KeyOk(s, k);
    forall c: Rpc.Id, i: nat ensures !EnteredBy(s, c, i) {
      if i < |s.workers| { assert s.workers[i] in s.workers; }
    }
  }

  // ---------------------------------------------------------------- without a Produce nobody is answered

  /** The thread is in poll, or in dr_cb called from there. */
  predicate Polls(f: Rpc.Worker<Point>) {
    match f
    case Idle => false
    case Aside(_) => true
    case Busy(_, at) =>
      (at.SetError? && at.nested) || (at.SetDone? && at.nested) || (at.Finishing? && at.nested)
  }

  predicate NobodyPolls(s: State) {
    forall i | 0 <= i < |s.workers| :: !Polls(s.workers[i])
  }

  lemma QuietStep(s: State, e: Event)
    requires Possible(s, e) && Live(s, e) && NobodyPolls(s) && !(e.Produced? && e.accepted)
    ensures NobodyPolls(Apply(s, e)) && Apply(s, e).reports == s.reports
  {
    hide Judge, Text, Parse, DoStep, DoGenerate, DoSwitch, DoServe, DoLookup, DoProduced;
    match e
    case Produced(w, _) => QuietRejection(s, w);
    case Step(w) => QuietWorker(s, w);
    case Generate(w, id, time) => QuietGenerate(s, w, id, time);
    case Switch(w, friendOk) => QuietSwitch(s, w, friendOk);
    case _ =>
  }

  lemma QuietRejection(s: State, w: nat)
    requires Possible(s, Produced(w, false)) && NobodyPolls(s)
    ensures NobodyPolls(DoProduced(s, w, false)) && DoProduced(s, w, false).reports == s.reports
  {
  }

  lemma QuietWorker(s: State, w: nat)
    requires Possible(s, Step(w)) && Live(s, Step(w)) && NobodyPolls(s)
    ensures NobodyPolls(DoStep(s, w)) && DoStep(s, w).reports == s.reports
  {
    hide Text;
    assert !Polls(s.workers[w]);
  }

  lemma QuietGenerate(s: State, w: nat, id: bytes, time: int64)
    requires Possible(s, Generate(w, id, time)) && Live(s, Generate(w, id, time)) && NobodyPolls(s)
    ensures NobodyPolls(DoGenerate(s, w, id, time)) && DoGenerate(s, w, id, time).reports == s.reports
  {
  }

  lemma QuietSwitch(s: State, w: nat, friendOk: bool)
    requires Possible(s, Switch(w, friendOk)) && Live(s, Switch(w, friendOk)) && NobodyPolls(s)
    ensures NobodyPolls(DoSwitch(s, w, friendOk)) && DoSwitch(s, w, friendOk).reports == s.reports
  {
    hide Judge;
  }

  lemma IdsStay(s: State, e: Event, k: bytes)
    requires Possible(s, e) && Live(s, e) && k in s.ids
    ensures k in Apply(s, e).ids && Apply(s, e).ids[k] == s.ids[k]
  {
    hide Judge, Text, Parse;
  }

  lemma {:induction false} QuietRun(s: State, es: seq<Event>, k: bytes)
    requires IsRun(s, es) && NobodyPolls(s) && k in s.ids && forall e <- es :: !(e.Produced? && e.accepted)
    ensures NobodyPolls(After(s, es)) && After(s, es).reports == s.reports
    ensures k in After(s, es).ids && After(s, es).ids[k] == s.ids[k]
    decreases |es|
  {
    hide Apply, Possible, Live, NobodyPolls;
    if es != [] {
      QuietStep(s, es[0]);
      IdsStay(s, es[0], k);
      QuietRun(Apply(s, es[0]), es[1..], k);
    }
  }

  /** A message in Kafka with an outstanding report: its context is in the table, under the key it was
      given, and not finished. */
  lemma Unserved(s: State, k: bytes)
    requires Inv(s) && k in s.reports
    ensures k in s.table && k in s.ids && s.ids[k] == s.table[k]
    ensures Usable(s, s.table[k]) && s.server.ctxs[s.table[k]].finished == []
  {
    hide Rpc.Held, Serving, Rpc.Inv, OutOk, AllHere, TopicOk, FramesOk;
    assert KeyOk(s, k);
    Handler.Tabled(s, k);
  }

  /** Once nobody polls, a client whose report is outstanding stays unanswered in every run in which no
      further message is accepted by Kafka. */
  lemma WaitsForSomebodyElse(first: Rpc.Id, threads: nat, es: seq<Event>, more: seq<Event>, k: bytes)
    requires IsRun(Boot(first, threads), es) && IsRun(After(Boot(first, threads), es), more)
    requires NobodyPolls(After(Boot(first, threads), es)) && k in After(Boot(first, threads), es).reports
    requires forall e <- more :: !(e.Produced? && e.accepted)
    ensures var s := After(Boot(first, threads), es);
            var s' := After(s, more);
            && k in s.table && k in s'.table && s'.table[k] == s.table[k]
            && k in s'.reports && Usable(s', s.table[k]) && s'.server.ctxs[s.table[k]].finished == []
  {
    hide IsRun, After, Inv, NobodyPolls, Usable;
    Reached(first, threads, es);
    var s := After(Boot(first, threads), es);
    Unserved(s, k);
    QuietRun(s, more, k);
    InvRun(s, more);
    Unserved(After(s, more), k);
  }

  /** And as soon as some thread polls, the report can be served, and its client is then answered, by
      the steps of dr_cb alone. */
  lemma PollAnswers(s: State, w: nat, k: bytes) returns (es: seq<Event>)
    requires Inv(s) && Polling(s, w) && k in s.reports
    ensures IsRun(s, es) && forall e <- es :: e == Serve(w, k, false) || e == Lookup(w) || e == Step(w)
    ensures k in s.table && Usable(s, s.table[k])
    ensures Handler.Answer(After(s, es), s.table[k], JobOf(s, s.table[k]).req, JobOf(s, s.table[k]).resp)
  {
    hide Inv, IsRun, After;
    Unserved(s, k);
    Handler.Served(s, w, k, false);
    var a, c := DoServe(s, w, k, false), s.table[k];
    var b := DoLookup(a, w);
    Start(s);
    Extend(s, [], Serve(w, k, false));
    es := [] + [Serve(w, k, false)];
    Extend(s, es, Lookup(w));
    es := es + [Lookup(w)];
    Answers(s, es, w);
    es := es + [Step(w)] + [Step(w)];
  }

  lemma Answers(s: State, es: seq<Event>, w: nat)
    requires IsRun(s, es) && Inv(After(s, es)) && Rpc.At(After(s, es).workers, w)
    requires After(s, es).workers[w].at == SetDone(true)
    ensures IsRun(s, es + [Step(w)] + [Step(w)])
    ensures var (b, c) := (After(s, es), After(s, es).workers[w].c);
            Usable(b, c) && Handler.Answer(After(s, es + [Step(w)] + [Step(w)]), c, JobOf(b, c).req, JobOf(b, c).resp)
  {
    hide Inv, IsRun, After;
    var b := After(s, es);
    Handler.HeldIsFresh(b, w);
    Handler.DoneStep(b, w, true);
    Extend(s, es, Step(w));
    Extend(s, es + [Step(w)], Step(w));
  }

  // ---------------------------------------------------------------- the input

  lemma {:induction false} Extend(s: State, es: seq<Event>, e: Event)
    requires IsRun(s, es) && Possible(After(s, es), e) && Live(After(s, es), e)
    ensures IsRun(s, es + [e]) && After(s, es + [e]) == Apply(After(s, es), e)
    decreases |es|
  {
    hide Possible, Live, Apply;
    if es == [] {
      assert [e][1..] == [];
    } else {
      assert (es + [e])[1..] == es[1..] + [e];
      Extend(Apply(s, es[0]), es[1..], e);
    }
  }

  /** A server with one thread, in which only the context 0 has a history. */
  predicate Alone(s: State, job: Job, f: Rpc.Worker<Point>, table: map<bytes, Rpc.Id>) {
    && s.workers == [f] && s.table == table && 0 in s.server.ctxs
    && s.server.ctxs[0] == Rpc.Ctx(Some(job), false, [], false)
  }

  /** Any request comes in as the only one, and a thread takes it. */
  lemma Taken(req: ProtoReq) returns (es: seq<Event>)
    requires TextData(req.data) && |EncodeAll(RecsReq(req))| < TWO_31
    ensures IsRun(Boot(0, 1), es) && After(Boot(0, 1), es).reports == multiset{} && After(Boot(0, 1), es).ids == map[]
    ensures Alone(After(Boot(0, 1), es), Job(req, NO_RESP, Open), Rpc.Busy(0, Gen), map[])
  {
    hide TextData, EncodeAll, RecsReq, Parse, IsRun, After, MergeReq;
    var bs, s := EncodeAll(RecsReq(req)), Boot(0, 1);
    NoText();
    ReqParses(NO_REQ, req, []);
    MergeIntoNothing(NO_PUSH, MqMessage(Some(req), None));
    es := [];
    Start(s);
    Extend(s, es, Inbound(0, bs));
    es := es + [Inbound(0, bs)];
    Extend(s, es, Turn(0, 1));
    es := es + [Turn(0, 1)];
    Extend(s, es, Begin(0, 0));
    es := es + [Begin(0, 0)];
  }

  /** One that may be sent is handled up to its registration. */
  lemma FirstSteps(req: ProtoReq, id: bytes, time: int64) returns (es: seq<Event>)
    requires Judge(req, true) == Send && TextData(req.data) && ValidUtf8(id) && |EncodeAll(RecsReq(req))| < TWO_31
    ensures IsRun(Boot(0, 1), es) && After(Boot(0, 1), es).reports == multiset{}
    ensures var job := Job(req, ProtoResp(Timestamp(time), Msgid(id)), Open);
            Alone(After(Boot(0, 1), es), job, Rpc.Busy(0, Register), map[])
  {
    hide Judge, TextData, ValidUtf8, EncodeAll, RecsReq, IsRun, After;
    var s := Boot(0, 1);
    es := Taken(req);
    Extend(s, es, Generate(0, id, time));
    es := es + [Generate(0, id, time)];
    Extend(s, es, Switch(0, true));
    es := es + [Switch(0, true)];
  }

  lemma Start(s: State)
    ensures IsRun(s, []) && After(s, []) == s
  {
  }

  /** So the input is any single message: it is in Kafka, every thread is idle, and its client waits. */
  lemma LastSenderWaits(req: ProtoReq, id: bytes, time: int64) returns (es: seq<Event>)
    requires || req.kind == 1 || req.kind == 3 || req.kind == 6
             || (req.kind == 2 && (if req.data.Fstate? then req.data.fstate.kind else 0) == 0)
    requires TextData(req.data) && ValidUtf8(id) && |EncodeAll(RecsReq(req))| < TWO_31
    ensures IsRun(Boot(0, 1), es)
    ensures var s := After(Boot(0, 1), es);
            && (forall w <- s.workers :: w.Idle?) && NobodyPolls(s)
            && s.table == map[id := 0] && s.reports == multiset{id}
            && 0 in s.server.ctxs && s.server.ctxs[0].finished == []
  {
    hide Judge, TextData, ValidUtf8, EncodeAll, RecsReq, IsRun, After, RecordOf;
    var s := Boot(0, 1);
    JudgeMeans(req, true);
    es := FirstSteps(req, id, time);
    Extend(s, es, Step(0));
    es := es + [Step(0)];
    Extend(s, es, Step(0));
    es := es + [Step(0)];
    Extend(s, es, Produced(0, true));
    es := es + [Produced(0, true)];
    Extend(s, es, Return(0));
    es := es + [Return(0)];
  }
}
