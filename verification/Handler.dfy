/** `LogicServer::Handle` and `ReportCb::dr_cb` as programs (server/msg_logic/logic_server.cc), each run
    without interruption by the other threads: what a whole call does to its context, to
    `rpc_contexts_` and to Kafka. `poll` inside Handle calls dr_cb, also for the call's own message. */
module Handler {
  import opened Options
  import opened Wire
  import opened Messages
  import opened Logic
  import Rpc
  import Topic

  /** The context is back in the completion queue, finished once, with this request and response. */
  predicate Answer(s: State, c: Rpc.Id, req: ProtoReq, resp: ProtoResp) {
    && c in s.server.ctxs && c in s.server.cq
    && var x := s.server.ctxs[c];
       && x.done && x.finished == [Rpc.OK] && !x.retired
       && x.req.Some? && x.req.value.req == req && x.req.value.resp == resp
  }

  /** Nothing but c has come back; no other context has changed, and the other threads are where they
      were. */
  ghost predicate OthersSame(s: State, s': State, c: Rpc.Id, w: nat) {
    && s'.server.ctxs.Keys == s.server.ctxs.Keys
    && (forall d <- s.server.ctxs | d != c :: s'.server.ctxs[d] == s.server.ctxs[d])
    && s'.server.cq == s.server.cq + multiset{c}
    && |s'.workers| == |s.workers| && (forall i | 0 <= i < |s.workers| && i != w :: s'.workers[i] == s.workers[i])
  }

  predicate SameTables(s: State, s': State) {
    s'.table == s.table && s'.topic == s.topic && s'.reports == s.reports
  }

  /** The context waits in the table for the report of its message. */
  predicate Parked(s: State, c: Rpc.Id, req: ProtoReq, resp: ProtoResp, id: bytes) {
    && Usable(s, c) && s.server.ctxs[c].finished == [] && JobOf(s, c).req == req && JobOf(s, c).resp == resp
    && id in s.table && s.table[id] == c && id in s.reports
  }

  /** What has become of a produced message's context: it waits, or was answered as its report says. */
  predicate Informed(s: State, c: Rpc.Id, req: ProtoReq, resp: ProtoResp, id: bytes, report: Option<bool>) {
    match report
    case None => Parked(s, c, req, resp, id)
    case Some(err) =>
      && Answer(s, c, req, if err then ProtoResp(ErrorCode(0), Err(Ascii("kafka error"))) else resp)
      && id !in s.table
  }

  /** The first report for the key. */
  function FirstReport(reports: seq<(bytes, bool)>, key: bytes): Option<bool> {
    if reports == [] then None
    else
      var earlier, last := FirstReport(reports[..|reports| - 1], key), reports[|reports| - 1];
      if earlier.Some? then earlier else if last.0 == key then Some(last.1) else None
  }

  lemma HeldIsFresh(s: State, w: nat)
    requires Inv(s) && Rpc.At(s.workers, w)
    ensures Usable(s, s.workers[w].c) && s.server.ctxs[s.workers[w].c].finished == []
  {
    hide Rpc.Held, Serving, KeysOk, AllHere, TopicOk, JobAt;
    var c := s.workers[w].c;
    assert FrameOk(s, s.workers[w]);
    Rpc.Update(s.workers, w, Rpc.Idle);
    assert s.server.out[c] == Rpc.Held(s.workers, c) + s.waiting[c];
    assert Rpc.CtxOk(s.server, c);
  }

  lemma DoneStep(s: State, w: nat, nested: bool)
    requires Inv(s) && Rpc.At(s.workers, w) && s.workers[w].at == SetDone(nested)
    ensures Usable(s, s.workers[w].c)
    ensures var a := DoStep(s, w);
            && Inv(a) && Rpc.At(a.workers, w) && a.workers[w] == Rpc.Busy(s.workers[w].c, Finishing(nested))
            && Usable(a, s.workers[w].c)
            && Inv(DoStep(a, w))
  {
    hide Inv;
    HeldIsFresh(s, w);
    InvWorker(s, w);
    InvWorker(DoStep(s, w), w);
  }

  /** The report is for a context that waits in the table. */
  lemma Served(s: State, w: nat, key: bytes, err: bool)
    requires Inv(s) && Polling(s, w) && key in s.reports
    ensures key in s.table && Usable(s, s.table[key])
    ensures var a := DoServe(s, w, key, err); Inv(a) && Inv(DoLookup(a, w))
  {
    hide Inv;
    InvServe(s, w, key, err);
    var a := DoServe(s, w, key, err);
    AlwaysLive(a, Lookup(w));
    InvLookup(a, w);
    Reported(s, w, key);
    Tabled(s, key);
  }

  lemma Tabled(s: State, key: bytes)
    requires Inv(s) && key in s.table
    ensures Usable(s, s.table[key]) && JobOf(s, s.table[key]).resp.str == Msgid(key)
    ensures s.server.ctxs[s.table[key]].finished == []
  {
    hide Rpc.Held, Serving, AllHere, TopicOk, FramesOk;
    assert KeyOk(s, key);
    EntryIsOut(s, key);
    assert Rpc.CtxOk(s.server, s.table[key]);
  }

  lemma Pooled(s: State, c: Rpc.Id, id: bytes)
    requires Inv(s) && c in s.server.pool && id !in s.ids
    ensures Usable(s, c) && id !in s.table
  {
    hide Rpc.Held, Serving, TopicOk, FramesOk, TextData;
    OnlyHere(s, c);
    assert KeyOk(s, id);
  }

  /** Another key leads to another context, and a context that was answered is not in the table. */
  lemma Elsewhere(s: State, c: Rpc.Id, id: bytes, key: bytes)
    requires Inv(s) && key in s.reports && c in s.server.ctxs && s.server.ctxs[c].req.Some?
    requires s.server.ctxs[c].finished != [] || s.server.ctxs[c].req.value.resp.str == Msgid(id)
    ensures key in s.table
    ensures s.table[key] == c ==> key == id && s.server.ctxs[c].finished == []
  {
    hide Rpc.Held, Serving, AllHere, TopicOk, FramesOk, Rpc.Inv;
    assert KeyOk(s, key);
    Tabled(s, key);
  }

  class LogicServer {
    var s: State

    constructor (first: Rpc.Id, threads: nat)
      ensures s == Boot(first, threads) && Inv(s)
    {
      s := Boot(first, threads);
      InvBoot(first, threads);
    }

    /** `done_ = true; responder_.Finish(resp_, OK, context)`. */
    method Finish(w: nat, nested: bool)
      requires Inv(s) && Rpc.At(s.workers, w) && s.workers[w].at == SetDone(nested)
      modifies this
      ensures Inv(s) && OthersSame(old(s), s, old(s).workers[w].c, w) && SameTables(old(s), s) && s.ids == old(s).ids
      ensures s.workers[w] == if nested then Rpc.Aside(Poll) else Rpc.Idle
      ensures var c := old(s).workers[w].c;
              Usable(old(s), c) && Answer(s, c, JobOf(old(s), c).req, JobOf(old(s), c).resp)
    {
      hide Inv;
      HeldIsFresh(s, w);
      DoneStep(s, w, nested);
      var c := s.workers[w].c;
      s := s.(server := Rpc.Mark(s.server, c), workers := s.workers[w := Rpc.Busy(c, Finishing(nested))]);
      s := s.(server := Rpc.Finish(s.server, c, Rpc.OK),
              workers := s.workers[w := if nested then Rpc.Aside(Poll) else Rpc.Idle]);
    }

    /** `set_error_code(0); set_err(…)` and then as above. */
    method Fail(w: nat, reason: Reason, nested: bool)
      requires Inv(s) && Rpc.At(s.workers, w) && s.workers[w].at == SetError(reason, nested)
      modifies this
      ensures Inv(s) && OthersSame(old(s), s, old(s).workers[w].c, w) && SameTables(old(s), s) && s.ids == old(s).ids
      ensures s.workers[w] == if nested then Rpc.Aside(Poll) else Rpc.Idle
      ensures var (c, text) := (old(s).workers[w].c, match reason
                                                     case InvalidRequest => "invalid request"
                                                     case ProduceError => "Produce error"
                                                     case KafkaError => "kafka error");
              Usable(old(s), c) && Answer(s, c, JobOf(old(s), c).req, ProtoResp(ErrorCode(0), Err(Ascii(text))))
    {
      hide Inv, Text, Ascii;
      TextMeans();
      HeldIsFresh(s, w);
      InvWorker(s, w);
      var c := s.workers[w].c;
      s := s.(server := Rpc.Note(s.server, c, JobOf(s, c).(resp := ErrorOf(reason), cause := Failed(reason))),
              workers := s.workers[w := Rpc.Busy(c, SetDone(nested))]);
      Finish(w, nested);
    }

    /** `dr_cb`, called from poll: the context that the key was registered for leaves the table and is
        finished, with an error if the report has one. */
    method DrCb(w: nat, key: bytes, err: bool)
      requires Inv(s) && Polling(s, w) && key in s.reports
      modifies this
      ensures Inv(s) && Polling(s, w) && s.topic == old(s).topic && s.ids == old(s).ids
      ensures key in old(s).table && s.table == old(s).table - {key} && s.reports == old(s).reports - multiset{key}
      ensures var c := old(s).table[key];
              && OthersSame(old(s), s, c, w) && Usable(old(s), c)
              && Answer(s, c, JobOf(old(s), c).req,
                        if err then ProtoResp(ErrorCode(0), Err(Ascii("kafka error"))) else JobOf(old(s), c).resp)
    {
      hide Inv, Text, Ascii;
      Served(s, w, key, err);
      s := DoServe(s, w, key, err);
      var c := s.table[key];
      s := s.(table := s.table - {key}, waiting := s.waiting - multiset{c});
      if err {
        s := s.(workers := s.workers[w := Rpc.Busy(c, SetError(KafkaError, true))]);
        Fail(w, KafkaError, true);
      } else {
        s := s.(workers := s.workers[w := Rpc.Busy(c, SetDone(true))],
                server := Rpc.Note(s.server, c, JobOf(s, c).(cause := Acked)));
        Finish(w, true);
      }
    }

    /** One call of Handle by thread w: `id` and `time` are what GenProtoResp makes, `friendOk` what
        FriendCtrlHandle returns, `accepted` whether produce succeeds, and `ready` the reports that poll
        then offers. */
    method Handle(w: nat, c: Rpc.Id, id: bytes, time: int64, friendOk: bool, accepted: bool, ready: seq<(bytes, bool)>)
      requires Inv(s) && Rpc.Free(s.workers, w) && c in s.server.pool && id !in s.ids && ValidUtf8(id)
      modifies this
      ensures Inv(s) && Rpc.Free(s.workers, w) && Usable(old(s), c)
      ensures var (req, resp) := (JobOf(old(s), c).req, ProtoResp(Timestamp(time), Msgid(id)));
              if req.kind == 8 && (if req.data.LogData? then req.data.log.kind else 0) == 0
              then Answer(s, c, req, resp) && SameTables(old(s), s) && OthersSame(old(s), s, c, w)
              else if || req.kind == 3 || req.kind == 6 || (req.kind == 1 && friendOk)
                      || (req.kind == 2 && (if req.data.Fstate? then req.data.fstate.kind else 0) == 0)
              then
                if !accepted
                then
                  && Answer(s, c, req, ProtoResp(ErrorCode(0), Err(Ascii("Produce error"))))
                  && SameTables(old(s), s) && OthersSame(old(s), s, c, w)
                else
                  && s.topic == old(s).topic + [Topic.Record(id, SerMq(MqMessage(Some(req), Some(resp))))]
                  && Informed(s, c, req, resp, id, FirstReport(ready, id))
              else
                && Answer(s, c, req, ProtoResp(ErrorCode(0), Err(Ascii("invalid request"))))
                && SameTables(old(s), s) && OthersSame(old(s), s, c, w)
    {
      hide Inv, Text, Ascii, Judge, SerMq, ValidUtf8, FirstReport, Informed;
      Pooled(s, c, id);
      var req := JobOf(s, c).req;
      JudgeMeans(req, friendOk);
      Generate(w, c, id, time);
      InvSwitch(s, w, friendOk);
      match Judge(req, friendOk)
      case Login =>
        s := s.(workers := s.workers[w := Rpc.Busy(c, SetDone(false))],
                server := Rpc.Note(s.server, c, JobOf(s, c).(cause := LoggedIn)));
        Finish(w, false);
      case Refuse =>
        s := s.(workers := s.workers[w := Rpc.Busy(c, SetError(InvalidRequest, false))]);
        Fail(w, InvalidRequest, false);
      case Send =>
        s := s.(workers := s.workers[w := Rpc.Busy(c, Register)]);
        Send(w, c, id, accepted, ready);
    }

    /** `resp_ = GenProtoResp(…)`. */
    method Generate(w: nat, c: Rpc.Id, id: bytes, time: int64)
      requires Inv(s) && Rpc.Free(s.workers, w) && c in s.server.pool && id !in s.ids && ValidUtf8(id)
      modifies this
      ensures Inv(s) && s.workers == old(s).workers[w := Rpc.Busy(c, Decide)] && SameTables(old(s), s)
      ensures Usable(old(s), c) && s.server.cq == old(s).server.cq
      ensures var j := JobOf(old(s), c).(resp := ProtoResp(Timestamp(time), Msgid(id)));
              s.server.ctxs == old(s).server.ctxs[c := old(s).server.ctxs[c].(req := Some(j))]
    {
      hide Inv, ValidUtf8;
      Pooled(s, c, id);
      InvBegin(s, w, c);
      s := s.(workers := s.workers[w := Rpc.Busy(c, Gen)], server := Rpc.Take(s.server, c));
      InvGenerate(s, w, id, time);
      var j := JobOf(s, c).(resp := ProtoResp(Timestamp(time), Msgid(id)));
      s := s.(workers := s.workers[w := Rpc.Busy(c, Decide)], ids := s.ids[id := c],
              server := Rpc.Note(s.server, c, j));
    }

    /** The part of Handle from the registration on. */
    method Send(w: nat, c: Rpc.Id, id: bytes, accepted: bool, ready: seq<(bytes, bool)>)
      requires Inv(s) && Rpc.At(s.workers, w) && s.workers[w] == Rpc.Busy(c, Register)
      requires Usable(s, c) && JobOf(s, c).resp.str == Msgid(id) && id !in s.table
      modifies this
      ensures Inv(s) && Rpc.Free(s.workers, w)
      ensures var (req, resp) := (JobOf(old(s), c).req, JobOf(old(s), c).resp);
              if !accepted
              then
                && Answer(s, c, req, ProtoResp(ErrorCode(0), Err(Ascii("Produce error"))))
                && SameTables(old(s), s) && OthersSame(old(s), s, c, w)
              else
                && s.topic == old(s).topic + [Topic.Record(id, SerMq(MqMessage(Some(req), Some(resp))))]
                && Informed(s, c, req, resp, id, FirstReport(ready, id))
    {
      hide Inv, Text, Ascii, SerMq, FirstReport, Informed;
      HeldIsFresh(s, w);
      InvWorker(s, w);
      s := s.(workers := s.workers[w := Rpc.Busy(c, Build)], table := s.table[id := c]);
      InvWorker(s, w);
      var mq := MqMessage(Some(JobOf(s, c).req), Some(JobOf(s, c).resp));
      s := s.(workers := s.workers[w := Rpc.Busy(c, Produce(mq))]);
      if !accepted {
        InvRejected(s, w);
        s := s.(workers := s.workers[w := Rpc.Busy(c, Erase(id))]);
        InvWorker(s, w);
        s := s.(table := s.table - {id}, workers := s.workers[w := Rpc.Busy(c, SetError(ProduceError, false))]);
        Fail(w, ProduceError, false);
        assert s.table == old(s).table;
      } else {
        InvAccepted(s, w);
        s := s.(workers := s.workers[w := Rpc.Aside(Poll)], reports := s.reports + multiset{id},
                topic := s.topic + [Topic.Record(id, SerMq(mq))], waiting := s.waiting + multiset{c});
        PollAll(w, c, id, ready);
      }
    }

    /** poll: the offered reports are served one after the other. */
    method PollAll(w: nat, c: Rpc.Id, id: bytes, ready: seq<(bytes, bool)>)
      requires Inv(s) && Polling(s, w) && Usable(s, c) && Parked(s, c, JobOf(s, c).req, JobOf(s, c).resp, id)
      requires JobOf(s, c).resp.str == Msgid(id)
      modifies this
      ensures Inv(s) && Rpc.Free(s.workers, w) && s.topic == old(s).topic
      ensures Informed(s, c, JobOf(old(s), c).req, JobOf(old(s), c).resp, id, FirstReport(ready, id))
    {
      hide Inv, Text, Ascii;
      var req, resp, n := JobOf(s, c).req, JobOf(s, c).resp, 0;
      while n < |ready|
        invariant n <= |ready| && Inv(s) && Polling(s, w) && s.topic == old(s).topic
        invariant Informed(s, c, req, resp, id, FirstReport(ready[..n], id))
      {
        assert ready[..n + 1][..n] == ready[..n];
        if ready[n].0 in s.reports {
          Elsewhere(s, c, id, ready[n].0);
          DrCb(w, ready[n].0, ready[n].1);
        }
        n := n + 1;
      }
      assert ready[..n] == ready;
      InvReturn(s, w);
      s := s.(workers := s.workers[w := Rpc.Idle]);
    }
  }
}
