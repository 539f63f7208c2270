/** The life of an RPC context in the logic server: completion queue, thread pool, `Handle`, the map
    `rpc_contexts_`, Kafka delivery reports, `Finish` and `delete`
    (server/msg_logic/logic_server.cc, kafka_producer.cc, msgid.h). Every interleaving of the queue
    loop, pool threads and callbacks is a run of the state machine below. */
module Logic {
  import opened Options
  import opened Wire
  import opened Messages
  import opened Rpc
  import Topic

  datatype Reason = InvalidRequest | ProduceError | KafkaError

  function Ascii(s: string): bytes {
    if s == "" then [] else [s[0] as int % 256] + Ascii(s[1..])
  }

  lemma {:induction false} AsciiMeans(s: string)
    requires forall i | 0 <= i < |s| :: s[i] as int < 256
    ensures |Ascii(s)| == |s| && forall i | 0 <= i < |s| :: Ascii(s)[i] == s[i] as int
  {
    if s != "" {
      AsciiMeans(s[1..]);
    }
  }

  function Text(r: Reason): bytes {
    match r
    case InvalidRequest => Ascii("invalid request")
    case ProduceError => Ascii("Produce error")
    case KafkaError => Ascii("kafka error")
  }

  function ErrorOf(reason: Reason): ProtoResp {
    ProtoResp(ErrorCode(0), Err(Text(reason)))
  }

  lemma TextMeans()
    ensures ErrorOf(InvalidRequest) == ProtoResp(ErrorCode(0), Err(Ascii("invalid request")))
    ensures ErrorOf(ProduceError) == ProtoResp(ErrorCode(0), Err(Ascii("Produce error")))
    ensures ErrorOf(KafkaError) == ProtoResp(ErrorCode(0), Err(Ascii("kafka error")))
  {
    hide Ascii;
  }

  // ---------------------------------------------------------------- the switch of Handle

  datatype Judgement = Login | Send | Refuse

  /** What the `switch` over the request type decides; `friendOk` is what FriendCtrlHandle returned
      (false if it threw). */
  function Judge(req: ProtoReq, friendOk: bool): Judgement {
    match req.kind
    case 1 => if friendOk then Send else Refuse
    case 2 => if (if req.data.Fstate? then req.data.fstate else NO_STATE).kind == 0 then Send else Refuse
    case 3 => Send
    case 6 => Send
    case 8 => if (if req.data.LogData? then req.data.log else NO_LOG).kind == 0 then Login else Refuse
    case _ => Refuse
  }

  /** A LOGIN is answered at once; friend control that succeeded, a typing notice, a friend message and a group
      message are sent; everything else is refused. */
  lemma JudgeMeans(req: ProtoReq, friendOk: bool)
    ensures Judge(req, friendOk) == Login
       <==> req.kind == 8 && (if req.data.LogData? then req.data.log.kind else 0) == 0
    ensures Judge(req, friendOk) == Send
       <==> || req.kind == 3 || req.kind == 6 || (req.kind == 1 && friendOk)
            || (req.kind == 2 && (if req.data.Fstate? then req.data.fstate.kind else 0) == 0)
  {
  }

  predicate Sendable(req: ProtoReq) {
    req.kind == 1 || Judge(req, true) == Send
  }

  // ---------------------------------------------------------------- state

  /** Why a context was finished. */
  datatype Cause = Open | LoggedIn | Acked | Failed(reason: Reason)

  /** `req_` and `resp_` of a context; `cause` is history. */
  datatype Job = Job(req: ProtoReq, resp: ProtoResp, cause: Cause)

  /** Program points. `nested` says that the thread is in dr_cb, called from poll. */
  datatype Point =
    | Gen                               // resp_ = GenProtoResp(…)
    | Decide                            // the switch
    | Register                          // rpc_contexts_[msgid] = context
    | Build                             // copy response and request into the message
    | Produce(mq: MqMessage)            // producer_->produce
    | Erase(key: bytes)                 // produce failed: rpc_contexts_.erase
    | SetError(reason: Reason, nested: bool)
    | SetDone(nested: bool)
    | Finishing(nested: bool)
    | Poll                              // produced: poll, then return
    | Callback(key: bytes, err: bool)   // dr_cb looks the context up

  /** `table` is rpc_contexts_, `reports` the accepted messages whose delivery report is outstanding,
      `topic` the accepted messages. `ids` (the msgids handed out) and `acks` (those reported without an
      error) are history; `waiting` is an auxiliary variable: the contexts that can only be reached
      through the table. */
  datatype State = State(
    server: Server<Job>, workers: seq<Worker<Point>>, table: map<bytes, Id>, reports: multiset<bytes>,
    topic: seq<Topic.Record>, ids: map<bytes, Id>, acks: set<bytes>, waiting: multiset<Id>)

  predicate Usable(s: State, c: Id) {
    Rpc.Live(s.server, c) && s.server.ctxs[c].req.Some?
  }

  function JobOf(s: State, c: Id): Job
    requires Usable(s, c)
  {
    s.server.ctxs[c].req.value
  }

  function MessageOf(j: Job): MqMessage {
    MqMessage(Some(j.req), Some(j.resp))
  }

  /** What Produce puts into Kafka: the key is the msgid, the payload the serialized message. */
  function RecordOf(mq: MqMessage): Topic.Record {
    Topic.Record(Topic.IdOf(mq), SerMq(mq))
  }

  // ---------------------------------------------------------------- steps

  datatype Event =
    | Inbound(c: Id, bs: bytes)            // a request arrives as bytes
    | Turn(c: Id, n: Id)
    | Begin(w: nat, c: Id)
    | Generate(w: nat, id: bytes, time: int64)
    | Switch(w: nat, friendOk: bool)
    | Step(w: nat)
    | Produced(w: nat, accepted: bool)
    | Serve(w: nat, key: bytes, err: bool)   // poll calls dr_cb
    | Lookup(w: nat)                         // dr_cb takes the context out of the table
    | Return(w: nat)                         // poll returns

  predicate Polling(s: State, w: nat) {
    w < |s.workers| && s.workers[w].Aside? && s.workers[w].at.Poll?
  }

  /** Control has reached the step. Nothing is said about the memory it uses. */
  predicate Possible(s: State, e: Event) {
    match e
    case Inbound(c, bs) => c in s.server.armed && Parse(SwitchReq, NO_REQ, bs).Ok?
    case Turn(c, n) => c in s.server.cq && n !in s.server.ctxs
    case Begin(w, c) => Free(s.workers, w) && c in s.server.pool
    case Generate(w, id, _) => At(s.workers, w) && s.workers[w].at.Gen? && id !in s.ids && ValidUtf8(id)
    case Switch(w, _) => At(s.workers, w) && s.workers[w].at.Decide?
    case Step(w) => At(s.workers, w) && Steps(s.workers[w].at)
    case Produced(w, _) => At(s.workers, w) && s.workers[w].at.Produce?
    case Serve(w, key, _) => Polling(s, w) && key in s.reports
    case Lookup(w) => w < |s.workers| && s.workers[w].Aside? && s.workers[w].at.Callback?
    case Return(w) => Polling(s, w)
  }

  predicate Steps(at: Point) {
    at.Register? || at.Build? || at.Erase? || at.SetError? || at.SetDone? || at.Finishing?
  }

  /** The context that a step dereferences is allocated, not deleted, and holds a request. */
  predicate Live(s: State, e: Event)
    requires Possible(s, e)
  {
    match e
    case Inbound(c, _) => Rpc.Live(s.server, c)
    case Turn(c, _) => Usable(s, c)
    case Generate(w, _, _) => Usable(s, s.workers[w].c)
    case Switch(w, _) => Usable(s, s.workers[w].c)
    case Step(w) => Usable(s, s.workers[w].c)
    case Lookup(w) => var key := s.workers[w].at.key; key in s.table ==> Usable(s, s.table[key])
    case _ => true
  }

  function Move(s: State, w: nat, f: Worker<Point>): State
    requires w < |s.workers|
  {
    s.(workers := s.workers[w := f])
  }

  function DoGenerate(s: State, w: nat, id: bytes, time: int64): State
    requires At(s.workers, w) && Usable(s, s.workers[w].c)
  {
    var c := s.workers[w].c;
    s.(workers := s.workers[w := Busy(c, Decide)], ids := s.ids[id := c],
       server := Note(s.server, c, JobOf(s, c).(resp := ProtoResp(Timestamp(time), Msgid(id)))))
  }

  function DoSwitch(s: State, w: nat, friendOk: bool): State
    requires At(s.workers, w) && Usable(s, s.workers[w].c)
  {
    var c := s.workers[w].c;
    match Judge(JobOf(s, c).req, friendOk)
    case Login => s.(workers := s.workers[w := Busy(c, SetDone(false))],
                     server := Note(s.server, c, JobOf(s, c).(cause := LoggedIn)))
    case Send => Move(s, w, Busy(c, Register))
    case Refuse => Move(s, w, Busy(c, SetError(InvalidRequest, false)))
  }

  function DoStep(s: State, w: nat): State
    requires At(s.workers, w) && Steps(s.workers[w].at) && Usable(s, s.workers[w].c)
  {
    var c := s.workers[w].c;
    match s.workers[w].at
    case Register => Move(s, w, Busy(c, Build)).(table := s.table[MsgidOf(JobOf(s, c).resp) := c])
    case Build => Move(s, w, Busy(c, Produce(MessageOf(JobOf(s, c)))))
    case Erase(key) => Move(s, w, Busy(c, SetError(ProduceError, false))).(table := s.table - {key})
    case SetError(reason, nested) =>
      s.(workers := s.workers[w := Busy(c, SetDone(nested))],
         server := Note(s.server, c, JobOf(s, c).(resp := ErrorOf(reason), cause := Failed(reason))))
    case SetDone(nested) => s.(workers := s.workers[w := Busy(c, Finishing(nested))], server := Mark(s.server, c))
    case Finishing(nested) =>
      s.(workers := s.workers[w := if nested then Aside(Poll) else Idle], server := Finish(s.server, c, OK))
  }

  /** An accepted message is in Kafka, and the thread no longer has the context. */
  function DoProduced(s: State, w: nat, accepted: bool): State
    requires At(s.workers, w) && s.workers[w].at.Produce?
  {
    var (c, mq) := (s.workers[w].c, s.workers[w].at.mq);
    if !accepted then Move(s, w, Busy(c, Erase(Topic.IdOf(mq))))
    else s.(workers := s.workers[w := Aside(Poll)], reports := s.reports + multiset{Topic.IdOf(mq)},
            topic := s.topic + [RecordOf(mq)], waiting := s.waiting + multiset{c})
  }

  function DoServe(s: State, w: nat, key: bytes, err: bool): State
    requires w < |s.workers|
  {
    s.(workers := s.workers[w := Aside(Callback(key, err))], reports := s.reports - multiset{key},
       acks := if err then s.acks else s.acks + {key})
  }

  /** `dr_cb`: look the context up and erase it; an unknown key is only logged. */
  function DoLookup(s: State, w: nat): State
    requires w < |s.workers| && s.workers[w].Aside? && s.workers[w].at.Callback?
    requires s.workers[w].at.key in s.table ==> Usable(s, s.table[s.workers[w].at.key])
  {
    var Callback(key, err) := s.workers[w].at;
    if key !in s.table then Move(s, w, Aside(Poll))
    else
      var c := s.table[key];
      s.(table := s.table - {key}, waiting := s.waiting - multiset{c},
         workers := s.workers[w := Busy(c, if err then SetError(KafkaError, true) else SetDone(true))],
         server := if err then s.server else Note(s.server, c, JobOf(s, c).(cause := Acked)))
  }

  function Apply(s: State, e: Event): State
    requires Possible(s, e) && Live(s, e)
  {
    match e
    case Inbound(c, bs) => s.(server := Arrive(s.server, c, Job(Parse(SwitchReq, NO_REQ, bs).value, NO_RESP, Open)))
    case Turn(c, n) => s.(server := Next(s.server, c, n))
    case Begin(w, c) => Move(s, w, Busy(c, Gen)).(server := Take(s.server, c))
    case Generate(w, id, time) => DoGenerate(s, w, id, time)
    case Switch(w, friendOk) => DoSwitch(s, w, friendOk)
    case Step(w) => DoStep(s, w)
    case Produced(w, accepted) => DoProduced(s, w, accepted)
    case Serve(w, key, err) => DoServe(s, w, key, err)
    case Lookup(w) => DoLookup(s, w)
    case Return(w) => Move(s, w, Idle)
  }

  // ---------------------------------------------------------------- the invariant

  predicate IsSuccess(resp: ProtoResp) {
    resp.result.Timestamp? && resp.str.Msgid?
  }

  /** The response carries a time and the msgid that was generated for this context. */
  predicate Named(s: State, j: Job, c: Id) {
    IsSuccess(j.resp) && j.resp.str.msgid in s.ids && s.ids[j.resp.str.msgid] == c && ValidUtf8(j.resp.str.msgid)
  }

  /** The response fits the cause. */
  predicate Answered(s: State, j: Job, c: Id) {
    match j.cause
    case Open => false
    case LoggedIn => Named(s, j, c) && Judge(j.req, true) == Login
    case Acked => Named(s, j, c) && RecordOf(MessageOf(j)) in s.topic && j.resp.str.msgid in s.acks
    case Failed(reason) => j.resp == ErrorOf(reason)
  }

  /** Registered, or about to be: nothing has been decided. */
  predicate Ready(s: State, j: Job, c: Id) {
    Named(s, j, c) && j.cause.Open? && Sendable(j.req) && TextData(j.req.data)
  }

  /** The thread has registered the context and still has a pointer to it. */
  predicate Entering(at: Point) {
    at.Build? || at.Produce? || at.Erase?
  }

  predicate Registered(s: State, j: Job, c: Id) {
    Ready(s, j, c) && j.resp.str.msgid in s.table && s.table[j.resp.str.msgid] == c
  }

  predicate JobAt(s: State, c: Id, j: Job, done: bool, at: Point) {
    && (done <==> at.Finishing?)
    && match at
       case Gen => j.cause.Open? && TextData(j.req.data)
       case Decide => Named(s, j, c) && j.cause.Open? && TextData(j.req.data)
       case Register => Ready(s, j, c)
       case Build => Registered(s, j, c)
       case Produce(mq) => Registered(s, j, c) && mq == MessageOf(j)
       case Erase(key) => Registered(s, j, c) && key == j.resp.str.msgid
       case SetError(_, _) => true
       case SetDone(_) => Answered(s, j, c)
       case Finishing(_) => Answered(s, j, c)
       case Poll => false
       case Callback(_, _) => false
  }

  ghost predicate FrameOk(s: State, f: Worker<Point>) {
    match f
    case Idle => true
    case Busy(c, at) => Usable(s, c) && JobAt(s, c, JobOf(s, c), s.server.ctxs[c].done, at)
    case Aside(at) => at.Poll? || (at.Callback? && (at.err || at.key in s.acks))
  }

  /** The invariant at one context. */
  ghost predicate Here(s: State, c: Id) {
    && (c in s.waiting ==>
          && Usable(s, c) && !s.server.ctxs[c].done && Registered(s, JobOf(s, c), c)
          && RecordOf(MessageOf(JobOf(s, c))) in s.topic)
    && (c in s.server.pool || (c in s.server.cq && c in s.server.ctxs && !s.server.ctxs[c].done) ==>
          Usable(s, c) && JobOf(s, c).cause.Open? && TextData(JobOf(s, c).req.data))
    && (c in s.server.ctxs && s.server.ctxs[c].finished != [] ==>
          s.server.ctxs[c].req.Some? && Answered(s, s.server.ctxs[c].req.value, c))
  }

  /** How many threads are in dr_cb for this key. */
  function Serving(ws: seq<Worker<Point>>, key: bytes): nat {
    if ws == [] then 0
    else (if ws[0].Aside? && ws[0].at.Callback? && ws[0].at.key == key then 1 else 0) + Serving(ws[1..], key)
  }

  ghost predicate EnteredBy(s: State, c: Id, i: nat) {
    i < |s.workers| && s.workers[i].Busy? && s.workers[i].c == c && Entering(s.workers[i].at)
  }

  /** The invariant at one key: an entry is for the context with that msgid, which either waits for its
      one report or is still with the thread that registered it. */
  ghost predicate KeyOk(s: State, k: bytes) {
    && (k in s.table ==>
          && var c := s.table[k];
             && Usable(s, c) && Named(s, JobOf(s, c), c) && JobOf(s, c).resp.str.msgid == k
             && (c in s.waiting || exists i :: EnteredBy(s, c, i)))
    && s.reports[k] + Serving(s.workers, k) == (if k in s.table && s.table[k] in s.waiting then 1 else 0)
    && (k in s.ids ==> s.ids[k] in s.server.ctxs)
  }

  /** A message in Kafka carries a time, has its own msgid as key, and its request may be sent. */
  ghost predicate RecordOk(r: Topic.Record) {
    exists mq: MqMessage :: r == RecordOf(mq) && MessageOk(mq)
  }

  predicate MessageOk(mq: MqMessage) {
    && mq.originReq.Some? && Sendable(mq.originReq.value)
    && mq.handleResult.Some? && IsSuccess(mq.handleResult.value) && TextMq(mq)
  }

  ghost predicate OutOk(s: State) {
    forall c :: s.server.out[c] == Held(s.workers, c) + s.waiting[c]
  }

  ghost predicate FramesOk(s: State) {
    forall i | 0 <= i < |s.workers| :: FrameOk(s, s.workers[i])
  }

  ghost predicate AllHere(s: State) {
    forall c :: Here(s, c)
  }

  ghost predicate KeysOk(s: State) {
    forall k :: KeyOk(s, k)
  }

  ghost predicate TopicOk(topic: seq<Topic.Record>) {
    forall r <- topic :: RecordOk(r)
  }

  ghost predicate Inv(s: State) {
    Rpc.Inv(s.server) && OutOk(s) && FramesOk(s) && AllHere(s) && KeysOk(s) && TopicOk(s.topic)
  }

  function Boot(first: Id, threads: nat): State {
    State(Rpc.Start(first), AllIdle(threads), map[], multiset{}, [], map[], {}, multiset{})
  }

  lemma {:induction false} NothingServed(n: nat, k: bytes)
    ensures Serving(AllIdle(n), k) == 0
  {
    if n > 0 {
      NothingServed(n - 1, k);
      assert AllIdle<Point>(n)[1..] == AllIdle(n - 1);
    }
  }

  lemma InvBoot(first: Id, threads: nat)
    ensures Inv(Boot(first, threads))
  {
    var s := Boot(first, threads);
    forall c ensures Held(s.workers, c) == 0 { NothingHeld<Point>(threads, c); }
    forall k ensures KeyOk(s, k) { NothingServed(threads, k); }
    InvStart<Job>(first);
  }

  lemma {:induction false} UpdateServing(ws: seq<Worker<Point>>, i: nat, f: Worker<Point>)
    requires i < |ws|
    ensures forall k :: Serving(ws[i := f], k)
                     == Serving(ws, k) - (if ws[i].Aside? && ws[i].at.Callback? && ws[i].at.key == k then 1 else 0)
                      + (if f.Aside? && f.at.Callback? && f.at.key == k then 1 else 0)
  {
    if i == 0 {
      assert ws[0 := f][1..] == ws[1..];
    } else {
      UpdateServing(ws[1..], i - 1, f);
      assert ws[i := f][1..] == ws[1..][i - 1 := f];
    }
  }

  // ---------------------------------------------------------------- steps are local

  /** Nothing but the contexts C, worker w and the keys K changes, except that msgids and Kafka messages
      may be added. */
  ghost predicate Only(s: State, s': State, C: set<Id>, w: int, K: set<bytes>) {
    && |s'.workers| == |s.workers|
    && (forall i | 0 <= i < |s.workers| && i != w :: s'.workers[i] == s.workers[i])
    && (forall d | d !in C :: SameAt(s, s', d))
    && (forall k | k !in K :: SameKey(s, s', k))
    && (forall k <- s.ids :: k in s'.ids && s'.ids[k] == s.ids[k])
    && (forall r <- s.topic :: r in s'.topic) && s.acks <= s'.acks
  }

  ghost predicate SameAt(s: State, s': State, d: Id) {
    && (d in s'.server.ctxs <==> d in s.server.ctxs) && (d in s.server.ctxs ==> s'.server.ctxs[d] == s.server.ctxs[d])
    && s'.waiting[d] == s.waiting[d] && s'.server.cq[d] == s.server.cq[d] && s'.server.pool[d] == s.server.pool[d]
  }

  ghost predicate SameKey(s: State, s': State, k: bytes) {
    && (k in s'.table <==> k in s.table) && (k in s.table ==> s'.table[k] == s.table[k])
    && s'.reports[k] == s.reports[k] && Serving(s'.workers, k) == Serving(s.workers, k)
    && (k in s'.ids ==> k in s.ids || s'.ids[k] in s'.server.ctxs)
  }

  /** C, w and K belong together: no other thread has a context of C, no other key leads to one, and the
      keys of K were generated for contexts of C. */
  ghost predicate Apart(s: State, C: set<Id>, w: int, K: set<bytes>) {
    && (forall i | 0 <= i < |s.workers| && i != w && s.workers[i].Busy? :: s.workers[i].c !in C)
    && (forall k <- s.table | k !in K :: s.table[k] !in C)
    && (forall k <- K | k in s.ids :: s.ids[k] in C)
  }

  lemma NamedKept(s: State, s': State, C: set<Id>, w: int, K: set<bytes>, j: Job, d: Id)
    requires Only(s, s', C, w, K) && Apart(s, C, w, K) && d !in C
    ensures Named(s, j, d) ==> Named(s', j, d)
    ensures Answered(s, j, d) ==> Answered(s', j, d)
    ensures Registered(s, j, d) ==> Registered(s', j, d)
  {
    hide Judge, Text, SerMq, Sendable, TextData, Serving, SameAt, ValidUtf8;
    if Registered(s, j, d) {
      assert SameKey(s, s', j.resp.str.msgid);
    }
  }

  lemma FrameKept(s: State, s': State, C: set<Id>, w: int, K: set<bytes>, i: nat)
    requires Inv(s) && Only(s, s', C, w, K) && Apart(s, C, w, K) && i < |s.workers| && i != w
    ensures FrameOk(s', s'.workers[i])
  {
    hide Rpc.Inv, OutOk, AllHere, KeysOk, TopicOk, Named, Answered, Registered, Sendable, TextData, SameKey;
    assert FrameOk(s, s.workers[i]);
    if s.workers[i].Busy? {
      var c := s.workers[i].c;
      assert SameAt(s, s', c);
      NamedKept(s, s', C, w, K, JobOf(s, c), c);
    }
  }

  lemma HereKept(s: State, s': State, C: set<Id>, w: int, K: set<bytes>, c: Id)
    requires Inv(s) && Only(s, s', C, w, K) && Apart(s, C, w, K) && c !in C
    ensures Here(s', c)
  {
    hide Rpc.Inv, OutOk, FramesOk, KeysOk, TopicOk, Named, Answered, Registered, Sendable, TextData, SameKey, SerMq;
    assert Here(s, c) && SameAt(s, s', c);
    if c in s.server.ctxs && s.server.ctxs[c].req.Some? {
      NamedKept(s, s', C, w, K, s.server.ctxs[c].req.value, c);
    }
  }

  lemma KeyKept(s: State, s': State, C: set<Id>, w: int, K: set<bytes>, k: bytes)
    requires Inv(s) && Only(s, s', C, w, K) && Apart(s, C, w, K) && k !in K
    requires forall c <- C | c in s.server.ctxs :: c in s'.server.ctxs
    requires 0 <= w < |s.workers| && s.workers[w].Busy? ==> s.workers[w].c in C
    ensures KeyOk(s', k)
  {
    hide Rpc.Inv, OutOk, FramesOk, AllHere, TopicOk, Named, Answered, Registered, Sendable, Serving;
    assert KeyOk(s, k) && SameKey(s, s', k);
    if k in s.ids && s.ids[k] !in C { assert SameAt(s, s', s.ids[k]); }
    if k in s.table {
      var c := s.table[k];
      assert SameAt(s, s', c);
      NamedKept(s, s', C, w, K, JobOf(s, c), c);
      if c !in s.waiting {
        var i :| EnteredBy(s, c, i);
        assert EnteredBy(s', c, i);
      }
    }
  }

  lemma Local(s: State, s': State, C: set<Id>, w: int, K: set<bytes>)
    requires Inv(s) && Only(s, s', C, w, K) && Apart(s, C, w, K) && Rpc.Inv(s'.server) && OutOk(s') && TopicOk(s'.topic)
    requires forall c <- C | c in s.server.ctxs :: c in s'.server.ctxs
    requires 0 <= w < |s.workers| ==> (s.workers[w].Busy? ==> s.workers[w].c in C) && FrameOk(s', s'.workers[w])
    requires forall c <- C :: Here(s', c)
    requires forall k <- K :: KeyOk(s', k)
    ensures Inv(s')
  {
    hide Rpc.Inv, OutOk, Only, Apart, TopicOk, FrameOk, Here, KeyOk;
    assert |s'.workers| == |s.workers| by { SameLength(s, s', C, w, K); }
    forall i | 0 <= i < |s'.workers| ensures FrameOk(s', s'.workers[i]) {
      if i != w { FrameKept(s, s', C, w, K, i); }
    }
    forall c ensures Here(s', c) {
      if c !in C { HereKept(s, s', C, w, K, c); }
    }
    forall k ensures KeyOk(s', k) {
      if k !in K { KeyKept(s, s', C, w, K, k); }
    }
  }

  lemma SameLength(s: State, s': State, C: set<Id>, w: int, K: set<bytes>)
    requires Only(s, s', C, w, K)
    ensures |s'.workers| == |s.workers|
  {
  }

  // ---------------------------------------------------------------- every step keeps the invariant

  lemma OnlyHere(s: State, c: Id)
    requires Inv(s)
    requires c in s.server.out || c in s.server.armed || c in s.server.cq || c in s.server.pool || c in s.waiting
    ensures Rpc.Live(s.server, c) && CtxOk(s.server, c) && Here(s, c)
    ensures s.server.armed[c] + s.server.cq[c] + s.server.pool[c] + Held(s.workers, c) + s.waiting[c] == 1
  {
    hide Held, FramesOk, KeysOk, TopicOk, Here;
    assert s.server.out[c] == Held(s.workers, c) + s.waiting[c];
    assert Total(s.server, c) == if Rpc.Live(s.server, c) then 1 else 0;
  }

  /** The table leads to a context only while that waits or is with the thread that registered it. */
  lemma NotTabled(s: State, c: Id)
    requires Inv(s) && c !in s.waiting
    requires forall i | 0 <= i < |s.workers| && s.workers[i].Busy? && s.workers[i].c == c :: !Entering(s.workers[i].at)
    ensures forall k <- s.table :: s.table[k] != c
  {
    hide Held, Rpc.Inv, OutOk, FramesOk, AllHere, TopicOk, Named, Serving;
    forall k <- s.table ensures s.table[k] != c {
      assert KeyOk(s, k);
    }
  }

  /** A context in a container is with no thread and not in the table. */
  lemma Unheld(s: State, c: Id)
    requires Inv(s) && (c in s.server.armed || c in s.server.cq || c in s.server.pool)
    ensures Here(s, c) && Rpc.Live(s.server, c) && CtxOk(s.server, c) && Held(s.workers, c) == 0 && c !in s.waiting
    ensures s.server.armed[c] + s.server.cq[c] + s.server.pool[c] == 1
    ensures Apart(s, {c}, -1, {})
  {
    hide Held, Rpc.Inv, OutOk, FramesOk, AllHere, KeysOk, TopicOk, Here;
    OnlyHere(s, c);
    forall i | 0 <= i < |s.workers| && s.workers[i].Busy? ensures s.workers[i].c != c {
      Update(s.workers, i, Idle);
    }
    NotTabled(s, c);
  }

  /** What every step of a thread with a context starts from; K is the key under which it is registered,
      if it is. */
  lemma Setup(s: State, w: nat, f: Worker<Point>, K: set<bytes>)
    requires Inv(s) && At(s.workers, w) && (f.Busy? ==> f.c == s.workers[w].c) && (f.Aside? ==> f.at.Poll?)
    requires Usable(s, s.workers[w].c)
    requires K == if Entering(s.workers[w].at) then {MsgidOf(JobOf(s, s.workers[w].c).resp)} else {}
    ensures var c := s.workers[w].c;
            && FrameOk(s, s.workers[w]) && Here(s, c) && CtxOk(s.server, c)
            && c in s.server.out && s.waiting[c] == s.server.armed[c] == s.server.cq[c] == s.server.pool[c] == 0
            && Apart(s, {c}, w, K)
    ensures forall d :: Held(s.workers[w := f], d)
                     == Held(s.workers, d) - (if !f.Busy? && d == s.workers[w].c then 1 else 0)
    ensures forall k :: Serving(s.workers[w := f], k) == Serving(s.workers, k)
  {
    hide Held, Serving, Rpc.Inv, AllHere, KeysOk, TopicOk, Here, Answered, Sendable;
    var c := s.workers[w].c;
    Update(s.workers, w, f);
    UpdateServing(s.workers, w, f);
    assert s.server.out[c] == Held(s.workers, c) + s.waiting[c];
    OnlyHere(s, c);
    assert FrameOk(s, s.workers[w]);
    forall i | 0 <= i < |s.workers| && i != w && s.workers[i].Busy? ensures s.workers[i].c !in {c} {
      if s.workers[i].c == c {
        Together(s.workers, if i < w then i else w, if i < w then w else i);
      }
    }
    forall k <- s.table | k !in K ensures s.table[k] !in {c} { TabledByItself(s, w, k); }
  }

  lemma TabledByItself(s: State, w: nat, k: bytes)
    requires Inv(s) && At(s.workers, w) && Usable(s, s.workers[w].c) && k in s.table && s.workers[w].c !in s.waiting
    requires forall i | 0 <= i < |s.workers| && i != w && s.workers[i].Busy? :: s.workers[i].c != s.workers[w].c
    ensures s.table[k] == s.workers[w].c ==> Entering(s.workers[w].at) && k == MsgidOf(JobOf(s, s.workers[w].c).resp)
  {
    hide Held, Serving, Rpc.Inv, OutOk, FramesOk, AllHere, TopicOk;
    assert KeyOk(s, k);
  }

  lemma InvInbound(s: State, c: Id, bs: bytes)
    requires Inv(s) && c in s.server.armed && Parse(SwitchReq, NO_REQ, bs).Ok? && Rpc.Live(s.server, c)
    ensures Inv(s.(server := Arrive(s.server, c, Job(Parse(SwitchReq, NO_REQ, bs).value, NO_RESP, Open))))
  {
    hide Held, Serving, Rpc.Inv, FramesOk, AllHere, KeysOk, TopicOk, Parse, TextData, Answered, Registered;
    var j := Job(Parse(SwitchReq, NO_REQ, bs).value, NO_RESP, Open);
    NoText();
    ReqIsText(NO_REQ, bs);
    Unheld(s, c);
    InvArrive(s.server, c, j);
    Local(s, s.(server := Arrive(s.server, c, j)), {c}, -1, {});
  }

  lemma InvTurn(s: State, c: Id, n: Id)
    requires Inv(s) && c in s.server.cq && n !in s.server.ctxs && Usable(s, c)
    ensures Inv(s.(server := Next(s.server, c, n)))
  {
    hide Held, Serving, Rpc.Inv, FramesOk, AllHere, KeysOk, TopicOk, TextData, Answered, Registered, Here, Apart, Only;
    var s' := s.(server := Next(s.server, c, n));
    Unheld(s, c);
    Absent(s, n);
    InvNext(s.server, c, n);
    assert Only(s, s', {c, n}, -1, {}) by { OnlyTurn(s, c, n); }
    assert Apart(s, {c, n}, -1, {}) by { BothApart(s, c, n); }
    TurnedHere(s, c, n);
    Local(s, s', {c, n}, -1, {});
  }

  lemma OnlyTurn(s: State, c: Id, n: Id)
    requires c in s.server.cq && n !in s.server.ctxs && Usable(s, c)
    ensures Only(s, s.(server := Next(s.server, c, n)), {c, n}, -1, {})
  {
    hide Serving;
  }

  lemma BothApart(s: State, c: Id, n: Id)
    requires Apart(s, {c}, -1, {}) && Apart(s, {n}, -1, {})
    ensures Apart(s, {c, n}, -1, {})
  {
  }

  lemma TurnedHere(s: State, c: Id, n: Id)
    requires Here(s, c) && c in s.server.cq && n !in s.server.ctxs && Usable(s, c) && CtxOk(s.server, c)
    requires s.server.cq[c] == 1 && n !in s.server.cq && n !in s.server.pool && n !in s.waiting && c !in s.waiting
    ensures var s' := s.(server := Next(s.server, c, n)); Here(s', c) && Here(s', n)
  {
    hide TextData, Judge, Text, SerMq;
    var s' := s.(server := Next(s.server, c, n));
    assert forall j: Job :: Answered(s', j, c) <==> Answered(s, j, c);
  }

  lemma Absent(s: State, n: Id)
    requires Inv(s) && n !in s.server.ctxs
    ensures n !in s.waiting && n !in s.server.cq && n !in s.server.pool && Apart(s, {n}, -1, {})
  {
    hide Held, Serving, TopicOk, Named, Answered, Registered;
    assert Here(s, n) && Total(s.server, n) == 0;
    forall i | 0 <= i < |s.workers| && s.workers[i].Busy? ensures s.workers[i].c != n {
      assert FrameOk(s, s.workers[i]);
    }
    NotTabled(s, n);
  }

  lemma InvBegin(s: State, w: nat, c: Id)
    requires Inv(s) && Free(s.workers, w) && c in s.server.pool
    ensures Inv(Move(s, w, Busy(c, Gen)).(server := Take(s.server, c)))
  {
    hide Held, Serving, Rpc.Inv, FramesOk, AllHere, KeysOk, TopicOk, TextData, Answered, Registered;
    var s' := Move(s, w, Busy(c, Gen)).(server := Take(s.server, c));
    Unheld(s, c);
    InvTake(s.server, c);
    Update(s.workers, w, Busy(c, Gen));
    UpdateServing(s.workers, w, Busy(c, Gen));
    Local(s, s', {c}, w, {});
  }

  lemma InvGenerate(s: State, w: nat, id: bytes, time: int64)
    requires Inv(s) && Possible(s, Generate(w, id, time)) && Usable(s, s.workers[w].c)
    ensures Inv(DoGenerate(s, w, id, time))
  {
    hide Held, Serving, Rpc.Inv, FramesOk, AllHere, TopicOk, TextData, Answered, ValidUtf8;
    var s', c := DoGenerate(s, w, id, time), s.workers[w].c;
    Setup(s, w, s'.workers[w], {});
    InvNote(s.server, c, s'.server.ctxs[c].req.value);
    assert KeyOk(s, id);
    Local(s, s', {c}, w, {id});
  }

  lemma InvLogin(s: State, w: nat)
    requires Inv(s) && At(s.workers, w) && s.workers[w].at.Decide? && Usable(s, s.workers[w].c)
    requires Judge(JobOf(s, s.workers[w].c).req, true) == Login
    ensures var c := s.workers[w].c;
            Inv(s.(workers := s.workers[w := Busy(c, SetDone(false))],
                   server := Note(s.server, c, JobOf(s, c).(cause := LoggedIn))))
  {
    hide Held, Serving, Rpc.Inv, FramesOk, AllHere, TopicOk, KeysOk, TextData, ValidUtf8, Judge, Sendable;
    var c := s.workers[w].c;
    var j := JobOf(s, c).(cause := LoggedIn);
    var s' := s.(workers := s.workers[w := Busy(c, SetDone(false))], server := Note(s.server, c, j));
    Setup(s, w, s'.workers[w], {});
    InvNote(s.server, c, j);
    Local(s, s', {c}, w, {});
  }

  lemma InvMove(s: State, w: nat, f: Worker<Point>)
    requires Inv(s) && At(s.workers, w) && s.workers[w].at.Decide? && Usable(s, s.workers[w].c)
    requires f.Busy? && f.c == s.workers[w].c && FrameOk(Move(s, w, f), f)
    ensures Inv(Move(s, w, f))
  {
    hide Held, Serving, Rpc.Inv, FramesOk, AllHere, TopicOk, KeysOk, TextData, ValidUtf8, Judge, JobAt;
    Setup(s, w, f, {});
    Local(s, Move(s, w, f), {f.c}, w, {});
  }

  lemma InvSwitch(s: State, w: nat, friendOk: bool)
    requires Inv(s) && At(s.workers, w) && s.workers[w].at.Decide? && Usable(s, s.workers[w].c)
    ensures Inv(DoSwitch(s, w, friendOk))
  {
    hide Rpc.Inv, OutOk, AllHere, TopicOk, KeysOk, TextData, ValidUtf8;
    var c := s.workers[w].c;
    assert FrameOk(s, s.workers[w]);
    match Judge(JobOf(s, c).req, friendOk)
    case Login => InvLogin(s, w);
    case Send => InvMove(s, w, Busy(c, Register));
    case Refuse => InvMove(s, w, Busy(c, SetError(InvalidRequest, false)));
  }

  lemma InvRegister(s: State, w: nat)
    requires Inv(s) && At(s.workers, w) && s.workers[w].at.Register? && Usable(s, s.workers[w].c)
    ensures Inv(DoStep(s, w))
  {
    hide Held, Serving, Rpc.Inv, FramesOk, AllHere, TopicOk, TextData, Sendable, ValidUtf8, Answered;
    var s', c := DoStep(s, w), s.workers[w].c;
    var key := MsgidOf(JobOf(s, c).resp);
    Setup(s, w, s'.workers[w], {});
    assert KeyOk(s, key);
    assert EnteredBy(s', c, w);
    Local(s, s', {c}, w, {key});
  }

  lemma InvBuild(s: State, w: nat)
    requires Inv(s) && At(s.workers, w) && s.workers[w].at.Build? && Usable(s, s.workers[w].c)
    ensures Inv(DoStep(s, w))
  {
    hide Held, Serving, Rpc.Inv, FramesOk, AllHere, TopicOk, TextData, Sendable, ValidUtf8, Answered;
    var s', c := DoStep(s, w), s.workers[w].c;
    var key := MsgidOf(JobOf(s, c).resp);
    Setup(s, w, s'.workers[w], {key});
    assert KeyOk(s, key);
    assert EnteredBy(s', c, w);
    Local(s, s', {c}, w, {key});
  }

  lemma InvErase(s: State, w: nat)
    requires Inv(s) && At(s.workers, w) && s.workers[w].at.Erase? && Usable(s, s.workers[w].c)
    ensures Inv(DoStep(s, w))
  {
    hide Held, Serving, Rpc.Inv, FramesOk, AllHere, TopicOk, TextData, Sendable, ValidUtf8, Answered;
    var s', c := DoStep(s, w), s.workers[w].c;
    var key := MsgidOf(JobOf(s, c).resp);
    Setup(s, w, s'.workers[w], {key});
    assert KeyOk(s, key);
    Local(s, s', {c}, w, {key});
  }

  lemma InvSetError(s: State, w: nat)
    requires Inv(s) && At(s.workers, w) && s.workers[w].at.SetError? && Usable(s, s.workers[w].c)
    ensures Inv(DoStep(s, w))
  {
    hide Held, Serving, Rpc.Inv, FramesOk, AllHere, TopicOk, KeysOk, TextData, Sendable, ValidUtf8, Text, Judge;
    var s', c := DoStep(s, w), s.workers[w].c;
    Setup(s, w, s'.workers[w], {});
    InvNote(s.server, c, s'.server.ctxs[c].req.value);
    Local(s, s', {c}, w, {});
  }

  lemma SameAnswer(s: State, s': State, j: Job, c: Id)
    requires s'.ids == s.ids && s'.topic == s.topic && s'.acks == s.acks
    ensures Answered(s', j, c) <==> Answered(s, j, c)
  {
  }

  lemma InvSetDone(s: State, w: nat)
    requires Inv(s) && At(s.workers, w) && s.workers[w].at.SetDone? && Usable(s, s.workers[w].c)
    ensures Inv(DoStep(s, w))
  {
    hide Held, Serving, Rpc.Inv, FramesOk, AllHere, TopicOk, KeysOk, TextData, Answered, Registered;
    var s', c := DoStep(s, w), s.workers[w].c;
    Setup(s, w, s'.workers[w], {});
    InvMark(s.server, c);
    SameAnswer(s, s', JobOf(s, c), c);
    Local(s, s', {c}, w, {});
  }

  lemma InvFinishing(s: State, w: nat)
    requires Inv(s) && At(s.workers, w) && s.workers[w].at.Finishing? && Usable(s, s.workers[w].c)
    ensures Inv(DoStep(s, w))
  {
    hide Held, Serving, Rpc.Inv, FramesOk, AllHere, TopicOk, KeysOk, TextData, Answered, Registered;
    var s', c := DoStep(s, w), s.workers[w].c;
    Setup(s, w, s'.workers[w], {});
    InvFinish(s.server, c, OK);
    SameAnswer(s, s', JobOf(s, c), c);
    Local(s, s', {c}, w, {});
  }

  lemma InvRejected(s: State, w: nat)
    requires Inv(s) && At(s.workers, w) && s.workers[w].at.Produce?
    ensures Inv(DoProduced(s, w, false))
  {
    hide Held, Serving, Rpc.Inv, AllHere, TopicOk, TextData, Sendable, ValidUtf8, Answered;
    var s', c := DoProduced(s, w, false), s.workers[w].c;
    assert FrameOk(s, s.workers[w]);
    var key := MsgidOf(JobOf(s, c).resp);
    Setup(s, w, s'.workers[w], {key});
    assert KeyOk(s, key);
    assert EnteredBy(s', c, w);
    Local(s, s', {c}, w, {key});
  }

  lemma InvAccepted(s: State, w: nat)
    requires Inv(s) && At(s.workers, w) && s.workers[w].at.Produce?
    ensures Inv(DoProduced(s, w, true))
  {
    hide Held, Serving, Rpc.Inv, AllHere, TextData, Sendable, ValidUtf8, Answered, RecordOk, RecordOf;
    var s', c := DoProduced(s, w, true), s.workers[w].c;
    assert FrameOk(s, s.workers[w]);
    var key := MsgidOf(JobOf(s, c).resp);
    Setup(s, w, s'.workers[w], {key});
    assert KeyOk(s, key);
    GoodMessage(s, w);
    Local(s, s', {c}, w, {key});
  }

  /** What Handle puts into Kafka is in order. */
  lemma GoodMessage(s: State, w: nat)
    requires At(s.workers, w) && s.workers[w].at.Produce? && FrameOk(s, s.workers[w])
    ensures RecordOk(RecordOf(s.workers[w].at.mq))
  {
    assert MessageOk(s.workers[w].at.mq);
  }

  /** A report that is outstanding or being served belongs to a waiting context. */
  lemma Reported(s: State, w: nat, key: bytes)
    requires Inv(s) && w < |s.workers| && s.workers[w].Aside?
    requires key in s.reports || Serving(s.workers, key) > 0
    ensures key in s.table && s.table[key] in s.waiting && s.reports[key] + Serving(s.workers, key) == 1
    ensures var c := s.table[key];
            && Here(s, c) && Rpc.Live(s.server, c) && CtxOk(s.server, c) && KeyOk(s, key) && c in s.server.out
            && s.waiting[c] == 1 && Held(s.workers, c) == 0
            && c !in s.server.armed && c !in s.server.cq && c !in s.server.pool
            && Apart(s, {c}, w, {key})
  {
    hide Held, Serving, Rpc.Inv, FramesOk, AllHere, TopicOk, Here, Answered, Sendable;
    assert KeyOk(s, key);
    var c := s.table[key];
    OnlyHere(s, c);
    assert s.server.out[c] == Held(s.workers, c) + s.waiting[c];
    forall i | 0 <= i < |s.workers| && i != w && s.workers[i].Busy? ensures s.workers[i].c !in {c} {
      Update(s.workers, i, Idle);
    }
    forall k <- s.table | k !in {key} ensures s.table[k] !in {c} { assert KeyOk(s, k); }
  }

  lemma InvServe(s: State, w: nat, key: bytes, err: bool)
    requires Inv(s) && Polling(s, w) && key in s.reports
    ensures Inv(DoServe(s, w, key, err))
  {
    hide Held, Serving, Rpc.Inv, FramesOk, AllHere, KeysOk, TopicOk, TextData, Sendable, ValidUtf8, RecordOf;
    Reported(s, w, key);
    var s', c := DoServe(s, w, key, err), s.table[key];
    Update(s.workers, w, s'.workers[w]);
    UpdateServing(s.workers, w, s'.workers[w]);
    Local(s, s', {c}, w, {key});
  }

  lemma CalledBack(s: State, w: nat)
    requires w < |s.workers| && s.workers[w].Aside? && s.workers[w].at.Callback?
    ensures Serving(s.workers, s.workers[w].at.key) > 0
  {
    hide Serving;
    UpdateServing(s.workers, w, Idle);
  }

  lemma InvLookup(s: State, w: nat)
    requires Inv(s) && Possible(s, Lookup(w)) && Live(s, Lookup(w))
    ensures Inv(DoLookup(s, w))
  {
    hide Held, Serving, Rpc.Inv, AllHere, KeysOk, TopicOk, RecordOf, Only, Here, FrameOk, KeyOk, Apart;
    var key := s.workers[w].at.key;
    CalledBack(s, w);
    Reported(s, w, key);
    var s', c := DoLookup(s, w), s.table[key];
    Update(s.workers, w, s'.workers[w]);
    LookupServer(s, w);
    LookupOnly(s, w);
    LookupLocal(s, w);
    Local(s, s', {c}, w, {key});
  }

  lemma LookupServer(s: State, w: nat)
    requires Possible(s, Lookup(w)) && Live(s, Lookup(w)) && s.workers[w].at.key in s.table
    requires Rpc.Inv(s.server) && s.table[s.workers[w].at.key] in s.server.out
    ensures Rpc.Inv(DoLookup(s, w).server) && DoLookup(s, w).server.out == s.server.out
  {
    hide Rpc.Inv;
    var c := s.table[s.workers[w].at.key];
    InvNote(s.server, c, JobOf(s, c).(cause := Acked));
  }

  lemma LookupLocal(s: State, w: nat)
    requires Possible(s, Lookup(w)) && Live(s, Lookup(w)) && FrameOk(s, s.workers[w]) && s.workers[w].at.key in s.table
    requires var key := s.workers[w].at.key; var c := s.table[key];
             && Here(s, c) && KeyOk(s, key) && c in s.waiting && s.waiting[c] == 1 && CtxOk(s.server, c)
             && c in s.server.out
             && s.reports[key] + Serving(s.workers, key) == 1 && c !in s.server.cq && c !in s.server.pool
    ensures var key := s.workers[w].at.key; var c := s.table[key]; var s' := DoLookup(s, w);
            FrameOk(s', s'.workers[w]) && Here(s', c) && KeyOk(s', key)
  {
    hide Serving, TextData, Sendable, ValidUtf8, RecordOf, Text, Judge;
    UpdateServing(s.workers, w, DoLookup(s, w).workers[w]);
  }

  lemma LookupOnly(s: State, w: nat)
    requires Possible(s, Lookup(w)) && Live(s, Lookup(w)) && s.workers[w].at.key in s.table
    ensures var key := s.workers[w].at.key; Only(s, DoLookup(s, w), {s.table[key]}, w, {key})
  {
    hide Serving;
    UpdateServing(s.workers, w, DoLookup(s, w).workers[w]);
  }

  lemma InvReturn(s: State, w: nat)
    requires Inv(s) && Polling(s, w)
    ensures Inv(Move(s, w, Idle))
  {
    hide Held, Serving, Rpc.Inv, FramesOk, AllHere, KeysOk, TopicOk;
    Update(s.workers, w, Idle);
    UpdateServing(s.workers, w, Idle);
    Local(s, Move(s, w, Idle), {}, w, {});
  }

  lemma InvWorker(s: State, w: nat)
    requires Inv(s) && At(s.workers, w) && Steps(s.workers[w].at) && Usable(s, s.workers[w].c)
    ensures Inv(DoStep(s, w))
  {
    hide Inv, DoStep;
    match s.workers[w].at
    case Register => InvRegister(s, w);
    case Build => InvBuild(s, w);
    case Erase(_) => InvErase(s, w);
    case SetError(_, _) => InvSetError(s, w);
    case SetDone(_) => InvSetDone(s, w);
    case Finishing(_) => InvFinishing(s, w);
  }

  lemma InvStep(s: State, e: Event)
    requires Inv(s) && Possible(s, e) && Live(s, e)
    ensures Inv(Apply(s, e))
  {
    hide Inv, DoGenerate, DoSwitch, DoStep, DoProduced, DoServe, DoLookup;
    match e
    case Inbound(c, bs) => InvInbound(s, c, bs);
    case Turn(c, n) => InvTurn(s, c, n);
    case Begin(w, c) => InvBegin(s, w, c);
    case Generate(w, id, time) => InvGenerate(s, w, id, time);
    case Switch(w, friendOk) => InvSwitch(s, w, friendOk);
    case Step(w) => InvWorker(s, w);
    case Produced(w, accepted) => if accepted { InvAccepted(s, w); } else { InvRejected(s, w); }
    case Serve(w, key, err) => InvServe(s, w, key, err);
    case Lookup(w) => InvLookup(s, w);
    case Return(w) => InvReturn(s, w);
  }

  /** No step ever uses memory that is not allocated or already deleted. */
  lemma AlwaysLive(s: State, e: Event)
    requires Inv(s) && Possible(s, e)
    ensures Live(s, e)
  {
    hide Held, Serving, Rpc.Inv, OutOk, AllHere, TopicOk, Named, Registered, Answered, Parse, ValidUtf8;
    match e
    case Inbound(c, _) => OnlyHere(s, c);
    case Turn(c, _) => OnlyHere(s, c);
    case Generate(w, _, _) => assert FrameOk(s, s.workers[w]);
    case Switch(w, _) => assert FrameOk(s, s.workers[w]);
    case Step(w) => assert FrameOk(s, s.workers[w]);
    case Lookup(w) => assert KeyOk(s, s.workers[w].at.key);
    case _ =>
  }

  // ---------------------------------------------------------------- main results

  predicate IsRun(s: State, es: seq<Event>)
    decreases |es|
  {
    es == [] || (Possible(s, es[0]) && Live(s, es[0]) && IsRun(Apply(s, es[0]), es[1..]))
  }

  function After(s: State, es: seq<Event>): State
    requires IsRun(s, es)
    decreases |es|
  {
    if es == [] then s else After(Apply(s, es[0]), es[1..])
  }

  lemma {:induction false} InvRun(s: State, es: seq<Event>)
    requires Inv(s) && IsRun(s, es)
    ensures Inv(After(s, es))
    decreases |es|
  {
    hide Inv, Apply, Possible, Live;
    if es != [] {
      InvStep(s, es[0]);
      InvRun(Apply(s, es[0]), es[1..]);
    }
  }

  lemma Reached(first: Id, threads: nat, es: seq<Event>)
    requires IsRun(Boot(first, threads), es)
    ensures Inv(After(Boot(first, threads), es))
  {
    InvBoot(first, threads);
    InvRun(Boot(first, threads), es);
  }

  /** Memory safety of every run: whatever step control has reached, in the queue loop, in Handle or in
      a delivery callback called from poll, the context it uses is allocated and not deleted. */
  lemma NoUseAfterDelete(first: Id, threads: nat, es: seq<Event>, e: Event)
    requires IsRun(Boot(first, threads), es) && Possible(After(Boot(first, threads), es), e)
    ensures Live(After(Boot(first, threads), es), e)
  {
    Reached(first, threads, es);
    AlwaysLive(After(Boot(first, threads), es), e);
  }

  /** Exactly one context is on its way in, and a queued tag is done exactly when it has been finished:
      the server never stops accepting and never handles a tag twice. */
  lemma ServerIsSound(first: Id, threads: nat, es: seq<Event>)
    requires IsRun(Boot(first, threads), es)
    ensures Sound(After(Boot(first, threads), es).server)
  {
    Reached(first, threads, es);
    InvIsSound(After(Boot(first, threads), es).server);
  }

  /** In how many places the context is: armed, in the completion queue, in the pool, with a thread, or,
      if no thread has it, in rpc_contexts_. */
  ghost function Places(s: State, c: Id): nat {
    s.server.armed[c] + s.server.cq[c] + s.server.pool[c] + Held(s.workers, c)
    + if Held(s.workers, c) == 0 && c in s.table.Values then 1 else 0
  }

  /** Ownership in every run: a context that is not deleted is in exactly one place, a deleted one is
      nowhere; the table has it under at most one key; it is finished at most once, and only then
      deleted. */
  lemma ExactlyOnePlace(first: Id, threads: nat, es: seq<Event>, c: Id)
    requires IsRun(Boot(first, threads), es) && c in After(Boot(first, threads), es).server.ctxs
    ensures var s := After(Boot(first, threads), es);
            && Places(s, c) == (if s.server.ctxs[c].retired then 0 else 1)
            && (forall k <- s.table, l <- s.table :: s.table[k] == c && s.table[l] == c ==> k == l)
            && |s.server.ctxs[c].finished| <= 1
            && (s.server.ctxs[c].retired ==> |s.server.ctxs[c].finished| == 1)
  {
    Reached(first, threads, es);
    OnePlace(After(Boot(first, threads), es), c);
  }

  lemma OnePlace(s: State, c: Id)
    requires Inv(s) && c in s.server.ctxs
    ensures Places(s, c) == (if s.server.ctxs[c].retired then 0 else 1)
    ensures forall k <- s.table, l <- s.table :: s.table[k] == c && s.table[l] == c ==> k == l
    ensures |s.server.ctxs[c].finished| <= 1 && (s.server.ctxs[c].retired ==> |s.server.ctxs[c].finished| == 1)
  {
    hide Serving, TopicOk, FramesOk, Answered, Sendable, TextData;
    InvIsSound(s.server);
    assert s.server.out[c] == Held(s.workers, c) + s.waiting[c];
    assert Total(s.server, c) == if Rpc.Live(s.server, c) then 1 else 0;
    assert Here(s, c);
    assert c in s.waiting ==> c in s.table.Values;
    forall k <- s.table ensures KeyOk(s, k) {}
    if c in s.table.Values && c !in s.waiting {
      var k :| k in s.table && s.table[k] == c;
      assert KeyOk(s, k);
      var i :| EnteredBy(s, c, i);
      Update(s.workers, i, Idle);
    }
  }

  /** When no task and no delivery report is left, nothing is left in the table and every call that
      was taken from the queue has been finished, once. */
  lemma QuiescentMeansAnswered(first: Id, threads: nat, es: seq<Event>)
    requires IsRun(Boot(first, threads), es)
    requires var s := After(Boot(first, threads), es);
             s.server.pool == multiset{} && s.reports == multiset{} && forall w <- s.workers :: w.Idle?
    ensures var s := After(Boot(first, threads), es);
            && s.table == map[]
            && forall c <- s.server.ctxs :: Incoming(s.server, c) || |s.server.ctxs[c].finished| == 1
  {
    Reached(first, threads, es);
    var s := After(Boot(first, threads), es);
    forall k ensures k !in s.table { QuietTable(s, k); }
    forall c <- s.server.ctxs ensures Incoming(s.server, c) || |s.server.ctxs[c].finished| == 1 { QuietContext(s, c); }
  }

  lemma QuietTable(s: State, k: bytes)
    requires Inv(s) && s.reports == multiset{} && forall w <- s.workers :: w.Idle?
    ensures k !in s.table
  {
    hide Serving, Held, Rpc.Inv, OutOk, FramesOk, AllHere, TopicOk, Named;
    NobodyServes(s.workers, k);
    assert KeyOk(s, k);
    forall c: Id, i: nat ensures !EnteredBy(s, c, i) {
      if i < |s.workers| { assert s.workers[i] in s.workers; }
    }
  }

  lemma QuietContext(s: State, c: Id)
    requires Inv(s) && c in s.server.ctxs && s.server.pool == multiset{} && s.reports == multiset{}
    requires forall w <- s.workers :: w.Idle?
    ensures Incoming(s.server, c) || |s.server.ctxs[c].finished| == 1
  {
    hide Serving, Held, FramesOk, KeysOk, TopicOk, Answered, TextData, Sendable, ValidUtf8;
    NobodyHolds(s.workers, c);
    assert s.server.out[c] == Held(s.workers, c) + s.waiting[c];
    assert Total(s.server, c) == if Rpc.Live(s.server, c) then 1 else 0;
    assert CtxOk(s.server, c) && Here(s, c);
    if c in s.waiting { QuietTable(s, JobOf(s, c).resp.str.msgid); }
  }

  lemma {:induction false} NobodyServes(ws: seq<Worker<Point>>, k: bytes)
    requires forall w <- ws :: w.Idle?
    ensures Serving(ws, k) == 0
  {
    if ws != [] {
      assert ws[0] in ws;
      NobodyServes(ws[1..], k);
    }
  }

  /** In any state a table entry stands for exactly one message: one that a thread has registered and
      not yet produced, or one in Kafka whose one report is outstanding or just being served. */
  lemma EntryMeansUnserved(first: Id, threads: nat, es: seq<Event>, k: bytes)
    requires IsRun(Boot(first, threads), es) && k in After(Boot(first, threads), es).table
    ensures var s := After(Boot(first, threads), es);
            var c := s.table[k];
            && Usable(s, c) && MsgidOf(JobOf(s, c).resp) == k && s.server.ctxs[c].finished == []
            && (|| (s.reports[k] + Serving(s.workers, k) == 1 && RecordOf(MessageOf(JobOf(s, c))) in s.topic)
                || (s.reports[k] + Serving(s.workers, k) == 0 && exists i :: EnteredBy(s, c, i)))
  {
    hide Serving, TopicOk, FramesOk, Answered, Sendable, TextData, Held;
    Reached(first, threads, es);
    var s := After(Boot(first, threads), es);
    var c := s.table[k];
    assert KeyOk(s, k) && Here(s, c);
    EntryIsOut(s, k);
    OnlyHere(s, c);
    if c in s.waiting { assert s.waiting[c] == 1; }
  }

  lemma EntryIsOut(s: State, k: bytes)
    requires Inv(s) && k in s.table
    ensures s.table[k] in s.server.out
  {
    hide Serving, TopicOk, FramesOk, Answered, Sendable, TextData, Held, Rpc.Inv;
    var c := s.table[k];
    assert KeyOk(s, k);
    assert s.server.out[c] == Held(s.workers, c) + s.waiting[c];
    if c !in s.waiting {
      var i :| EnteredBy(s, c, i);
      Update(s.workers, i, Idle);
    }
  }

  /** What a client is told: time and msgid only after a LOGIN or for a message that Kafka
      acknowledged; in every other case error code 0 and one of three texts. */
  lemma ResponsesAreHonest(first: Id, threads: nat, es: seq<Event>, c: Id)
    requires IsRun(Boot(first, threads), es) && c in After(Boot(first, threads), es).server.ctxs
    requires After(Boot(first, threads), es).server.ctxs[c].finished != []
    ensures var s := After(Boot(first, threads), es);
            && s.server.ctxs[c].req.Some?
            && var j := s.server.ctxs[c].req.value;
               || (&& j.resp.result.Timestamp? && j.resp.str.Msgid?
                   && j.req.kind == 8 && (if j.req.data.LogData? then j.req.data.log.kind else 0) == 0)
               || (&& j.resp.result.Timestamp? && j.resp.str.Msgid?
                   && Topic.Record(j.resp.str.msgid, SerMq(MqMessage(Some(j.req), Some(j.resp)))) in s.topic
                   && Acknowledged(es, j.resp.str.msgid))
               || j.resp == ProtoResp(ErrorCode(0), Err(Ascii("invalid request")))
               || j.resp == ProtoResp(ErrorCode(0), Err(Ascii("Produce error")))
               || j.resp == ProtoResp(ErrorCode(0), Err(Ascii("kafka error")))
  {
    hide Judge, Text, Ascii, Sendable, TopicOk, FramesOk, KeysOk, SerMq;
    TextMeans();
    Reached(first, threads, es);
    assert Here(After(Boot(first, threads), es), c);
    var j := After(Boot(first, threads), es).server.ctxs[c].req.value;
    JudgeMeans(j.req, true);
    if j.cause.Failed? {
      assert j.resp == ErrorOf(j.cause.reason);
      match j.cause.reason
      case InvalidRequest =>
      case ProduceError =>
      case KafkaError =>
    }
    AcksAreReports(Boot(first, threads), es, MsgidOf(j.resp));
  }

  /** A delivery report without error was served for this key. */
  ghost predicate Acknowledged(es: seq<Event>, key: bytes) {
    exists w :: Serve(w, key, false) in es
  }

  lemma {:induction false} AcksAreReports(s: State, es: seq<Event>, key: bytes)
    requires IsRun(s, es)
    ensures key in After(s, es).acks <==> key in s.acks || Acknowledged(es, key)
    decreases |es|
  {
    hide Possible, Live, Judge, Parse;
    if es != [] {
      AcksAreReports(Apply(s, es[0]), es[1..], key);
      assert es == [es[0]] + es[1..];
      assert key in Apply(s, es[0]).acks <==> key in s.acks || exists w :: es[0] == Serve(w, key, false);
    }
  }

  /** End to end through the codec: whatever is in Kafka (and below 2 GiB) passes the parse and the key
      check of both consumers, carries a time, and its request is of a kind that may be sent. */
  lemma KafkaMessagesPassChecks(first: Id, threads: nat, es: seq<Event>, r: Topic.Record)
    requires IsRun(Boot(first, threads), es) && r in After(Boot(first, threads), es).topic && |r.payload| < TWO_31
    ensures Topic.Accepts(r).Some?
    ensures var mq := Topic.Accepts(r).value;
            && ParseMq(r.payload) == Ok(mq) && MsgidOf(HandleResult(mq)) == r.key && HandleResult(mq).result.Timestamp?
            && OriginReq(mq).kind in {1, 2, 3, 6}
  {
    hide ParseMq, SerMq, TextMq;
    Reached(first, threads, es);
    assert RecordOk(r);
    var mq: MqMessage :| r == RecordOf(mq) && MessageOk(mq);
    MqRoundTrip(mq);
  }
}
