/** The messages of server/proto/msg.pb.cc. For each class: `Recs` lists the fields that
    `_InternalSerialize` writes, in its order and under its conditions; `Switch` is the `switch` of
    `_InternalParse`; `Merge` is `MergeImpl`; `Size` is `ByteSizeLong`; `Text` says that its `string`
    fields are UTF-8. A `string` or `bytes` value is a byte sequence. */
module Messages {
  import opened Options
  import opened Wire

  type Uid = uint64

  // ---------------------------------------------------------------- leaves

  /** FriendCtrl and FriendMsg (fields 1 and 2), GroupCtrl and GroupMsg (fields 2 and 3): four
      generated classes of one shape, told apart by the number `n` of their first field. */
  datatype Body = Body(kind: int32, content: bytes)

  const NO_BODY := Body(0, [])

  function RecsBody(n: nat, m: Body): seq<Rec> {
    IntField(n, m.kind) + BlobField(n + 1, m.content)
  }

  function SwitchBody(n: nat): (Body, Rec) -> Result<Body> {
    (m: Body, r: Rec) =>
      if Is(r, n, if n == 1 then 8 else 16) && r.V? then Ok(m.(kind := ReadInt32(r.v)))
      else if Is(r, n + 1, if n == 1 then 18 else 26) && r.L? then Ok(m.(content := r.payload))
      else Unknown
  }

  function MergeBody(m: Body, a: Body): Body {
    Body(if a.kind != 0 then a.kind else m.kind, if a.content != [] then a.content else m.content)
  }

  function SizeBody(m: Body): nat {
    BlobFieldSize(m.content) + IntFieldSize(m.kind)
  }

  datatype FriendState = FriendState(kind: int32, states: int32)

  const NO_STATE := FriendState(0, 0)

  function RecsState(m: FriendState): seq<Rec> {
    IntField(1, m.kind) + IntField(2, m.states)
  }

  function SwitchState(m: FriendState, r: Rec): Result<FriendState> {
    if Is(r, 1, 8) then Ok(m.(kind := ReadInt32(r.v)))
    else if Is(r, 2, 16) then Ok(m.(states := ReadInt32(r.v)))
    else Unknown
  }

  function MergeState(m: FriendState, a: FriendState): FriendState {
    FriendState(if a.kind != 0 then a.kind else m.kind, if a.states != 0 then a.states else m.states)
  }

  function SizeState(m: FriendState): nat {
    IntFieldSize(m.kind) + IntFieldSize(m.states)
  }

  datatype SystemNotify = SystemNotify(content: bytes)

  function RecsNotify(m: SystemNotify): seq<Rec> {
    BlobField(3, m.content)
  }

  function SwitchNotify(m: SystemNotify, r: Rec): Result<SystemNotify> {
    if Is(r, 3, 26) then Ok(SystemNotify(r.payload)) else Unknown
  }

  function MergeNotify(m: SystemNotify, a: SystemNotify): SystemNotify {
    if a.content != [] then a else m
  }

  function SizeNotify(m: SystemNotify): nat {
    BlobFieldSize(m.content)
  }

  datatype Pull = Pull(localSeq: uint64, syncTime: int64, kind: int32, limit: uint32)

  const NO_PULL := Pull(0, 0, 0, 0)

  function RecsPull(m: Pull): seq<Rec> {
    IntField(1, m.localSeq) + IntField(2, m.syncTime) + IntField(3, m.kind) + IntField(4, m.limit)
  }

  function SwitchPull(m: Pull, r: Rec): Result<Pull> {
    if Is(r, 1, 8) then Ok(m.(localSeq := r.v))
    else if Is(r, 2, 16) then Ok(m.(syncTime := ReadInt64(r.v)))
    else if Is(r, 3, 24) then Ok(m.(kind := ReadInt32(r.v)))
    else if Is(r, 4, 32) then Ok(m.(limit := ReadUInt32(r.v)))
    else Unknown
  }

  function MergePull(m: Pull, a: Pull): Pull {
    Pull(if a.localSeq != 0 then a.localSeq else m.localSeq,
         if a.syncTime != 0 then a.syncTime else m.syncTime,
         if a.kind != 0 then a.kind else m.kind,
         if a.limit != 0 then a.limit else m.limit)
  }

  function SizePull(m: Pull): nat {
    IntFieldSize(m.localSeq) + IntFieldSize(m.syncTime) + IntFieldSize(m.kind) + IntFieldSize(m.limit)
  }

  datatype Log = Log(kind: int32, token: bytes, content: bytes)

  const NO_LOG := Log(0, [], [])

  function RecsLog(m: Log): seq<Rec> {
    IntField(1, m.kind) + BlobField(2, m.token) + BlobField(3, m.content)
  }

  function SwitchLog(m: Log, r: Rec): Result<Log> {
    if Is(r, 1, 8) then Ok(m.(kind := ReadInt32(r.v)))
    else if Is(r, 2, 18) then Checked(ValidUtf8(r.payload), m.(token := r.payload))
    else if Is(r, 3, 26) then Ok(m.(content := r.payload))
    else Unknown
  }

  function MergeLog(m: Log, a: Log): Log {
    Log(if a.kind != 0 then a.kind else m.kind,
        if a.token != [] then a.token else m.token,
        if a.content != [] then a.content else m.content)
  }

  function SizeLog(m: Log): nat {
    BlobFieldSize(m.token) + BlobFieldSize(m.content) + IntFieldSize(m.kind)
  }

  lemma BodyTags(n: nat, v: uint64, p: bytes)
    requires n == 1 || n == 2
    ensures Is(V(n, v), n, if n == 1 then 8 else 16) && Is(L(n + 1, p), n + 1, if n == 1 then 18 else 26)
  {
  }

  lemma BodyFields(n: nat, m: Body, a: Body)
    requires n == 1 || n == 2
    ensures Fold(SwitchBody(n), m, RecsBody(n, a)) == Ok(MergeBody(m, a))
  {
    hide LowByte;
    var S, r1, r2 := SwitchBody(n), V(n, ToWire(a.kind)), L(n + 1, a.content);
    IntegersSurvive(a.kind, 0, 0);
    BodyTags(n, r1.v, a.content);
    assert S(m, r1) == Ok(m.(kind := a.kind));
    var m' := m.(kind := MergeBody(m, a).kind);
    assert S(m', r2) == Ok(m'.(content := a.content));
    FoldConcat(S, m, IntField(n, a.kind), BlobField(n + 1, a.content));
    FoldSmall(S, m, r1);
    FoldSmall(S, m', r2);
  }

  lemma StateFields(m: FriendState, a: FriendState)
    ensures Fold(SwitchState, m, RecsState(a)) == Ok(MergeState(m, a))
  {
    IntegersSurvive(a.kind, 0, 0);
    IntegersSurvive(a.states, 0, 0);
    FoldConcat(SwitchState, m, IntField(1, a.kind), IntField(2, a.states));
    FoldSmall(SwitchState, m, V(1, ToWire(a.kind)));
    FoldSmall(SwitchState, m.(kind := MergeState(m, a).kind), V(2, ToWire(a.states)));
  }

  lemma NotifyFields(m: SystemNotify, a: SystemNotify)
    ensures Fold(SwitchNotify, m, RecsNotify(a)) == Ok(MergeNotify(m, a))
  {
    FoldSmall(SwitchNotify, m, L(3, a.content));
  }

  lemma PullFields(m: Pull, a: Pull)
    ensures Fold(SwitchPull, m, RecsPull(a)) == Ok(MergePull(m, a))
  {
    hide Fold;
    IntegersSurvive(a.kind, a.syncTime, a.limit);
    var f1, f2, f3, f4 := IntField(1, a.localSeq), IntField(2, a.syncTime), IntField(3, a.kind), IntField(4, a.limit);
    FoldConcat(SwitchPull, m, f1 + f2 + f3, f4);
    FoldConcat(SwitchPull, m, f1 + f2, f3);
    FoldConcat(SwitchPull, m, f1, f2);
    var z := MergePull(m, a);
    FoldSmall(SwitchPull, m, V(1, a.localSeq));
    FoldSmall(SwitchPull, m.(localSeq := z.localSeq), V(2, ToWire(a.syncTime)));
    FoldSmall(SwitchPull, m.(localSeq := z.localSeq, syncTime := z.syncTime), V(3, ToWire(a.kind)));
    FoldSmall(SwitchPull, z.(limit := m.limit), V(4, a.limit));
  }

  lemma LogFields(m: Log, a: Log)
    ensures Fold(SwitchLog, m, RecsLog(a)) == Checked(ValidUtf8(a.token), MergeLog(m, a))
  {
    hide Fold;
    IntegersSurvive(a.kind, 0, 0);
    var f1, f2, f3 := IntField(1, a.kind), BlobField(2, a.token), BlobField(3, a.content);
    FoldConcat(SwitchLog, m, f1 + f2, f3);
    FoldConcat(SwitchLog, m, f1, f2);
    var z := MergeLog(m, a);
    FoldSmall(SwitchLog, m, V(1, ToWire(a.kind)));
    FoldSmall(SwitchLog, m.(kind := z.kind), L(2, a.token));
    FoldSmall(SwitchLog, z.(content := m.content), L(3, a.content));
  }

  // ---------------------------------------------------------------- ProtoReq

  /** The `data` oneof, fields 11 to 18. */
  datatype Data =
    | NoData
    | Fctrl(fctrl: Body)
    | Fstate(fstate: FriendState)
    | Fmsg(fmsg: Body)
    | Notify(notify: SystemNotify)
    | Gctrl(gctrl: Body)
    | Gmsg(gmsg: Body)
    | PullData(pull: Pull)
    | LogData(log: Log)

  datatype ProtoReq = ProtoReq(kind: int32, version: uint32, fromUid: uint64, toId: uint64, data: Data)

  const NO_REQ := ProtoReq(0, 0, 0, 0, NoData)

  function RecsData(d: Data): seq<Rec> {
    match d
    case NoData => []
    case Fctrl(b) => [L(11, EncodeAll(RecsBody(1, b)))]
    case Fstate(b) => [L(12, EncodeAll(RecsState(b)))]
    case Fmsg(b) => [L(13, EncodeAll(RecsBody(1, b)))]
    case Notify(b) => [L(14, EncodeAll(RecsNotify(b)))]
    case Gctrl(b) => [L(15, EncodeAll(RecsBody(2, b)))]
    case Gmsg(b) => [L(16, EncodeAll(RecsBody(2, b)))]
    case PullData(b) => [L(17, EncodeAll(RecsPull(b)))]
    case LogData(b) => [L(18, EncodeAll(RecsLog(b)))]
  }

  function Map<A, B>(r: Result<A>, f: A -> B): Result<B> {
    match r
    case Ok(a) => Ok(f(a))
    case Malformed => Malformed
    case Unknown => Unknown
  }

  /** A nested message is parsed into the current alternative if that is the one that is set, and
      into a new one otherwise. The tag bytes of fields 16 to 18 are compared modulo 256. */
  function SwitchData(d: Data, r: Rec): Result<Data> {
    if Is(r, 11, 90) then
      Map(Parse(SwitchBody(1), if d.Fctrl? then d.fctrl else NO_BODY, r.payload), (b: Body) => Fctrl(b))
    else if Is(r, 12, 98) then
      Map(Parse(SwitchState, if d.Fstate? then d.fstate else NO_STATE, r.payload), (b: FriendState) => Fstate(b))
    else if Is(r, 13, 106) then
      Map(Parse(SwitchBody(1), if d.Fmsg? then d.fmsg else NO_BODY, r.payload), (b: Body) => Fmsg(b))
    else if Is(r, 14, 114) then
      Map(Parse(SwitchNotify, if d.Notify? then d.notify else SystemNotify([]), r.payload),
          (b: SystemNotify) => Notify(b))
    else if Is(r, 15, 122) then
      Map(Parse(SwitchBody(2), if d.Gctrl? then d.gctrl else NO_BODY, r.payload), (b: Body) => Gctrl(b))
    else if Is(r, 16, 130) then
      Map(Parse(SwitchBody(2), if d.Gmsg? then d.gmsg else NO_BODY, r.payload), (b: Body) => Gmsg(b))
    else if Is(r, 17, 138) then
      Map(Parse(SwitchPull, if d.PullData? then d.pull else NO_PULL, r.payload), (b: Pull) => PullData(b))
    else if Is(r, 18, 146) then
      Map(Parse(SwitchLog, if d.LogData? then d.log else NO_LOG, r.payload), (b: Log) => LogData(b))
    else Unknown
  }

  function MergeData(d: Data, a: Data): Data {
    match a
    case NoData => d
    case Fctrl(b) => Fctrl(MergeBody(if d.Fctrl? then d.fctrl else NO_BODY, b))
    case Fstate(b) => Fstate(MergeState(if d.Fstate? then d.fstate else NO_STATE, b))
    case Fmsg(b) => Fmsg(MergeBody(if d.Fmsg? then d.fmsg else NO_BODY, b))
    case Notify(b) => Notify(MergeNotify(if d.Notify? then d.notify else SystemNotify([]), b))
    case Gctrl(b) => Gctrl(MergeBody(if d.Gctrl? then d.gctrl else NO_BODY, b))
    case Gmsg(b) => Gmsg(MergeBody(if d.Gmsg? then d.gmsg else NO_BODY, b))
    case PullData(b) => PullData(MergePull(if d.PullData? then d.pull else NO_PULL, b))
    case LogData(b) => LogData(MergeLog(if d.LogData? then d.log else NO_LOG, b))
  }

  function SizeData(d: Data): nat {
    match d
    case NoData => 0
    case Fctrl(b) => 1 + LengthDelimitedSize(SizeBody(b))
    case Fstate(b) => 1 + LengthDelimitedSize(SizeState(b))
    case Fmsg(b) => 1 + LengthDelimitedSize(SizeBody(b))
    case Notify(b) => 1 + LengthDelimitedSize(SizeNotify(b))
    case Gctrl(b) => 1 + LengthDelimitedSize(SizeBody(b))
    case Gmsg(b) => 2 + LengthDelimitedSize(SizeBody(b))
    case PullData(b) => 2 + LengthDelimitedSize(SizePull(b))
    case LogData(b) => 2 + LengthDelimitedSize(SizeLog(b))
  }

  predicate TextData(d: Data) {
    d.LogData? ==> ValidUtf8(d.log.token)
  }

  function RecsReq(m: ProtoReq): seq<Rec> {
    IntField(1, m.kind) + IntField(2, m.version) + IntField(3, m.fromUid) + IntField(4, m.toId) + RecsData(m.data)
  }

  function SwitchReq(m: ProtoReq, r: Rec): Result<ProtoReq> {
    if Is(r, 1, 8) then Ok(m.(kind := ReadInt32(r.v)))
    else if Is(r, 2, 16) then Ok(m.(version := ReadUInt32(r.v)))
    else if Is(r, 3, 24) then Ok(m.(fromUid := r.v))
    else if Is(r, 4, 32) then Ok(m.(toId := r.v))
    else Map(SwitchData(m.data, r), (d: Data) => m.(data := d))
  }

  function MergeReq(m: ProtoReq, a: ProtoReq): ProtoReq {
    ProtoReq(if a.kind != 0 then a.kind else m.kind,
             if a.version != 0 then a.version else m.version,
             if a.fromUid != 0 then a.fromUid else m.fromUid,
             if a.toId != 0 then a.toId else m.toId,
             MergeData(m.data, a.data))
  }

  function SizeReq(m: ProtoReq): nat {
    IntFieldSize(m.kind) + IntFieldSize(m.version) + IntFieldSize(m.fromUid) + IntFieldSize(m.toId) + SizeData(m.data)
  }

  /** The parser's treatment of a serialized oneof alternative is the merge. */
  lemma DataFields(d: Data, a: Data)
    requires |EncodeAll(RecsData(a))| < TWO_31
    ensures a.NoData? || SwitchData(d, RecsData(a)[0]) == Checked(TextData(a), MergeData(d, a))
  {
    hide Fold, EncodeAll, Parse, RecsBody, RecsState, RecsNotify, RecsPull, RecsLog;
    SubmessageFits(RecsData(a));
    match a
    case NoData =>
    case Fctrl(b) =>
      var m := if d.Fctrl? then d.fctrl else NO_BODY;
      BodyParses(1, m, b);
    case Fstate(b) =>
      var m := if d.Fstate? then d.fstate else NO_STATE;
      StateParses(m, b);
    case Fmsg(b) =>
      var m := if d.Fmsg? then d.fmsg else NO_BODY;
      BodyParses(1, m, b);
    case Notify(b) =>
      var m := if d.Notify? then d.notify else SystemNotify([]);
      NotifyParses(m, b);
    case Gctrl(b) =>
      var m := if d.Gctrl? then d.gctrl else NO_BODY;
      BodyParses(2, m, b);
    case Gmsg(b) =>
      var m := if d.Gmsg? then d.gmsg else NO_BODY;
      BodyParses(2, m, b);
    case PullData(b) =>
      var m := if d.PullData? then d.pull else NO_PULL;
      PullParses(m, b);
    case LogData(b) =>
      var m := if d.LogData? then d.log else NO_LOG;
      LogParses(m, b);
  }

  lemma SubmessageFits(rs: seq<Rec>)
    requires |EncodeAll(rs)| < TWO_31
    ensures rs != [] && rs[0].L? ==> |rs[0].payload| <= |EncodeAll(rs)|
  {
  }

  lemma BodyParses(n: nat, m: Body, a: Body)
    requires (n == 1 || n == 2) && |EncodeAll(RecsBody(n, a))| < TWO_31
    ensures Parse(SwitchBody(n), m, EncodeAll(RecsBody(n, a))) == Ok(MergeBody(m, a))
  {
    BodyFields(n, m, a);
    ParseSerialized(SwitchBody(n), m, RecsBody(n, a), [], true, MergeBody(m, a));
  }

  lemma StateParses(m: FriendState, a: FriendState)
    requires |EncodeAll(RecsState(a))| < TWO_31
    ensures Parse(SwitchState, m, EncodeAll(RecsState(a))) == Ok(MergeState(m, a))
  {
    StateFields(m, a);
    ParseSerialized(SwitchState, m, RecsState(a), [], true, MergeState(m, a));
  }

  lemma NotifyParses(m: SystemNotify, a: SystemNotify)
    requires |EncodeAll(RecsNotify(a))| < TWO_31
    ensures Parse(SwitchNotify, m, EncodeAll(RecsNotify(a))) == Ok(MergeNotify(m, a))
  {
    NotifyFields(m, a);
    ParseSerialized(SwitchNotify, m, RecsNotify(a), [], true, MergeNotify(m, a));
  }

  lemma PullParses(m: Pull, a: Pull)
    requires |EncodeAll(RecsPull(a))| < TWO_31
    ensures Parse(SwitchPull, m, EncodeAll(RecsPull(a))) == Ok(MergePull(m, a))
  {
    PullFields(m, a);
    ParseSerialized(SwitchPull, m, RecsPull(a), [], true, MergePull(m, a));
  }

  lemma LogParses(m: Log, a: Log)
    requires |EncodeAll(RecsLog(a))| < TWO_31
    ensures Parse(SwitchLog, m, EncodeAll(RecsLog(a))) == Checked(ValidUtf8(a.token), MergeLog(m, a))
  {
    LogFields(m, a);
    ParseSerialized(SwitchLog, m, RecsLog(a), [], ValidUtf8(a.token), MergeLog(m, a));
  }

  lemma ReqFields(m: ProtoReq, a: ProtoReq)
    requires |EncodeAll(RecsReq(a))| < TWO_31
    ensures Fold(SwitchReq, m, RecsReq(a)) == Checked(TextData(a.data), MergeReq(m, a))
  {
    hide Fold, EncodeAll, SwitchData, MergeData, RecsData, TextData, ValidUtf8;
    IntegersSurvive(a.kind, 0, a.version);
    var f1, f2, f3, f4 := IntField(1, a.kind), IntField(2, a.version), IntField(3, a.fromUid), IntField(4, a.toId);
    var z := MergeReq(m, a).(data := m.data);
    FoldConcat(SwitchReq, m, f1 + f2 + f3 + f4, RecsData(a.data));
    FoldConcat(SwitchReq, m, f1 + f2 + f3, f4);
    FoldConcat(SwitchReq, m, f1 + f2, f3);
    FoldConcat(SwitchReq, m, f1, f2);
    FoldSmall(SwitchReq, m, V(1, ToWire(a.kind)));
    FoldSmall(SwitchReq, m.(kind := z.kind), V(2, a.version));
    FoldSmall(SwitchReq, m.(kind := z.kind, version := z.version), V(3, a.fromUid));
    FoldSmall(SwitchReq, z.(toId := m.toId), V(4, a.toId));
    assert Fold(SwitchReq, m, f1 + f2 + f3 + f4) == Ok(z);
    EncodeAllConcat(f1 + f2 + f3 + f4, RecsData(a.data));
    ReqDataField(z, a.data);
  }

  lemma ReqDataField(m: ProtoReq, a: Data)
    requires |EncodeAll(RecsData(a))| < TWO_31
    ensures Fold(SwitchReq, m, RecsData(a)) == Checked(TextData(a), m.(data := MergeData(m.data, a)))
  {
    hide EncodeAll, SwitchData, ValidUtf8;
    DataFields(m.data, a);
    if a.NoData? {
      FoldNothing(SwitchReq, m);
    } else {
      FoldSmall(SwitchReq, m, RecsData(a)[0]);
    }
  }

  lemma ReqNumbers(a: ProtoReq)
    ensures forall r <- RecsReq(a) :: 0 < r.num < 2048
  {
    hide EncodeAll;
    assert forall r <- RecsData(a.data) :: 0 < r.num < 2048;
  }

  lemma ReqParses(m: ProtoReq, a: ProtoReq, tail: bytes)
    requires |EncodeAll(RecsReq(a))| < TWO_31
    ensures Parse(SwitchReq, m, EncodeAll(RecsReq(a))) == Checked(TextData(a.data), MergeReq(m, a))
    ensures Parse(SwitchReq, m, EncodeAll(RecsReq(a)) + tail)
         == if TextData(a.data) then Parse(SwitchReq, MergeReq(m, a), tail) else Malformed
  {
    hide Fold, EncodeAll, Parse, SwitchReq, MergeReq, TextData, RecsReq;
    ReqFields(m, a);
    ReqNumbers(a);
    ParseSerialized(SwitchReq, m, RecsReq(a), tail, TextData(a.data), MergeReq(m, a));
  }

  // ---------------------------------------------------------------- ProtoResp

  datatype Outcome = NoOutcome | Timestamp(timestamp: int64) | ErrorCode(code: int32)
  datatype Str = NoStr | Msgid(msgid: bytes) | Err(err: bytes)
  datatype ProtoResp = ProtoResp(result: Outcome, str: Str)

  const NO_RESP := ProtoResp(NoOutcome, NoStr)

  /** The accessors `msgid()` and `timestamp()`, which give the default when the oneof holds
      something else. */
  function MsgidOf(m: ProtoResp): bytes {
    if m.str.Msgid? then m.str.msgid else []
  }

  function TimestampOf(m: ProtoResp): int64 {
    if m.result.Timestamp? then m.result.timestamp else 0
  }

  function RecsOutcome(o: Outcome): seq<Rec> {
    match o
    case NoOutcome => []
    case Timestamp(t) => [V(1, ToWire(t))]
    case ErrorCode(c) => [V(2, ToWire(c))]
  }

  function RecsStr(s: Str): seq<Rec> {
    match s
    case NoStr => []
    case Msgid(id) => [L(3, id)]
    case Err(e) => [L(4, e)]
  }

  function RecsResp(m: ProtoResp): seq<Rec> {
    RecsOutcome(m.result) + RecsStr(m.str)
  }

  function SwitchResp(m: ProtoResp, r: Rec): Result<ProtoResp> {
    if Is(r, 1, 8) then Ok(m.(result := Timestamp(ReadInt64(r.v))))
    else if Is(r, 2, 16) then Ok(m.(result := ErrorCode(ReadInt32(r.v))))
    else if Is(r, 3, 26) then Checked(ValidUtf8(r.payload), m.(str := Msgid(r.payload)))
    else if Is(r, 4, 34) then Checked(ValidUtf8(r.payload), m.(str := Err(r.payload)))
    else Unknown
  }

  function MergeResp(m: ProtoResp, a: ProtoResp): ProtoResp {
    ProtoResp(if a.result.NoOutcome? then m.result else a.result, if a.str.NoStr? then m.str else a.str)
  }

  function SizeResp(m: ProtoResp): nat {
    (match m.result
     case NoOutcome => 0
     case Timestamp(t) => 1 + VarintSize(ToWire(t))
     case ErrorCode(c) => 1 + VarintSize(ToWire(c)))
    +
    (match m.str
     case NoStr => 0
     case Msgid(id) => 1 + LengthDelimitedSize(|id|)
     case Err(e) => 1 + LengthDelimitedSize(|e|))
  }

  predicate TextResp(m: ProtoResp) {
    match m.str
    case NoStr => true
    case Msgid(id) => ValidUtf8(id)
    case Err(e) => ValidUtf8(e)
  }

  lemma RespFields(m: ProtoResp, a: ProtoResp)
    ensures Fold(SwitchResp, m, RecsResp(a)) == Checked(TextResp(a), MergeResp(m, a))
  {
    hide Fold, ValidUtf8;
    FoldConcat(SwitchResp, m, RecsOutcome(a.result), RecsStr(a.str));
    match a.result {
      case NoOutcome => FoldNothing(SwitchResp, m);
      case Timestamp(t) => IntegersSurvive(0, t, 0); FoldSmall(SwitchResp, m, V(1, ToWire(t)));
      case ErrorCode(c) => IntegersSurvive(c, 0, 0); FoldSmall(SwitchResp, m, V(2, ToWire(c)));
    }
    var m' := m.(result := MergeResp(m, a).result);
    match a.str {
      case NoStr => FoldNothing(SwitchResp, m');
      case Msgid(id) => FoldSmall(SwitchResp, m', L(3, id));
      case Err(e) => FoldSmall(SwitchResp, m', L(4, e));
    }
  }

  lemma RespParses(m: ProtoResp, a: ProtoResp, tail: bytes)
    requires |EncodeAll(RecsResp(a))| < TWO_31
    ensures Parse(SwitchResp, m, EncodeAll(RecsResp(a))) == Checked(TextResp(a), MergeResp(m, a))
    ensures Parse(SwitchResp, m, EncodeAll(RecsResp(a)) + tail)
         == if TextResp(a) then Parse(SwitchResp, MergeResp(m, a), tail) else Malformed
  {
    hide Fold, EncodeAll, Parse, SwitchResp, MergeResp, TextResp;
    RespFields(m, a);
    ParseSerialized(SwitchResp, m, RecsResp(a), tail, TextResp(a), MergeResp(m, a));
  }

  // ---------------------------------------------------------------- MqMessage

  datatype MqMessage = MqMessage(originReq: Option<ProtoReq>, handleResult: Option<ProtoResp>)

  const NO_MQ := MqMessage(None, None)

  /** The accessors, which give the default instance when the field is not set. */
  function OriginReq(m: MqMessage): ProtoReq {
    if m.originReq.Some? then m.originReq.value else NO_REQ
  }

  function HandleResult(m: MqMessage): ProtoResp {
    if m.handleResult.Some? then m.handleResult.value else NO_RESP
  }

  /** The accessors give what was set, and the defaults of the schema otherwise. */
  lemma Accessors(m: MqMessage, req: ProtoReq, resp: ProtoResp, time: int64, id: bytes)
    ensures m.originReq == Some(req) ==> OriginReq(m) == req
    ensures m.originReq == None ==> OriginReq(m) == ProtoReq(0, 0, 0, 0, NoData)
    ensures m.handleResult == Some(resp) ==> HandleResult(m) == resp
    ensures m.handleResult == None ==> MsgidOf(HandleResult(m)) == [] && TimestampOf(HandleResult(m)) == 0
    ensures resp.str == Msgid(id) ==> MsgidOf(resp) == id
    ensures !resp.str.Msgid? ==> MsgidOf(resp) == []
    ensures resp.result == Timestamp(time) ==> TimestampOf(resp) == time
    ensures !resp.result.Timestamp? ==> TimestampOf(resp) == 0
  {
  }

  function RecsOriginReq(o: Option<ProtoReq>): seq<Rec> {
    if o.Some? then [L(1, EncodeAll(RecsReq(o.value)))] else []
  }

  function RecsHandleResult(o: Option<ProtoResp>): seq<Rec> {
    if o.Some? then [L(2, EncodeAll(RecsResp(o.value)))] else []
  }

  function RecsMq(m: MqMessage): seq<Rec> {
    RecsOriginReq(m.originReq) + RecsHandleResult(m.handleResult)
  }

  function SerMq(m: MqMessage): bytes {
    EncodeAll(RecsMq(m))
  }

  function SwitchMq(m: MqMessage, r: Rec): Result<MqMessage> {
    if Is(r, 1, 10) then
      Map(Parse(SwitchReq, OriginReq(m), r.payload), (q: ProtoReq) => m.(originReq := Some(q)))
    else if Is(r, 2, 18) then
      Map(Parse(SwitchResp, HandleResult(m), r.payload), (p: ProtoResp) => m.(handleResult := Some(p)))
    else Unknown
  }

  function MergeMq(m: MqMessage, a: MqMessage): MqMessage {
    MqMessage(if a.originReq.Some? then Some(MergeReq(OriginReq(m), a.originReq.value)) else m.originReq,
              if a.handleResult.Some? then Some(MergeResp(HandleResult(m), a.handleResult.value)) else m.handleResult)
  }

  function SizeMq(m: MqMessage): nat {
    (if m.originReq.Some? then 1 + LengthDelimitedSize(SizeReq(m.originReq.value)) else 0)
    + (if m.handleResult.Some? then 1 + LengthDelimitedSize(SizeResp(m.handleResult.value)) else 0)
  }

  predicate TextMq(m: MqMessage) {
    TextData(OriginReq(m).data) && TextResp(HandleResult(m))
  }

  /** `ParseFromArray`. */
  function ParseMq(bs: bytes): Result<MqMessage> {
    Parse(SwitchMq, NO_MQ, bs)
  }

  lemma MqFields(m: MqMessage, a: MqMessage)
    requires |SerMq(a)| < TWO_31
    ensures Fold(SwitchMq, m, RecsMq(a)) == Checked(TextMq(a), MergeMq(m, a))
  {
    hide Fold, EncodeAll, Parse, RecsReq, RecsResp, MergeReq, MergeResp, TextData, TextResp;
    var f1, f2 := RecsOriginReq(a.originReq), RecsHandleResult(a.handleResult);
    EncodeAllConcat(f1, f2);
    FoldConcat(SwitchMq, m, f1, f2);
    FoldNothing(SwitchMq, m);
    SubmessageFits(f1);
    SubmessageFits(f2);
    var m' := m.(originReq := MergeMq(m, a).originReq);
    FoldNothing(SwitchMq, m');
    NoText();
    if a.originReq.Some? {
      ReqParses(OriginReq(m), a.originReq.value, []);
      FoldSmall(SwitchMq, m, f1[0]);
    }
    if a.handleResult.Some? {
      RespParses(HandleResult(m), a.handleResult.value, []);
      FoldSmall(SwitchMq, m', f2[0]);
    }
  }

  lemma NoText()
    ensures TextData(NO_REQ.data) && TextResp(NO_RESP)
  {
  }

  lemma MqParses(m: MqMessage, a: MqMessage, tail: bytes)
    requires |SerMq(a)| < TWO_31
    ensures Parse(SwitchMq, m, SerMq(a)) == Checked(TextMq(a), MergeMq(m, a))
    ensures Parse(SwitchMq, m, SerMq(a) + tail) == if TextMq(a) then Parse(SwitchMq, MergeMq(m, a), tail) else Malformed
  {
    hide Fold, EncodeAll, Parse, SwitchMq, MergeMq, TextMq;
    MqFields(m, a);
    ParseSerialized(SwitchMq, m, RecsMq(a), tail, TextMq(a), MergeMq(m, a));
  }

  // ---------------------------------------------------------------- PushReq

  datatype PushReq = PushReq(message: Option<MqMessage>, seqNo: int64, toUid: uint64)

  const NO_PUSH := PushReq(None, 0, 0)

  function MessageOf(m: PushReq): MqMessage {
    if m.message.Some? then m.message.value else NO_MQ
  }

  function RecsMessage(o: Option<MqMessage>): seq<Rec> {
    if o.Some? then [L(1, SerMq(o.value))] else []
  }

  function RecsPush(m: PushReq): seq<Rec> {
    RecsMessage(m.message) + IntField(2, m.seqNo) + IntField(3, m.toUid)
  }

  function SerPush(m: PushReq): bytes {
    EncodeAll(RecsPush(m))
  }

  function SwitchPush(m: PushReq, r: Rec): Result<PushReq> {
    if Is(r, 1, 10) then Map(Parse(SwitchMq, MessageOf(m), r.payload), (q: MqMessage) => m.(message := Some(q)))
    else if Is(r, 2, 16) then Ok(m.(seqNo := ReadInt64(r.v)))
    else if Is(r, 3, 24) then Ok(m.(toUid := r.v))
    else Unknown
  }

  function MergePush(m: PushReq, a: PushReq): PushReq {
    PushReq(if a.message.Some? then Some(MergeMq(MessageOf(m), a.message.value)) else m.message,
            if a.seqNo != 0 then a.seqNo else m.seqNo,
            if a.toUid != 0 then a.toUid else m.toUid)
  }

  function SizePush(m: PushReq): nat {
    (if m.message.Some? then 1 + LengthDelimitedSize(SizeMq(m.message.value)) else 0)
    + IntFieldSize(m.seqNo) + IntFieldSize(m.toUid)
  }

  predicate TextPush(m: PushReq) {
    TextMq(MessageOf(m))
  }

  function ParsePush(bs: bytes): Result<PushReq> {
    Parse(SwitchPush, NO_PUSH, bs)
  }

  lemma PushFields(m: PushReq, a: PushReq)
    requires |SerPush(a)| < TWO_31
    ensures Fold(SwitchPush, m, RecsPush(a)) == Checked(TextPush(a), MergePush(m, a))
  {
    hide Fold, EncodeAll, Parse, SerMq, MergeMq, TextData, TextResp;
    IntegersSurvive(0, a.seqNo, 0);
    NoText();
    var f1, f2, f3 := RecsMessage(a.message), IntField(2, a.seqNo), IntField(3, a.toUid);
    EncodeAllConcat(f1 + f2, f3);
    EncodeAllConcat(f1, f2);
    FoldConcat(SwitchPush, m, f1 + f2, f3);
    FoldConcat(SwitchPush, m, f1, f2);
    SubmessageFits(f1);
    FoldNothing(SwitchPush, m);
    if a.message.Some? {
      MqParses(MessageOf(m), a.message.value, []);
      FoldSmall(SwitchPush, m, f1[0]);
    }
    var z := MergePush(m, a);
    FoldSmall(SwitchPush, m.(message := z.message), V(2, ToWire(a.seqNo)));
    FoldSmall(SwitchPush, z.(toUid := m.toUid), V(3, a.toUid));
  }

  // ---------------------------------------------------------------- what the codec promises

  /** Parsing a serialization into a message merges it in, and the parser then goes on with whatever
      follows. It fails exactly when a `string` field is not UTF-8. */
  lemma PushParses(m: PushReq, a: PushReq, tail: bytes)
    requires |SerPush(a)| < TWO_31
    ensures Parse(SwitchPush, m, SerPush(a)) == Checked(TextPush(a), MergePush(m, a))
    ensures Parse(SwitchPush, m, SerPush(a) + tail)
         == if TextPush(a) then Parse(SwitchPush, MergePush(m, a), tail) else Malformed
  {
    hide Fold, EncodeAll, Parse, SwitchPush, MergePush, TextPush;
    PushFields(m, a);
    ParseSerialized(SwitchPush, m, RecsPush(a), tail, TextPush(a), MergePush(m, a));
  }

  /** Merging into the empty message changes nothing. */
  lemma MergeIntoNothing(a: PushReq, b: MqMessage)
    ensures MergePush(NO_PUSH, a) == a
    ensures MergeMq(NO_MQ, b) == b
    ensures MergeReq(NO_REQ, OriginReq(b)) == OriginReq(b) && MergeResp(NO_RESP, HandleResult(b)) == HandleResult(b)
  {
  }

  /** Parse(Ser(m)) = m, exactly for messages whose strings are UTF-8. */
  lemma PushRoundTrip(a: PushReq)
    requires |SerPush(a)| < TWO_31
    ensures ParsePush(SerPush(a)) == if TextPush(a) then Ok(a) else Malformed
  {
    hide Parse, SerPush, MergePush, TextPush;
    PushParses(NO_PUSH, a, []);
    MergeIntoNothing(a, NO_MQ);
  }

  lemma MqRoundTrip(a: MqMessage)
    requires |SerMq(a)| < TWO_31
    ensures ParseMq(SerMq(a)) == if TextMq(a) then Ok(a) else Malformed
  {
    hide Parse, SerMq, MergeMq, TextMq;
    MqParses(NO_MQ, a, []);
    MergeIntoNothing(NO_PUSH, a);
  }

  /** "Last One Wins": parsing two encodings one after the other equals merging the messages. */
  lemma PushConcatenationMerges(a: PushReq, b: PushReq)
    requires |SerPush(a)| < TWO_31 && |SerPush(b)| < TWO_31
    ensures ParsePush(SerPush(a) + SerPush(b)) == Checked(TextPush(a) && TextPush(b), MergePush(a, b))
  {
    hide Parse, SerPush, MergePush, TextPush;
    PushParses(NO_PUSH, a, SerPush(b));
    MergeIntoNothing(a, NO_MQ);
    PushParses(a, b, []);
  }

  lemma MqConcatenationMerges(a: MqMessage, b: MqMessage)
    requires |SerMq(a)| < TWO_31 && |SerMq(b)| < TWO_31
    ensures ParseMq(SerMq(a) + SerMq(b)) == Checked(TextMq(a) && TextMq(b), MergeMq(a, b))
  {
    hide Parse, SerMq, MergeMq, TextMq;
    MqParses(NO_MQ, a, SerMq(b));
    MergeIntoNothing(NO_PUSH, a);
    MqParses(a, b, []);
  }

  lemma ReqConcatenationMerges(a: ProtoReq, b: ProtoReq)
    requires |EncodeAll(RecsReq(a))| < TWO_31 && |EncodeAll(RecsReq(b))| < TWO_31
    ensures Parse(SwitchReq, NO_REQ, EncodeAll(RecsReq(a)) + EncodeAll(RecsReq(b)))
         == Checked(TextData(a.data) && TextData(b.data), MergeReq(a, b))
  {
    hide Parse, EncodeAll, RecsReq, MergeReq, TextData;
    ReqParses(NO_REQ, a, EncodeAll(RecsReq(b)));
    MergeIntoNothing(NO_PUSH, MqMessage(Some(a), None));
    ReqParses(a, b, []);
  }

  lemma RespConcatenationMerges(a: ProtoResp, b: ProtoResp)
    requires |EncodeAll(RecsResp(a))| < TWO_31 && |EncodeAll(RecsResp(b))| < TWO_31
    ensures Parse(SwitchResp, NO_RESP, EncodeAll(RecsResp(a)) + EncodeAll(RecsResp(b)))
         == Checked(TextResp(a) && TextResp(b), MergeResp(a, b))
  {
    hide Parse, EncodeAll, RecsResp, MergeResp, TextResp;
    RespParses(NO_RESP, a, EncodeAll(RecsResp(b)));
    MergeIntoNothing(NO_PUSH, MqMessage(None, Some(a)));
    RespParses(a, b, []);
  }

  // ---------------------------------------------------------------- what was parsed can be sent on

  lemma DataKeepsText(d: Data, r: Rec)
    requires TextData(d)
    ensures SwitchData(d, r).Ok? ==> TextData(SwitchData(d, r).value)
  {
    hide Parse, ValidUtf8;
    if Is(r, 18, 146) {
      EmptyIsText();
      ParseKeeps(SwitchLog, (l: Log) => ValidUtf8(l.token), if d.LogData? then d.log else NO_LOG, r.payload);
    }
  }

  lemma EmptyIsText()
    ensures ValidUtf8([])
  {
  }

  lemma ReqIsText(m: ProtoReq, bs: bytes)
    requires TextData(m.data)
    ensures Parse(SwitchReq, m, bs).Ok? ==> TextData(Parse(SwitchReq, m, bs).value.data)
  {
    hide SwitchData, TextData;
    forall x: ProtoReq, r: Rec | TextData(x.data) && SwitchReq(x, r).Ok? ensures TextData(SwitchReq(x, r).value.data) {
      DataKeepsText(x.data, r);
    }
    ParseKeeps(SwitchReq, (q: ProtoReq) => TextData(q.data), m, bs);
  }

  lemma RespIsText(m: ProtoResp, bs: bytes)
    requires TextResp(m)
    ensures Parse(SwitchResp, m, bs).Ok? ==> TextResp(Parse(SwitchResp, m, bs).value)
  {
    hide ValidUtf8;
    ParseKeeps(SwitchResp, TextResp, m, bs);
  }

  /** Every string in a parsed message is UTF-8, so the message survives being serialized again. */
  lemma ParsedIsText(bs: bytes)
    ensures ParseMq(bs).Ok? ==> TextMq(ParseMq(bs).value)
  {
    hide Parse, TextData, TextResp, SwitchReq, SwitchResp;
    NoText();
    forall x: MqMessage, r: Rec | TextMq(x) && SwitchMq(x, r).Ok? ensures TextMq(SwitchMq(x, r).value) {
      if Is(r, 1, 10) {
        ReqIsText(OriginReq(x), r.payload);
      } else if Is(r, 2, 18) {
        RespIsText(HandleResult(x), r.payload);
      }
    }
    ParseKeeps(SwitchMq, TextMq, NO_MQ, bs);
  }

  // ---------------------------------------------------------------- sizes

  lemma BodySize(n: nat, a: Body)
    requires (n == 1 || n == 2) && |EncodeAll(RecsBody(n, a))| < TWO_31
    ensures SizeBody(a) == |EncodeAll(RecsBody(n, a))|
  {
    hide EncodeAll, IntFieldSize, BlobFieldSize;
    PayloadsFit(RecsBody(n, a));
    EncodeAllConcat(IntField(n, a.kind), BlobField(n + 1, a.content));
    assert a.content != [] ==> L(n + 1, a.content) in RecsBody(n, a);
    FieldSizes(n, a.kind, []);
    FieldSizes(n + 1, 0, a.content);
  }

  lemma StateSize(a: FriendState)
    ensures SizeState(a) == |EncodeAll(RecsState(a))|
  {
    hide EncodeAll, IntFieldSize;
    EncodeAllConcat(IntField(1, a.kind), IntField(2, a.states));
    FieldSizes(1, a.kind, []);
    FieldSizes(2, a.states, []);
  }

  lemma NotifySize(a: SystemNotify)
    requires |EncodeAll(RecsNotify(a))| < TWO_31
    ensures SizeNotify(a) == |EncodeAll(RecsNotify(a))|
  {
    PayloadsFit(RecsNotify(a));
    FieldSizes(3, 0, a.content);
  }

  lemma PullSize(a: Pull)
    ensures SizePull(a) == |EncodeAll(RecsPull(a))|
  {
    hide EncodeAll, IntFieldSize;
    var f1, f2, f3, f4 := IntField(1, a.localSeq), IntField(2, a.syncTime), IntField(3, a.kind), IntField(4, a.limit);
    EncodeAllConcat(f1 + f2 + f3, f4);
    EncodeAllConcat(f1 + f2, f3);
    EncodeAllConcat(f1, f2);
    FieldSizes(1, a.localSeq, []);
    FieldSizes(2, a.syncTime, []);
    FieldSizes(3, a.kind, []);
    FieldSizes(4, a.limit, []);
  }

  lemma LogSize(a: Log)
    requires |EncodeAll(RecsLog(a))| < TWO_31
    ensures SizeLog(a) == |EncodeAll(RecsLog(a))|
  {
    hide EncodeAll, IntFieldSize, BlobFieldSize;
    PayloadsFit(RecsLog(a));
    var f1, f2, f3 := IntField(1, a.kind), BlobField(2, a.token), BlobField(3, a.content);
    EncodeAllConcat(f1 + f2, f3);
    EncodeAllConcat(f1, f2);
    assert a.token != [] ==> L(2, a.token) in RecsLog(a);
    assert a.content != [] ==> L(3, a.content) in RecsLog(a);
    FieldSizes(1, a.kind, []);
    FieldSizes(2, 0, a.token);
    FieldSizes(3, 0, a.content);
  }

  lemma DataSize(a: Data)
    requires |EncodeAll(RecsData(a))| < TWO_31
    ensures SizeData(a) == |EncodeAll(RecsData(a))|
  {
    hide EncodeAll, EncodeRec, RecsBody, RecsState, RecsNotify, RecsPull, RecsLog,
         SizeBody, SizeState, SizeNotify, SizePull, SizeLog, LengthDelimitedSize;
    SubmessageFits(RecsData(a));
    if a.NoData? {
      EncodeNothing();
    } else {
      RecSize(RecsData(a)[0]);
    }
    match a
    case NoData =>
    case Fctrl(b) => BodySize(1, b);
    case Fstate(b) => StateSize(b);
    case Fmsg(b) => BodySize(1, b);
    case Notify(b) => NotifySize(b);
    case Gctrl(b) => BodySize(2, b);
    case Gmsg(b) => BodySize(2, b);
    case PullData(b) => PullSize(b);
    case LogData(b) => LogSize(b);
  }

  lemma ReqSize(a: ProtoReq)
    requires |EncodeAll(RecsReq(a))| < TWO_31
    ensures SizeReq(a) == |EncodeAll(RecsReq(a))|
  {
    hide EncodeAll, IntFieldSize, SizeData, RecsData;
    var f1, f2, f3, f4 := IntField(1, a.kind), IntField(2, a.version), IntField(3, a.fromUid), IntField(4, a.toId);
    EncodeAllConcat(f1 + f2 + f3 + f4, RecsData(a.data));
    EncodeAllConcat(f1 + f2 + f3, f4);
    EncodeAllConcat(f1 + f2, f3);
    EncodeAllConcat(f1, f2);
    FieldSizes(1, a.kind, []);
    FieldSizes(2, a.version, []);
    FieldSizes(3, a.fromUid, []);
    FieldSizes(4, a.toId, []);
    DataSize(a.data);
  }

  lemma RespSize(a: ProtoResp)
    requires |EncodeAll(RecsResp(a))| < TWO_31
    ensures SizeResp(a) == |EncodeAll(RecsResp(a))|
  {
    hide EncodeAll, EncodeRec, LengthDelimitedSize;
    PayloadsFit(RecsResp(a));
    EncodeAllConcat(RecsOutcome(a.result), RecsStr(a.str));
    EncodeNothing();
    if !a.result.NoOutcome? {
      RecSize(RecsOutcome(a.result)[0]);
    }
    if !a.str.NoStr? {
      assert RecsStr(a.str)[0] in RecsResp(a);
      RecSize(RecsStr(a.str)[0]);
    }
  }

  lemma MqSize(a: MqMessage)
    requires |SerMq(a)| < TWO_31
    ensures SizeMq(a) == |SerMq(a)|
  {
    hide EncodeAll, EncodeRec, LengthDelimitedSize, RecsReq, RecsResp, SizeReq, SizeResp;
    var f1, f2 := RecsOriginReq(a.originReq), RecsHandleResult(a.handleResult);
    EncodeAllConcat(f1, f2);
    EncodeNothing();
    SubmessageFits(f1);
    SubmessageFits(f2);
    if a.originReq.Some? {
      ReqSize(a.originReq.value);
      RecSize(f1[0]);
    }
    if a.handleResult.Some? {
      RespSize(a.handleResult.value);
      RecSize(f2[0]);
    }
  }

  /** `ByteSizeLong` is the length of the serialization, through every nested length prefix. */
  lemma PushSize(a: PushReq)
    requires |SerPush(a)| < TWO_31
    ensures SizePush(a) == |SerPush(a)|
  {
    hide EncodeAll, EncodeRec, LengthDelimitedSize, SerMq, SizeMq, IntFieldSize;
    var f1, f2, f3 := RecsMessage(a.message), IntField(2, a.seqNo), IntField(3, a.toUid);
    EncodeAllConcat(f1 + f2, f3);
    EncodeAllConcat(f1, f2);
    EncodeNothing();
    SubmessageFits(f1);
    if a.message.Some? {
      MqSize(a.message.value);
      RecSize(f1[0]);
    }
    FieldSizes(2, a.seqNo, []);
    FieldSizes(3, a.toUid, []);
  }

  // ---------------------------------------------------------------- the serializers

  /** `InternalWriteMessage`: the length prefix comes from the cached size, before the body is
      written. */
  function WriteMessage(num: nat, cachedSize: nat, body: bytes): bytes {
    EncodeVarint(8 * num + 2) + EncodeVarint(cachedSize) + body
  }

  /** `MqMessage::_InternalSerialize`, appending to `target`; the cached sizes make well-formed
      length prefixes. */
  method WriteMq(m: MqMessage, start: bytes) returns (target: bytes)
    requires |SerMq(m)| < TWO_31
    ensures target == start + SerMq(m)
  {
    hide EncodeAll, EncodeVarint, RecsReq, RecsResp, SizeReq, SizeResp;
    ghost var f1, f2 := RecsOriginReq(m.originReq), RecsHandleResult(m.handleResult);
    EncodeAllConcat(f1, f2);
    EncodeNothing();
    target := start;
    if m.originReq.Some? {
      RecSizeOfSubmessage(f1);
      ReqSize(m.originReq.value);
      target := target + WriteMessage(1, SizeReq(m.originReq.value), EncodeAll(RecsReq(m.originReq.value)));
    }
    assert target == start + EncodeAll(f1);
    if m.handleResult.Some? {
      RecSizeOfSubmessage(f2);
      RespSize(m.handleResult.value);
      target := target + WriteMessage(2, SizeResp(m.handleResult.value), EncodeAll(RecsResp(m.handleResult.value)));
    }
  }

  /** `PushReq::_InternalSerialize`. */
  method WritePush(m: PushReq) returns (target: bytes)
    requires |SerPush(m)| < TWO_31
    ensures target == SerPush(m)
  {
    hide EncodeAll, EncodeVarint, SerMq, SizeMq;
    ghost var f1, f2, f3 := RecsMessage(m.message), IntField(2, m.seqNo), IntField(3, m.toUid);
    EncodeAllConcat(f1 + f2, f3);
    EncodeAllConcat(f1, f2);
    EncodeNothing();
    target := [];
    if m.message.Some? {
      RecSizeOfSubmessage(f1);
      MqSize(m.message.value);
      target := EncodeVarint(8 * 1 + 2) + EncodeVarint(SizeMq(m.message.value));
      target := WriteMq(m.message.value, target);
    }
    assert target == EncodeAll(f1);
    if m.seqNo != 0 {
      RecSize(f2[0]);
      target := target + EncodeVarint(8 * 2) + EncodeVarint(ToWire(m.seqNo));
    }
    assert target == EncodeAll(f1) + EncodeAll(f2);
    if m.toUid != 0 {
      RecSize(f3[0]);
      target := target + EncodeVarint(8 * 3) + EncodeVarint(m.toUid);
    }
  }

  lemma RecSizeOfSubmessage(rs: seq<Rec>)
    requires |EncodeAll(rs)| < TWO_31 && |rs| == 1 && rs[0].L? && 0 < rs[0].num < 2048
    ensures EncodeAll(rs) == EncodeRec(rs[0]) && |rs[0].payload| < TWO_31
  {
    SubmessageFits(rs);
    RecSize(rs[0]);
    assert rs == [rs[0]];
  }
}
