/** The bytes that the messages are written as, field by field, with the tags that server/proto/msg.proto and
    server/proto/route.proto determine. */
module Schema {
  import opened Options
  import opened Wire
  import opened Messages
  import Route

  // ---------------------------------------------------------------- varints

  /** The value of the groups of seven bits, the least significant first. */
  function Groups(bs: bytes): nat {
    if bs == [] then 0 else bs[0] % 128 + 128 * Groups(bs[1..])
  }

  /** "Base 128 Varints": every byte but the last has its top bit set, there is no useless last byte, and the groups
      add up to the value. */
  lemma {:induction false} VarintMeans(v: nat)
    ensures var bs := EncodeVarint(v);
            && Groups(bs) == v && bs[|bs| - 1] < 128 && (|bs| > 1 ==> bs[|bs| - 1] != 0)
            && forall i | 0 <= i < |bs| - 1 :: bs[i] >= 128
  {
    if v >= 128 {
      VarintMeans(v / 128);
      assert EncodeVarint(v)[1..] == EncodeVarint(v / 128);
    } else {
      assert [v][1..] == [];
    }
  }

  /** Signed values are written in two's complement with 64 bits; reading keeps the low 64 or 32 of them. */
  lemma SignedMeans(x: int, v: uint64)
    requires -TWO_63 <= x < TWO_64
    ensures ToWire(x) == x % 0x1_0000_0000_0000_0000
    ensures x < 0 ==> |EncodeVarint(ToWire(x))| == 10
    ensures ReadInt64(v) % 0x1_0000_0000_0000_0000 == v
    ensures ReadInt32(v) % 0x1_0000_0000 == ReadUInt32(v) == v % 0x1_0000_0000
  {
    VarintSizeIsLength(ToWire(x));
  }

  // ---------------------------------------------------------------- fields

  function IntBytes(tag: bytes, x: int): bytes
    requires -TWO_63 <= x < TWO_64
  {
    if x == 0 then [] else tag + EncodeVarint(ToWire(x))
  }

  function PayloadBytes(tag: bytes, s: bytes): bytes {
    tag + EncodeVarint(|s|) + s
  }

  function BlobBytes(tag: bytes, s: bytes): bytes {
    if s == [] then [] else PayloadBytes(tag, s)
  }

  lemma Fields(num: nat, tag: bytes, v: uint64, s: bytes)
    requires 0 < num
    ensures EncodeVarint(8 * num) == tag ==> EncodeAll([V(num, v)]) == tag + EncodeVarint(v)
    ensures EncodeVarint(8 * num + 2) == tag ==> EncodeAll([L(num, s)]) == PayloadBytes(tag, s)
  {
    hide EncodeVarint;
    assert EncodeAll([V(num, v)]) == EncodeRec(V(num, v)) + EncodeAll([]);
    assert EncodeAll([L(num, s)]) == EncodeRec(L(num, s)) + EncodeAll([]);
  }

  lemma IntFieldBytes(num: nat, x: int)
    requires 0 < num < 16 && -TWO_63 <= x < TWO_64
    ensures EncodeAll(IntField(num, x)) == IntBytes([8 * num], x)
  {
    Fields(num, [8 * num], ToWire(x), []);
  }

  lemma BlobFieldBytes(num: nat, s: bytes)
    requires 0 < num < 16
    ensures EncodeAll(BlobField(num, s)) == BlobBytes([8 * num + 2], s)
  {
    Fields(num, [8 * num + 2], 0, s);
  }

  lemma NestedBytes(num: nat, s: bytes)
    requires 0 < num < 32
    ensures EncodeAll([L(num, s)])
         == PayloadBytes(if num < 16 then [8 * num + 2] else [(8 * num + 2) % 128 + 128, (8 * num + 2) / 128], s)
  {
    var tag := 8 * num + 2;
    assert EncodeVarint(tag / 128) == [tag / 128];
    Fields(num, if num < 16 then [tag] else [tag % 128 + 128, tag / 128], 0, s);
  }

  // ---------------------------------------------------------------- the messages

  lemma PushBytes(m: PushReq)
    ensures SerPush(m)
         == (if m.message.Some? then PayloadBytes([0x0A], SerMq(m.message.value)) else [])
          + IntBytes([0x10], m.seqNo) + IntBytes([0x18], m.toUid)
  {
    hide EncodeAll, IntField, IntBytes, PayloadBytes, SerMq;
    EncodeNothing();
    if m.message.Some? { NestedBytes(1, SerMq(m.message.value)); }
    IntFieldBytes(2, m.seqNo);
    IntFieldBytes(3, m.toUid);
    EncodeAllConcat(RecsMessage(m.message) + IntField(2, m.seqNo), IntField(3, m.toUid));
    EncodeAllConcat(RecsMessage(m.message), IntField(2, m.seqNo));
  }

  lemma MqBytes(m: MqMessage)
    ensures SerMq(m)
         == (if m.originReq.Some? then PayloadBytes([0x0A], EncodeAll(RecsReq(m.originReq.value))) else [])
          + (if m.handleResult.Some? then PayloadBytes([0x12], EncodeAll(RecsResp(m.handleResult.value))) else [])
  {
    hide EncodeAll, PayloadBytes, RecsReq, RecsResp;
    EncodeNothing();
    if m.originReq.Some? { NestedBytes(1, EncodeAll(RecsReq(m.originReq.value))); }
    if m.handleResult.Some? { NestedBytes(2, EncodeAll(RecsResp(m.handleResult.value))); }
    EncodeAllConcat(RecsOriginReq(m.originReq), RecsHandleResult(m.handleResult));
  }

  lemma RespBytes(m: ProtoResp)
    ensures EncodeAll(RecsResp(m))
         == (match m.result
             case NoOutcome => []
             case Timestamp(t) => [0x08] + EncodeVarint(ToWire(t))
             case ErrorCode(c) => [0x10] + EncodeVarint(ToWire(c)))
          + (match m.str
             case NoStr => []
             case Msgid(id) => PayloadBytes([0x1A], id)
             case Err(e) => PayloadBytes([0x22], e))
  {
    hide EncodeAll, PayloadBytes;
    EncodeNothing();
    EncodeAllConcat(RecsOutcome(m.result), RecsStr(m.str));
    match m.result {
      case NoOutcome =>
      case Timestamp(t) => Fields(1, [0x08], ToWire(t), []);
      case ErrorCode(c) => Fields(2, [0x10], ToWire(c), []);
    }
    match m.str {
      case NoStr =>
      case Msgid(id) => NestedBytes(3, id);
      case Err(e) => NestedBytes(4, e);
    }
  }

  lemma ReqBytes(m: ProtoReq)
    ensures EncodeAll(RecsReq(m))
         == IntBytes([0x08], m.kind) + IntBytes([0x10], m.version) + IntBytes([0x18], m.fromUid)
          + IntBytes([0x20], m.toId) + EncodeAll(RecsData(m.data))
  {
    hide EncodeAll, IntField, IntBytes, RecsData;
    IntFieldBytes(1, m.kind);
    IntFieldBytes(2, m.version);
    IntFieldBytes(3, m.fromUid);
    IntFieldBytes(4, m.toId);
    var f1, f2, f3, f4 := IntField(1, m.kind), IntField(2, m.version), IntField(3, m.fromUid), IntField(4, m.toId);
    EncodeAllConcat(f1 + f2 + f3 + f4, RecsData(m.data));
    EncodeAllConcat(f1 + f2 + f3, f4);
    EncodeAllConcat(f1 + f2, f3);
    EncodeAllConcat(f1, f2);
  }

  /** The oneof, with its one-byte and two-byte tags and the bodies of the nested messages. */
  lemma DataBytes(d: Data)
    ensures EncodeAll(RecsData(d))
         == match d
            case NoData => []
            case Fctrl(b) => PayloadBytes([0x5A], IntBytes([0x08], b.kind) + BlobBytes([0x12], b.content))
            case Fstate(b) => PayloadBytes([0x62], IntBytes([0x08], b.kind) + IntBytes([0x10], b.states))
            case Fmsg(b) => PayloadBytes([0x6A], IntBytes([0x08], b.kind) + BlobBytes([0x12], b.content))
            case Notify(b) => PayloadBytes([0x72], BlobBytes([0x1A], b.content))
            case Gctrl(b) => PayloadBytes([0x7A], IntBytes([0x10], b.kind) + BlobBytes([0x1A], b.content))
            case Gmsg(b) => PayloadBytes([0x82, 0x01], IntBytes([0x10], b.kind) + BlobBytes([0x1A], b.content))
            case PullData(b) =>
              PayloadBytes([0x8A, 0x01], IntBytes([0x08], b.localSeq) + IntBytes([0x10], b.syncTime)
                                         + IntBytes([0x18], b.kind) + IntBytes([0x20], b.limit))
            case LogData(b) =>
              PayloadBytes([0x92, 0x01],
                           IntBytes([0x08], b.kind) + BlobBytes([0x12], b.token) + BlobBytes([0x1A], b.content))
  {
    hide EncodeAll, IntField, BlobField, IntBytes, BlobBytes, PayloadBytes, RecsBody, RecsState, RecsNotify, RecsPull,
         RecsLog;
    EncodeNothing();
    match d
    case NoData =>
    case Fctrl(b) => BodyBytes(1, b); NestedBytes(11, EncodeAll(RecsBody(1, b)));
    case Fstate(b) => StateBytes(b); NestedBytes(12, EncodeAll(RecsState(b)));
    case Fmsg(b) => BodyBytes(1, b); NestedBytes(13, EncodeAll(RecsBody(1, b)));
    case Notify(b) => NotifyBytes(b); NestedBytes(14, EncodeAll(RecsNotify(b)));
    case Gctrl(b) => BodyBytes(2, b); NestedBytes(15, EncodeAll(RecsBody(2, b)));
    case Gmsg(b) => BodyBytes(2, b); NestedBytes(16, EncodeAll(RecsBody(2, b)));
    case PullData(b) => PullBytes(b); NestedBytes(17, EncodeAll(RecsPull(b)));
    case LogData(b) => LogBytes(b); NestedBytes(18, EncodeAll(RecsLog(b)));
  }

  lemma BodyBytes(n: nat, b: Body)
    requires n == 1 || n == 2
    ensures EncodeAll(RecsBody(n, b)) == IntBytes([8 * n], b.kind) + BlobBytes([8 * n + 10], b.content)
  {
    hide EncodeAll, IntField, BlobField, IntBytes, BlobBytes;
    IntFieldBytes(n, b.kind);
    BlobFieldBytes(n + 1, b.content);
    EncodeAllConcat(IntField(n, b.kind), BlobField(n + 1, b.content));
  }

  lemma StateBytes(b: FriendState)
    ensures EncodeAll(RecsState(b)) == IntBytes([0x08], b.kind) + IntBytes([0x10], b.states)
  {
    hide EncodeAll, IntField, IntBytes;
    IntFieldBytes(1, b.kind);
    IntFieldBytes(2, b.states);
    EncodeAllConcat(IntField(1, b.kind), IntField(2, b.states));
  }

  lemma NotifyBytes(b: SystemNotify)
    ensures EncodeAll(RecsNotify(b)) == BlobBytes([0x1A], b.content)
  {
    BlobFieldBytes(3, b.content);
  }

  lemma PullBytes(b: Pull)
    ensures EncodeAll(RecsPull(b))
         == IntBytes([0x08], b.localSeq) + IntBytes([0x10], b.syncTime) + IntBytes([0x18], b.kind)
          + IntBytes([0x20], b.limit)
  {
    hide EncodeAll, IntField, IntBytes;
    IntFieldBytes(1, b.localSeq);
    IntFieldBytes(2, b.syncTime);
    IntFieldBytes(3, b.kind);
    IntFieldBytes(4, b.limit);
    var f1, f2, f3, f4 := IntField(1, b.localSeq), IntField(2, b.syncTime), IntField(3, b.kind), IntField(4, b.limit);
    EncodeAllConcat(f1 + f2 + f3, f4);
    EncodeAllConcat(f1 + f2, f3);
    EncodeAllConcat(f1, f2);
  }

  lemma LogBytes(b: Log)
    ensures EncodeAll(RecsLog(b))
         == IntBytes([0x08], b.kind) + BlobBytes([0x12], b.token) + BlobBytes([0x1A], b.content)
  {
    hide EncodeAll, IntField, BlobField, IntBytes, BlobBytes;
    IntFieldBytes(1, b.kind);
    BlobFieldBytes(2, b.token);
    BlobFieldBytes(3, b.content);
    var f1, f2, f3 := IntField(1, b.kind), BlobField(2, b.token), BlobField(3, b.content);
    EncodeAllConcat(f1 + f2, f3);
    EncodeAllConcat(f1, f2);
  }

  /** The packed field is its varints one after the other. */
  lemma BeatBytes(m: Route.HeartBeat)
    ensures Route.SerBeat(m)
         == BlobBytes([0x0A], m.reported)
          + (if m.uids == [] then [] else PayloadBytes([0x1A], Route.EncodePacked(m.uids)))
    ensures m.uids != [] ==> Route.EncodePacked(m.uids) == EncodeVarint(m.uids[0]) + Route.EncodePacked(m.uids[1..])
    ensures m.uids == [] ==> Route.EncodePacked(m.uids) == []
  {
    hide EncodeAll, BlobField, BlobBytes, PayloadBytes, EncodeVarint;
    EncodeNothing();
    BlobFieldBytes(1, m.reported);
    NestedBytes(3, Route.EncodePacked(m.uids));
    EncodeAllConcat(BlobField(1, m.reported), Route.RecsUids(m.uids));
  }

  // ---------------------------------------------------------------- merging

  function Last(x: int, y: int): int {
    if y != 0 then y else x
  }

  function LastBlob(x: bytes, y: bytes): bytes {
    if y != [] then y else x
  }

  /** "Last One Wins", field by field: a set field of the second message overrides. */
  lemma MergeMeans(a: ProtoReq, b: ProtoReq)
    ensures var z := MergeReq(a, b);
            && z.kind == Last(a.kind, b.kind) && z.version == Last(a.version, b.version)
            && z.fromUid == Last(a.fromUid, b.fromUid) && z.toId == Last(a.toId, b.toId)
            && z.data == MergeData(a.data, b.data)
  {
  }

  predicate SameCase(d: Data, a: Data) {
    || (d.Fctrl? && a.Fctrl?) || (d.Fstate? && a.Fstate?) || (d.Fmsg? && a.Fmsg?) || (d.Notify? && a.Notify?)
    || (d.Gctrl? && a.Gctrl?) || (d.Gmsg? && a.Gmsg?) || (d.PullData? && a.PullData?) || (d.LogData? && a.LogData?)
  }

  /** "Oneofs": an alternative of the same case is merged field by field, another one replaces what was set. */
  lemma OneofMeans(d: Data, a: Data)
    ensures a.NoData? ==> MergeData(d, a) == d
    ensures !a.NoData? && !SameCase(d, a) ==> MergeData(d, a) == a
    ensures d.Fctrl? && a.Fctrl? ==>
              MergeData(d, a)
              == Fctrl(Body(Last(d.fctrl.kind, a.fctrl.kind), LastBlob(d.fctrl.content, a.fctrl.content)))
    ensures d.Fmsg? && a.Fmsg? ==>
              MergeData(d, a) == Fmsg(Body(Last(d.fmsg.kind, a.fmsg.kind), LastBlob(d.fmsg.content, a.fmsg.content)))
    ensures d.Gctrl? && a.Gctrl? ==>
              MergeData(d, a)
              == Gctrl(Body(Last(d.gctrl.kind, a.gctrl.kind), LastBlob(d.gctrl.content, a.gctrl.content)))
    ensures d.Gmsg? && a.Gmsg? ==>
              MergeData(d, a) == Gmsg(Body(Last(d.gmsg.kind, a.gmsg.kind), LastBlob(d.gmsg.content, a.gmsg.content)))
    ensures d.Fstate? && a.Fstate? ==>
              MergeData(d, a)
              == Fstate(FriendState(Last(d.fstate.kind, a.fstate.kind), Last(d.fstate.states, a.fstate.states)))
    ensures d.Notify? && a.Notify? ==>
              MergeData(d, a) == Notify(SystemNotify(LastBlob(d.notify.content, a.notify.content)))
    ensures d.PullData? && a.PullData? ==>
              MergeData(d, a)
              == PullData(Pull(Last(d.pull.localSeq, a.pull.localSeq), Last(d.pull.syncTime, a.pull.syncTime),
                               Last(d.pull.kind, a.pull.kind), Last(d.pull.limit, a.pull.limit)))
    ensures d.LogData? && a.LogData? ==>
              MergeData(d, a)
              == LogData(Log(Last(d.log.kind, a.log.kind), LastBlob(d.log.token, a.log.token),
                             LastBlob(d.log.content, a.log.content)))
  {
  }

  /** The other messages: what is set in the second one wins, nested messages are merged. */
  lemma OtherMergesMean(a: PushReq, b: PushReq, m: MqMessage, n: MqMessage, x: ProtoResp, y: ProtoResp)
    ensures var z := MergePush(a, b);
            && z.seqNo == Last(a.seqNo, b.seqNo) && z.toUid == Last(a.toUid, b.toUid)
            && z.message == if a.message.Some? && b.message.Some? then Some(MergeMq(a.message.value, b.message.value))
                            else if b.message.Some? then b.message else a.message
    ensures var z := MergeMq(m, n);
            && z.originReq == (if m.originReq.Some? && n.originReq.Some?
                               then Some(MergeReq(m.originReq.value, n.originReq.value))
                               else if n.originReq.Some? then n.originReq else m.originReq)
            && z.handleResult == (if m.handleResult.Some? && n.handleResult.Some?
                                  then Some(MergeResp(m.handleResult.value, n.handleResult.value))
                                  else if n.handleResult.Some? then n.handleResult else m.handleResult)
    ensures var z := MergeResp(x, y);
            && z.result == (if y.result.NoOutcome? then x.result else y.result)
            && z.str == (if y.str.NoStr? then x.str else y.str)
  {
  }
}
