/** The Kafka log between the logic server and its two consumers, and the checks that both consumers
    make before they use a message (server/transfer/cassandra/main.cc, server/transfer/mysql/main.cc). */
module Topic {
  import opened Options
  import opened Wire
  import opened Messages

  datatype Record = Record(key: bytes, payload: bytes)

  /** ParseFromArray and the comparison of the message's msgid with the key. */
  function Accepts(r: Record): (mq: Option<MqMessage>) {
    match ParseMq(r.payload)
    case Ok(mq) => if IdOf(mq) == r.key then Some(mq) else None
    case _ => None
  }

  function IdOf(mq: MqMessage): bytes {
    MsgidOf(HandleResult(mq))
  }

  function TimeOf(mq: MqMessage): int64 {
    TimestampOf(HandleResult(mq))
  }

  predicate ToGroup(mq: MqMessage) {
    OriginReq(mq).kind == 6 || OriginReq(mq).kind == 5
  }

  /** group_member: (group_id, user_id), the primary key, to join_time. */
  type Members = map<(Uid, Uid), uint64>

  /** Whom a message is for. */
  function Recipients(members: Members, mq: MqMessage): set<Uid> {
    if ToGroup(mq) then set m <- members | m.0 == OriginReq(mq).toId && members[m] <= TimeOf(mq) :: m.1
    else {OriginReq(mq).toId}
  }

  lemma AcceptedIsText(r: Record)
    ensures Accepts(r).Some? ==> TextMq(Accepts(r).value)
  {
    ParsedIsText(r.payload);
  }
}
