/** From the client's acknowledgement to the receiver: the logic server's Kafka topic is what the consumers
    read. */
module EndToEnd {
  import opened Options
  import opened Wire
  import opened Messages
  import Rpc
  import Topic
  import Logic
  import Transfer
  import Gate
  import Delivery
  import FanOut

  /** The call was answered with time and msgid, and was not a LOGIN. */
  predicate IsAcknowledged(s: Logic.State, c: Rpc.Id) {
    && c in s.server.ctxs && s.server.ctxs[c].finished != [] && s.server.ctxs[c].req.Some?
    && var j := s.server.ctxs[c].req.value;
       && j.resp.result.Timestamp? && j.resp.str.Msgid?
       && !(j.req.kind == 8 && (if j.req.data.LogData? then j.req.data.log.kind else 0) == 0)
  }

  /** The message that the client was told about. */
  function Message(s: Logic.State, c: Rpc.Id): MqMessage
    requires IsAcknowledged(s, c)
  {
    Logic.MessageOf(s.server.ctxs[c].req.value)
  }

  /** A call that was acknowledged is a record in the topic, below the msgid that its client was told, and both
      consumers read from it exactly the client's request with that response. */
  lemma AcknowledgedIsInTopic(first: Rpc.Id, threads: nat, es: seq<Logic.Event>, c: Rpc.Id)
    requires Logic.IsRun(Logic.Boot(first, threads), es)
    requires IsAcknowledged(Logic.After(Logic.Boot(first, threads), es), c)
    requires |SerMq(Message(Logic.After(Logic.Boot(first, threads), es), c))| < TWO_31
    ensures var s := Logic.After(Logic.Boot(first, threads), es);
            var (mq, r) := (Message(s, c), Logic.RecordOf(Message(s, c)));
            && r in s.topic && Topic.Accepts(r) == Some(mq)
            && r.key == s.server.ctxs[c].req.value.resp.str.msgid && Logic.Acknowledged(es, r.key)
  {
    hide SerMq, ParseMq, Logic.Judge, Logic.Inv, Logic.IsRun, Logic.After;
    Logic.ResponsesAreHonest(first, threads, es, c);
    Logic.Reached(first, threads, es);
    var s := Logic.After(Logic.Boot(first, threads), es);
    ReadBack(s, Message(s, c));
  }

  lemma ReadBack(s: Logic.State, mq: MqMessage)
    requires Logic.Inv(s) && Logic.RecordOf(mq) in s.topic && |SerMq(mq)| < TWO_31
    ensures Topic.Accepts(Logic.RecordOf(mq)) == Some(mq)
  {
    hide SerMq, ParseMq, TextMq, Rpc.Inv, Logic.OutOk, Logic.FramesOk, Logic.AllHere, Logic.KeysOk;
    assert Logic.RecordOk(Logic.RecordOf(mq));
    var m: MqMessage :| Logic.RecordOf(mq) == Logic.RecordOf(m) && Logic.MessageOk(m);
    MqRoundTrip(m);
    MqRoundTrip(mq);
  }

  // ---------------------------------------------------------------- what becomes of it

  /** What has become of a ticket: its insert is outstanding or has failed, it is in the inbox with its own
      msgid, or some gate has sent it on a socket that was opened for its user. */
  ghost predicate Fate(s: Delivery.State, x: Transfer.Ticket) {
    || Transfer.Write(x) in s.t.running || Transfer.InsertOf(x) in s.t.ops || Transfer.InsertOf(x) in s.t.lost
    || (Transfer.RowOf(x) in s.t.inbox && s.t.inbox[Transfer.RowOf(x)] == Topic.IdOf(x.mq))
    || exists a <- s.gates, sent <- s.gates[a].sent ::
         && sent.data == SerPush(PushReq(Some(x.mq), x.no, x.uid)) && sent.uid == x.uid
         && sent.ws in s.gates[a].uidOf && s.gates[a].uidOf[sent.ws] == x.uid
  }

  lemma TicketFate(s: Delivery.State, es: seq<Delivery.Event>, x: Transfer.Ticket)
    requires Delivery.Initial(s) && Delivery.IsRun(s, es) && x in Delivery.After(s, es).t.handed
    ensures Fate(Delivery.After(s, es), x)
  {
    hide SerPush, Delivery.IsRun, Delivery.After, Delivery.Initial, Transfer.Inv;
    Delivery.Reached(s, es);
    var s' := Delivery.After(s, es);
    if Transfer.RowOf(x) in s'.t.inbox {
      OwnMsgid(s'.t, x);
    } else if Transfer.Write(x) !in s'.t.running && Transfer.InsertOf(x) !in s'.t.ops {
      Delivery.MissingMeansDelivered(s, es, x);
    }
  }

  lemma OwnMsgid(t: Transfer.State, x: Transfer.Ticket)
    requires Transfer.Inv(t) && x in t.handed && Transfer.RowOf(x) in t.inbox
    ensures t.inbox[Transfer.RowOf(x)] == Topic.IdOf(x.mq)
  {
    hide Transfer.Numbered, Transfer.AllAccounted, Transfer.Fanned, Transfer.Texts, Transfer.OpOk, Topic.IdOf;
    var row := Transfer.RowOf(x);
    assert Transfer.OpOk(t, Transfer.Insert(row, t.inbox[row]));
    Transfer.Inserted(t, x);
    Transfer.NeverOverwritten(t, row, t.inbox[row], Topic.IdOf(x.mq));
  }

  /** End to end. A call of the logic server was acknowledged; some run of the delivery chain has handled its
      record and settled. For every user that the message is for, the member query or the user's counter
      has failed, or the user was given a ticket for exactly this message, whose row is being inserted, has
      failed to be, is in the inbox, or which a gate has sent on a socket that was opened for the user. */
  lemma AcknowledgedArrives(first: Rpc.Id, threads: nat, es: seq<Logic.Event>, c: Rpc.Id,
                            d: Delivery.State, ds: seq<Delivery.Event>, u: Uid)
    requires Logic.IsRun(Logic.Boot(first, threads), es)
    requires IsAcknowledged(Logic.After(Logic.Boot(first, threads), es), c)
    requires |SerMq(Message(Logic.After(Logic.Boot(first, threads), es), c))| < TWO_31
    requires Delivery.Initial(d) && Delivery.IsRun(d, ds) && FanOut.Settled(Delivery.After(d, ds).t)
    requires var mq := Message(Logic.After(Logic.Boot(first, threads), es), c);
             && Logic.RecordOf(mq) in Delivery.After(d, ds).t.consumed
             && FanOut.Addressed(Delivery.After(d, ds).t.members, Logic.RecordOf(mq), u, Topic.IdOf(mq))
    ensures var (mq, s) := (Message(Logic.After(Logic.Boot(first, threads), es), c), Delivery.After(d, ds));
            || Logic.RecordOf(mq) in s.t.skipped || (mq, u) in s.t.dropped
            || exists x <- s.t.handed :: x.mq == mq && x.uid == u && Fate(s, x)
  {
    hide SerMq, Logic.IsRun, Logic.After, Delivery.IsRun, Delivery.After, Delivery.Initial, Transfer.Inv,
         FanOut.Settled, FanOut.Addressed, Topic.Accepts, Topic.Recipients, Fate, IsAcknowledged, Logic.Boot;
    AcknowledgedIsInTopic(first, threads, es, c);
    Delivery.Reached(d, ds);
    var (mq, s) := (Message(Logic.After(Logic.Boot(first, threads), es), c), Delivery.After(d, ds));
    FanOut.AddressedMeans(s.t.members, Logic.RecordOf(mq), u, Topic.IdOf(mq));
    FanOut.DueIsServed(s.t, Logic.RecordOf(mq), u);
    if Transfer.Handed(s.t, mq, u) {
      var x :| x in s.t.handed && x.uid == u && x.mq == mq;
      TicketFate(d, ds, x);
    }
  }
}
