# A verified model of the chat back end

The repository is a distributed chat back end: clients hold web sockets at *gates*; a *logic server*
checks requests and puts accepted ones into Kafka; two consumers index the same Kafka topic, one into
per-user Cassandra inboxes (fan-out on write), one into MySQL boxes (fan-out on read); the Cassandra
consumer also asks the *push server* to deliver, which relays to the gate of the receiver. This project
models these processes in Dafny and proves what holds in every run, under every interleaving of threads,
callbacks, database operations, failures of the databases and broken connections.

`dafny verify dfyconfig.toml` checks everything.

| module | what it models |
|---|---|
| `Wire`, `Messages`, `Route` | the Protocol Buffers codec of the generated classes: parse, serialize, size, merge |
| `Schema`, `Utf8` | what the codec means byte by byte: tags, varints, merged fields, text |
| `Rpc` | the completion-queue loop that the logic server, the push server and the gate share, and pool threads |
| `Logic`, `Handler` | the life of an RPC context in the logic server as a state machine, and `Handle` / `dr_cb` as programs |
| `Waiting` | which clients of the logic server wait, and for what |
| `Friend` | `FriendCtrlHandle` over its two tables |
| `Topic` | a Kafka record and the checks that both consumers make |
| `Transfer`, `Consumer` | the Cassandra consumer as a state machine, and its handlers as programs |
| `Push`, `PushServer` | the push server with its gate client, likewise |
| `Gate`, `GateServer` | the gate with its socket registry, likewise |
| `Delivery` | consumer, push server and gates composed into one state machine |
| `Runs` | what the events of a run of that machine decide: registrations, lost requests, kept contexts |
| `Stubs`, `StubRace` | the life of a stub in the gate client |
| `Unheard` | a run of the whole chain in which a message is deleted although nobody received it |
| `MySql`, `FanOut` | the MySQL consumer as a state machine, and its comparison with the Cassandra consumer |
| `EndToEnd` | from the acknowledgement of the logic server to the receiver, across the Kafka topic |
| `ThreadPool`, `ConnectionPool`, `TokenVerify` | the utilities of `server/include` |

How the code is represented. Code that is interrupted by other threads is cut into steps between which
anything else may happen; a run is any sequence of possible steps, and the main results are about every
run. `Possible` says that control has reached a step and never that the memory it touches is valid; that
memory is valid is `Live`, and that `Possible` implies `Live` in every reachable state is proved
(`NoUseAfterDelete`). Uninterrupted code is also given as classes whose methods change their fields
(`Handler.LogicServer`, `Consumer.CassandraConsumer`, `PushServer.Server`, `GateServer.Server`,
`Gate.UserManager`, `MySql.Store`, `Friend.FriendStore`, `ThreadPool.Pool`, `ConnectionPool.Pool`,
`Rpc.Loop`): their contracts state the new fields outright or name the same step functions, which are then
spelled out field by field, with the literals of the source (`Consumer.SentMeans`, `MySql.CallMeans`,
`Logic.JudgeMeans`, `FanOut.Addressed`); they keep the invariant of the state machine. Contexts and calls are named by address;
addresses of new objects are fresh.

What is assumed of the surroundings. Generated msgids are fresh. Every accepted message gets at most one
delivery report. Handlers of the logic server throw only `Poco::Exception`, which counts as a refusal.
`hincrby` is atomic; it may fail. Cassandra operations are applied in any order, or fail. A connection may
break at any moment, before or after the other side has acted. MySQL runs in strict mode with the keys of
`script/mysql.sql`; each INSERT is atomic and may fail. An `hincrby` or an INSERT that is reported as failed
has had no effect (a lost reply would leave a gap in the numbers, or a stored message without a box). Redis may answer anything when it is asked for a
gate, or throw. Kafka may deliver a record to a consumer any number of times. Encodings are below 2 GiB and
hold no unknown fields.

What the model shows about the code. Each point names the lemma at the input and the exact condition.

- `FriendCtrlHandle` looks for a pending request in the direction uid → friend_uid but resolves the one in
  the opposite direction, so accepting a request is refused (`Friend.AcceptanceRefused`); a request is
  resolved exactly when both users have asked each other (`Friend.ResolvedIff`); no call ever inserts a
  friend (`Friend.Conservation`).
- A push request whose Redis lookup throws is never answered: the task's exception is swallowed and nothing
  points to the context any more (`Runs.FailedLookupRun`). Exactly these requests are lost, for good
  (`Runs.LostForGood`), and when the push server is quiet a request was finished if and only if its lookup
  returned (`Delivery.QuietPushServerAnsweredAll`).
- Delivery reports are served only from `poll` inside a successful `Produce`. A client who sends the last
  message waits although it is in Kafka (`Waiting.LastSenderWaits`). With all threads idle the waiting
  calls are exactly those with an unserved report (`Waiting.IdleEntryIff`); they wait through every run in
  which Kafka accepts no further message (`Waiting.WaitsForSomebodyElse`), and any thread that polls can
  answer them (`Waiting.PollAnswers`).
- `DelWS` removes whatever socket is registered for the uid: if a user has two sockets and the older one
  closes, pushes are refused although the newer one is open (`Gate.NewerSocketIsForgotten`). A user can be
  reached exactly if the last event of any of the user's sockets is an opening (`Runs.OnlineIff`).
- The socket that a push is sent on may be closed or replaced since it was looked up. If the receiver closes
  it just then, the gate answers OK and the row is deleted from the inbox, although all that was sent went
  to a closed socket (`Unheard.SentToNobody`). The socket is still the registered one, and open, exactly if
  no socket of the receiver was opened or closed in between (`Runs.StillRegisteredIff`).
- The gate client uses a stub outside its lock. Two threads that miss the same address replace each other's
  stub, and a third one may be about to use the destroyed one (`StubRace.StubDestroyedInUse`); this happens
  exactly if a stub for the address is stored between its reading and its use (`Stubs.StubInUseIff`).
- The push server never deletes a context (server/push/push_server.cc:45-47), although the comment at
  server/push/async_gate_client.cc:72 says that it does: one more is kept with every done tag
  (`Runs.ContextsPileUp`).
- The unique key of `user_box` on sender, receiver and millisecond makes the second of two direct messages
  in one millisecond unreadable (`MySql.TwoInOneMillisecond`), in every continuation
  (`MySql.SameMillisecondIsLost`); so does a database that fails between the two INSERTs
  (`MySql.FailedBoxIsFinal`). Which deliveries make a message readable is `MySql.BoxedIff`, and that the
  second INSERT decides for good is `MySql.BoxDecides`.
- The DELETE of an inbox row names a column `user_id` (server/transfer/cassandra/main.cc:62) that the
  schema calls `uid` (script/cassandra.cql:13), and its task captures a context by reference that is
  deleted right after (server/transfer/cassandra/main.cc:170-176). The model reads both as they are meant:
  by value, keyed on uid and seq.

## Model

| member | source | states |
|---|---|---|
| Delivery.MissingMeansDelivered | server/transfer/cassandra/main.cc:149-178 | in every run of consumer, push server and gates, a ticket (uid, seq) whose insert is no longer outstanding and whose row is missing from the inbox either failed to be inserted, or some gate sent exactly its PushReq on a socket that was opened, and so registered, for that very uid |
| Delivery.ReceiverReadsIt | server/msg_gate/gate_server.cc:55-69 | the bytes sent for a ticket parse back to exactly its message, seq and uid |
| Delivery.NumbersAreConsecutive | server/transfer/cassandra/main.cc:229-245 | the seqs handed to a user, in order, are 1, 2, …, n without gap or repeat, whatever direct messages and fan-out tasks interleave |
| Delivery.RowsAreWrittenOnce | server/transfer/cassandra/main.cc:80-98 | every insert, outstanding or failed, for a row of the inbox carries the msgid the row has: no row is overwritten with another one |
| Delivery.NoUseAfterDelete | server/push/async_gate_client.cc:9-43 | whatever step control has reached in the push server, a gate or between them, the contexts it uses are allocated and not deleted |
| Delivery.ServersAreSound | server/msg_gate/gate_server.cc:37-71 | push server and gates: always exactly one context armed or arrived, at most one Finish, done exactly if finished; exactly one pointer to each context that is not retired, and none to one whose lookup threw |
| Delivery.StatusIsRelayed | server/push/async_gate_client.cc:62-74 | what the push server told its caller is NOT_FOUND if Redis had no gate, and otherwise exactly the status that the gate named by Redis gave for this call, or that of a broken connection |
| Delivery.QuietPushServerAnsweredAll | server/push/push_server.cc:45-65 | when no task, call or completion is left, a request that the push server took was finished exactly once if and only if its lookup returned, and never if it threw |
| Delivery.NullStubUnreachable | server/proto/push.grpc.pb.cc:89-93 | no thread ever reaches the branch for a null stub |
| Delivery.TransmissionIsExact | server/proto/msg.pb.cc:4025-4056 | the other end of a connection gets exactly the PushReq that was sent |
| Delivery.ReplyIsHonest | server/push/push_server.cc:41-66 | if the push server answered OK, a gate sent the push |
| Delivery.GateReplyIsHonest | server/msg_gate/gate_server.cc:55-69 | what comes back from a gate is what the gate answered, and OK only if it sent the push |
| Delivery.InvRun | server/transfer/cassandra/main.cc:149-246 | the invariant of the whole chain holds in every run |
| Runs.LostForGood | server/include/thread_pool.h:63-72 | exactly the requests whose lookup threw are lost; in every continuation they are unfinished and nothing points to them |
| Runs.FailedLookupRun | server/push/push_server.cc:52-64 | for any direct message there is a run that ends with an idle push server and its request unfinished, because the lookup threw |
| Runs.OnlineIff | server/msg_gate/user_mgr.h:21-30 | in every run a user is registered at a gate exactly if the last opening or closing of any of the user's sockets there is an opening |
| Runs.Registration | server/msg_gate/user_mgr.h:21-39 | after any run, from any state, which socket is registered for a user is decided by the last event that opened or closed one of the user's sockets |
| Runs.StillRegisteredIff | server/msg_gate/gate_server.cc:58-62 | between looking a socket up and sending on it, after any run of other steps, it is still the registered one, and then open, if and only if no socket of the receiver was opened or closed, and exactly this is recorded with what is sent |
| Unheard.SentToNobody | server/msg_gate/gate_server.cc:58-68 | for any direct message there is a run of the whole chain that ends with its row gone from the inbox and no failed insert, while everything ever sent went to a socket that was not registered and not open any more |
| EndToEnd.AcknowledgedIsInTopic | server/msg_logic/logic_server.cc:227-248 | a call that was acknowledged and is no LOGIN is a record in the topic below the msgid its client was told, from which both consumers read exactly its request and response |
| EndToEnd.AcknowledgedArrives | server/transfer/cassandra/main.cc:188-246 | once the delivery chain has handled and settled the record of an acknowledged call, every user it is for was failed by the member query or the counter, or has a ticket for exactly this message whose row is being inserted, failed, is in the inbox, or which a gate sent on a socket opened for the user |
| EndToEnd.TicketFate | server/transfer/cassandra/main.cc:80-98 | in every run every ticket is being inserted, failed, in the inbox with its own msgid, or sent |
| Runs.ContextsPileUp | server/push/push_server.cc:45-47 | after every run the push server keeps exactly as many finished contexts as it took done tags from its queue |
| Stubs.StubInUseIff | server/push/async_gate_client.cc:11-37 | the stub that a thread read is still the stored one when it is used exactly if no thread stored one for the address in between |
| StubRace.StubDestroyedInUse | server/push/async_gate_client.cc:14-37 | for any three direct messages whose receivers are at one gate there is a run in which a thread is about to use a stub that was destroyed |
| Transfer.MissingMeansAcked | server/transfer/cassandra/main.cc:61-98 | a ticket that is neither being inserted nor in the inbox was acknowledged by the push server |
| Transfer.TicketsAreUnique | server/transfer/cassandra/main.cc:229-245 | no two tickets share user and number |
| Transfer.NeverOverwritten | server/transfer/cassandra/main.cc:80-98 | two inserts for the same row carry the same msgid |
| Transfer.InvStep | server/transfer/cassandra/main.cc:188-246 | every step of the consumer keeps: consecutive numbers, every operation comes from a ticket, no ticket is forgotten, tickets are exactly what is due |
| Transfer.CallsMove | server/transfer/cassandra/main.cc:161-178 | calls keep their tickets, and only a call that came back OK acknowledges one |
| Consumer.CassandraConsumer.CassandraHandle | server/transfer/cassandra/main.cc:188-246 | the handler: nothing for a record that does not parse or has another key; for any kind but 5 and 6 the receiver's next number, insert and push; for 5 and 6 one task per listed member, or a skipped record if the query fails |
| Consumer.CassandraConsumer.Spread | server/transfer/cassandra/main.cc:229-237 | the fan-out loop enqueues exactly one task for each row of the query |
| Consumer.CassandraConsumer.SendTo | server/transfer/cassandra/main.cc:239-244 | unless the counter fails or is exhausted, it grows by one, and one insert of that row with the message's msgid and one call for that ticket are started, nothing else |
| Consumer.SentMeans | server/transfer/cassandra/main.cc:230-244 | the same for every state, field by field |
| Consumer.SentIsThreeSteps | server/transfer/cassandra/main.cc:230-236 | the uninterrupted handler ends in the state that the machine reaches by its three steps |
| Consumer.CassandraConsumer.DeliverTask | server/transfer/cassandra/main.cc:230-236 | the enqueued task takes the next number of its user, starts the insert and the push for it, or is dropped if the counter fails |
| Consumer.CassandraConsumer.AsyncRpcComplete | server/transfer/cassandra/main.cc:162-178 | the completion loop frees every context; for every user and number exactly as many DELETE tasks are enqueued as calls for it came back OK, and nothing else is |
| Consumer.CassandraConsumer.Completed | server/transfer/cassandra/main.cc:163-176 | one turn of that loop: a DELETE task exactly if the status is OK, and the context is freed |
| Push.InvStep | server/push/async_gate_client.cc:9-43 | every step of the push server, also a lookup that throws, keeps its invariant: one place per context, the right request at each program point, no null stub |
| Push.AlwaysLive | server/push/push_server.cc:41-66 | a context is never used after it was retired |
| Push.StepKeepsJobs | server/push/push_server.cc:52-64 | requests and answers from gates are never changed by the server itself, and the gate of a call is set once |
| PushServer.Server.PooledTask | server/push/push_server.cc:52-64 | Redis throws: nothing is finished and the context is lost; no gate recorded: finished with NOT_FOUND, no call; otherwise one call to that gate, unfinished; other stubs stay |
| PushServer.Server.PushTo | server/push/async_gate_client.cc:9-43 | the stub for the address is found or made, and the call is started |
| PushServer.Server.StartCall | server/push/async_gate_client.cc:39-42 | on either way the call to the address is under way, the context unfinished |
| PushServer.Server.AsyncRpcComplete | server/push/async_gate_client.cc:62-74 | every completed context is finished with exactly the status that came back for it, the others are untouched |
| PushServer.Server.Relay | server/push/async_gate_client.cc:67-73 | one turn of that loop: exactly this context moves from the client's queue to the server's |
| Gate.UserManager.AddWS | server/msg_gate/user_mgr.h:21-25 | the socket is registered for the uid and gets it; registered sockets keep belonging to their users exactly if it was not registered for somebody else |
| Gate.UserManager.DelWS | server/msg_gate/user_mgr.h:27-30 | the uid, and only it, is unregistered |
| Gate.UserManager.GetWS | server/msg_gate/user_mgr.h:32-39 | null exactly if nobody is registered, otherwise the registered socket, the user's own if all are |
| Gate.RegistrationMoves | server/msg_gate/user_mgr.h:21-30 | one step changes a user's registration exactly if it opens or closes a socket of the user: opening registers it, closing any removes whichever is registered |
| Gate.NewerSocketIsForgotten | server/msg_gate/user_mgr.h:27-30 | two sockets of one user, the older one closes: the newer one is open, the user is not registered, and a push for the user is answered NOT_FOUND |
| Gate.InvStep | server/msg_gate/gate_server.cc:37-71 | every step, also sockets opening and closing between the steps of a task, keeps: an OK answer was preceded by sending that very request on a socket opened for its receiver |
| Gate.AlwaysLive | server/msg_gate/gate_server.cc:42-70 | no task or queue turn uses a deleted context |
| Gate.StepKeepsAnswers | server/msg_gate/gate_server.cc:55-69 | requests and given answers are never changed |
| GateServer.Server.PooledTask | server/msg_gate/gate_server.cc:55-69 | the task sends the whole request on the receiver's socket and answers OK exactly if there is one, and sends nothing and answers NOT_FOUND otherwise |
| Logic.NoUseAfterDelete | server/msg_logic/logic_server.cc:145-261 | in every run, whatever step control has reached in the queue loop, in Handle or in dr_cb called from poll, the context it uses is allocated and not deleted |
| Logic.ExactlyOnePlace | server/msg_logic/logic_server.cc:287-337 | a context that is not deleted is in exactly one place (armed, queue, pool, a thread, rpc_contexts_), a deleted one nowhere; at most one key leads to it; it is finished at most once and deleted only after that |
| Logic.ServerIsSound | server/msg_logic/logic_server.cc:287-309 | always exactly one context armed or arrived and not dequeued; a queued tag is done exactly if it was finished |
| Logic.QuiescentMeansAnswered | server/msg_logic/logic_server.cc:227-261 | with no pooled task and no outstanding report, rpc_contexts_ is empty and every dequeued call was finished exactly once |
| Logic.EntryMeansUnserved | server/msg_logic/logic_server.cc:312-337 | an entry of rpc_contexts_ is for an unfinished context with that msgid, which either is still with the thread that registered it, or whose message is in Kafka with exactly one unserved report |
| Waiting.IdleEntryIff | server/msg_logic/logic_server.cc:312-325 | with all threads idle, a key is in rpc_contexts_ exactly if its report is outstanding |
| Waiting.WaitsForSomebodyElse | server/msg_logic/kafka_producer.cc:76-80 | once nobody polls, a client with an outstanding report stays in the table and unanswered through every run in which Kafka accepts no further message |
| Waiting.PollAnswers | server/msg_logic/logic_server.cc:312-337 | whenever a thread polls, an outstanding report can be served, and the steps of dr_cb alone then answer its client |
| Waiting.LastSenderWaits | server/msg_logic/kafka_producer.cc:58-81 | for any request that may be sent there is a run that ends with the message in Kafka, every thread idle and its client waiting |
| Logic.ResponsesAreHonest | server/msg_logic/logic_server.cc:195-260 | a response with timestamp and msgid was given only for a LOGIN or for a message in Kafka, under that msgid, whose report without error was served; any other is error code 0 with one of the three texts |
| Logic.JudgeMeans | server/msg_logic/logic_server.cc:156-218 | which requests are answered at once and which may be sent, by kind and the nested type |
| Logic.TextMeans | server/msg_logic/logic_server.cc:244-252 | the three error responses, literally |
| Logic.KafkaMessagesPassChecks | server/msg_logic/kafka_producer.cc:58-69 | whatever is in Kafka passes the parse and key check of both consumers, carries a timestamp, and is of a kind that may be sent |
| Logic.AcksAreReports | server/msg_logic/logic_server.cc:326-336 | the acknowledged msgids are exactly those for which a report without error was served in the run |
| Logic.InvStep | server/msg_logic/logic_server.cc:145-337 | every step of queue loop, Handle, poll and dr_cb keeps the invariant |
| Logic.AlwaysLive | server/msg_logic/logic_server.cc:145-337 | under the invariant no step uses a deleted context |
| Logic.Reported | server/msg_logic/logic_server.cc:312-325 | a report that is outstanding or being served belongs to exactly one context, which waits in the table and is with no thread |
| Handler.LogicServer.Handle | server/msg_logic/logic_server.cc:145-261 | a whole call, by the fields of the request: kind 8 with log type 0 is answered with time and msgid; kinds 3 and 6, 1 if friend control succeeds, and 2 with state type 0 go to Kafka if produce succeeds, and are answered by the first served report or wait; everything else, and a failed produce, gets error code 0 with the literal text, and the tables stay |
| Handler.LogicServer.DrCb | server/msg_logic/logic_server.cc:312-337 | the callback removes exactly its key, finishes exactly that key's context, once, with an error if the report has one |
| Handler.LogicServer.Send | server/msg_logic/logic_server.cc:227-248 | register before produce; a failed produce leaves no entry |
| Handler.LogicServer.PollAll | server/msg_logic/kafka_producer.cc:76-80 | serving reports from poll never touches the caller's context except through its own report |
| Handler.LogicServer.Generate | server/msg_logic/msgid.h:24-32 | the context has a fresh msgid and a time, and nothing else has changed |
| Handler.LogicServer.Finish | server/msg_logic/logic_server.cc:258-260 | the context is marked, finished for the first time and back in the queue, with its request and response unchanged |
| Handler.LogicServer.Fail | server/msg_logic/logic_server.cc:249-255 | the same, with error code 0 and the literal text of the reason in place of the response |
| Rpc.Loop.Turn | server/msg_logic/logic_server.cc:293-308 | one turn of the queue loop: a done tag is retired, any other is pooled after a fresh context was armed; the invariant is kept |
| Rpc.InvIsSound | server/msg_gate/gate_server.cc:42-70 | the invariant means: one context on its way in, one pointer per live context, at most one Finish, done exactly if finished |
| Rpc.InvNext | server/push/push_server.cc:41-66 | a turn of the loop keeps the invariant and finds a live tag |
| Rpc.InvFinish | server/msg_logic/logic_server.cc:246-247 | finishing a marked context that a thread has is the first time, and keeps the invariant |
| Friend.FriendStore.FriendCtrlHandle | server/msg_logic/logic_server.cc:25-127 | when a call is accepted, and row by row what it changes: a request and a deletion append exactly their entry, an answer turns every entry of the opposite direction into added or rejected, and only an acceptance sets the two notes |
| Friend.PendingMeans | server/msg_logic/logic_server.cc:49-54 | the count of pending requests is the number of log entries with that pair and action 0 |
| Friend.RewriteMeans | server/msg_logic/logic_server.cc:111-122 | the UPDATE changes exactly the entries of the pair |
| Friend.PendingStep | server/msg_logic/logic_server.cc:25-127 | what one call does to the number of pending requests of any ordered pair |
| Friend.InvRun | server/msg_logic/logic_server.cc:25-127 | in every run each ordered pair has at most one pending request, and friends have none |
| Friend.Conservation | server/msg_logic/logic_server.cc:40-116 | friends plus accepted deletions are constant, the log grows by one entry per accepted request or deletion, and no friend is ever added |
| Friend.ResolvedIff | server/msg_logic/logic_server.cc:84-124 | a pending request is resolved exactly by an answer of its receiver made while the receiver has a request pending in the other direction |
| Friend.OneSidedRequestStays | server/msg_logic/logic_server.cc:84-124 | a request stays pending through every run in which the other user does not ask as well |
| Friend.AnswerRepeatsAndBefriendsNobody | server/msg_logic/logic_server.cc:98-123 | an accepted answer is accepted again and makes nobody friends |
| Friend.AcceptanceRefused | server/msg_logic/logic_server.cc:84-96 | the plain flow, a asks b and b accepts, is refused for all users but a = b |
| MySql.Store.MySQLHandle | server/transfer/mysql/main.cc:21-88 | one call that nothing interrupts takes exactly the steps of the state machine, whose effect is CallMeans |
| MySql.CallMeans | server/transfer/mysql/main.cc:21-88 | one call field by field, in any tables: refused records, the stored payload, the box row with sender, receiver or group, timestamp and msgid, the keys that refuse it, and what a failing database leaves |
| MySql.Idempotent | server/transfer/mysql/main.cc:50-85 | for every run with interleaved calls the state equals that of the run without its failed and repeated deliveries |
| MySql.StepSettles | server/transfer/mysql/main.cc:50-62 | a delivery changes nothing exactly if the message is stored, does not fit or is not accepted, and this stays so through every step |
| MySql.BoxesAreSound | script/mysql.sql:87-119 | in every state of every run, also between the INSERTs of several calls, each box row refers to a stored message, and no msgid is in two box rows |
| MySql.InvRun | server/transfer/mysql/main.cc:50-85 | the invariant with the messages on their way to a box holds in every run |
| MySql.BoxedIff | server/transfer/mysql/main.cc:50-82 | a delivery adds the box row, with exactly the message's fields, if and only if the record parses under its key, has at most 64 characters and 65535 bytes, its msgid is new under the collation, and its kind is 5 or 6, or both users exist and there is no row with the same sender, receiver and timestamp |
| MySql.BoxDecides | server/transfer/mysql/main.cc:63-85 | the second INSERT decides for good: in every continuation the message is in its box exactly if the database worked and the row was admissible then |
| MySql.MissedForGood | server/transfer/mysql/main.cc:50-85 | a stored message that is in no box and on no way to one stays so in every run |
| MySql.SameMillisecondIsLost | script/mysql.sql:96-107 | a direct message stored when a row with its sender, receiver and time is there is stored and in no box in every state of every continuation |
| MySql.TwoInOneMillisecond | script/mysql.sql:96-107 | so is the second of any two direct messages between known users in one millisecond, from empty tables |
| MySql.FailedBoxIsFinal | server/transfer/mysql/main.cc:83-85 | any message whose second INSERT the database fails is in no box, whatever is delivered later |
| MySql.CharactersMean | script/mysql.sql:87-88 | the length of a VARCHAR counts every byte that is no UTF-8 continuation |
| FanOut.WriteRefinesRead | server/transfer/mysql/main.cc:21-88 | once both consumers have handled the same messages, with any orders, interleavings and repeats, the msgids assigned to a user equal those from user_box to the user plus those from group_box of groups joined by then, and both equal those of the records that are addressed to the user by their fields, up to exactly the failures: second INSERTs that failed on one side, member queries and counters that failed without a later success on the other; if msgids and (from, to, time) are distinct and the schema takes the rows |
| FanOut.ReadWithinWritten | server/transfer/cassandra/main.cc:188-246 | without any condition on the messages, in every state of the MySQL consumer, a reader finds no more than what was assigned or failed to be |
| FanOut.WrittenIffDue | server/transfer/cassandra/main.cc:201-245 | a msgid was assigned to a user, or failed for the user, exactly if some consumed record parses under that key and has kind 5 or 6 and the user joined its group by its timestamp, or any other kind and the user as receiver |
| FanOut.RowsAreSourced | server/transfer/mysql/main.cc:50-85 | in every state every row, stored message and message on its way comes from a handled record |
| FanOut.TablesSpelledOut | server/transfer/mysql/main.cc:50-85 | in every state each stored message is the payload of a handled record whose msgid collates to its key, and each box row has, field by field, what such a message carries |
| FanOut.ReadIsDue | server/transfer/mysql/main.cc:63-82 | what a reader finds for a user was addressed to that user |
| FanOut.CleanIsComplete | server/transfer/mysql/main.cc:50-85 | in every state every handled message that meets the schema's conditions is in its box, on its way, or was stopped by a failure, whatever the order, interleaving and repetitions |
| ThreadPool.NoLostWakeup | server/include/thread_pool.h:34-87 | in every reachable state no worker sleeps beside a queued task unless another is on its way to the queue or a notification is pending, none sleeps after stop without the notification, and with work or stop and a live worker someone is awake or notified |
| ThreadPool.FifoExactlyOnce | server/include/thread_pool.h:37-76 | started tasks followed by the queue are the accepted tasks in order; the started tasks are exactly those finished or running |
| ThreadPool.ShutdownDrains | server/include/thread_pool.h:79-87 | after stop every run is bounded by a measure; where it cannot go on all workers have returned, and all accepted tasks have run, each once, exactly if there was a worker or nothing was queued |
| ThreadPool.InvStep | server/include/thread_pool.h:37-76 | every critical section, notification and spurious wake-up keeps the invariant |
| ThreadPool.Pool.Enqueue | server/include/thread_pool.h:66-73 | refused exactly after stop, otherwise appended |
| ThreadPool.Pool.Round | server/include/thread_pool.h:40-52 | sleep, return, or take the first task, as the worker loop decides |
| ConnectionPool.Conservation | server/include/connection_pool.h:17-44 | in every reachable state each connection is idle, lent or destroyed, once; none is destroyed before shutdown; nobody sleeps beside an unclaimed connection or after shutdown |
| ConnectionPool.NothingAfterShutdown | server/include/connection_pool.h:17-44 | after shutdown no Acquire returns a connection, whatever is released |
| ConnectionPool.StepsAreMethods | server/include/connection_pool.h:17-33 | a step that takes a connection takes the first one, and a released one goes to the end |
| ConnectionPool.Pool.Acquire | server/include/connection_pool.h:17-27 | null after stop, otherwise the first connection, which leaves the pool |
| ConnectionPool.Pool.Release | server/include/connection_pool.h:29-33 | the connection goes to the end of the pool |
| ConnectionPool.Pool.Shutdown | server/include/connection_pool.h:35-44 | the first shutdown empties the pool |
| TokenVerify.Split | server/include/token_verify.h:7-36 | the loop computes the pieces between occurrences of the delimiter, with or without the empty ones |
| TokenVerify.JoinPieces | server/include/token_verify.h:17-35 | joining the pieces gives back the string |
| TokenVerify.NoPieceContains | server/include/token_verify.h:17-35 | no piece contains the delimiter |
| TokenVerify.NonEmptyMeans | server/include/token_verify.h:20-22 | without empty pieces exactly the non-empty ones are left, in order |
| TokenVerify.PiecesOfJoin | server/include/token_verify.h:38-40 | for a one-character delimiter the pieces of a join are the parts |
| TokenVerify.SplitJoined | server/include/token_verify.h:38-40 | splitting undoes joining exactly if the list is not the one with a single empty string |
| TokenVerify.MakeTokenVerifier | server/include/token_verify.h:57-80 | Verify(t) holds exactly if t is a comma-free field of the string bounded by commas or its ends |
| TokenVerify.PiecesAreFields | server/include/token_verify.h:68-80 | the pieces at commas are exactly the fields |
| Wire.VarintRoundTrip | server/proto/msg.pb.cc:757-801 | a varint is read back, whatever follows, within its limit of bytes |
| Wire.VarintSizeIsLength | server/proto/msg.pb.cc:829-850 | the computed size of a varint is its length |
| Wire.ReadEncoded | server/proto/msg.pb.cc:757-801 | an encoded field is read back with its length, whatever follows |
| Wire.ParseLoop | server/proto/msg.pb.cc:757-801 | the generated loop computes the recursive meaning of parsing |
| Wire.ParseEncoded | server/proto/msg.pb.cc:757-801 | parsing encoded fields equals applying the switch to each of them, then going on with the rest |
| Wire.ParseKeeps | server/proto/msg.pb.cc:2868-2992 | what every field keeps, a whole parse keeps |
| Utf8.ValidIff | server/proto/msg.pb.cc:3449-3474 | a byte string passes the check exactly if it is the UTF-8 encoding of a sequence of Unicode scalar values |
| Schema.VarintMeans | server/proto/msg.pb.cc:803-827 | a varint is its groups of seven bits, least significant first, continued by the top bit and without a useless last byte |
| Schema.SignedMeans | server/proto/msg.pb.cc:803-827 | signed values are written in two's complement with 64 bits, and reading keeps the low bits |
| Schema.PushBytes | server/proto/msg.proto:159-163 | the bytes of PushReq: tags, presence and order of its fields |
| Schema.MqBytes | server/proto/msg.proto:153-156 | the bytes of MqMessage |
| Schema.RespBytes | server/proto/msg.proto:139-148 | the bytes of ProtoResp; a msgid has tag 0x1A, an error text 0x22 |
| Schema.ReqBytes | server/proto/msg.proto:118-136 | the bytes of the scalar fields of ProtoReq |
| Schema.DataBytes | server/proto/msg.proto:126-135 | the bytes of each alternative of the oneof with its nested fields, and the two-byte tags of fields 16 to 18 |
| Schema.BeatBytes | server/proto/route.pb.cc:1138-1169 | the bytes of HeartBeatRequest, with the packed field as one payload |
| Schema.MergeMeans | server/proto/msg.pb.cc:3189-3208 | merged scalars: the second message wins where it is set |
| Schema.OneofMeans | server/proto/msg.pb.cc:3209-3254 | an alternative of the same case is merged field by field, another one replaces it |
| Schema.OtherMergesMean | server/proto/msg.pb.cc:4093-4111 | merged PushReq, MqMessage and ProtoResp |
| Messages.Accessors | server/transfer/cassandra/main.cc:197-216 | the accessors give what was set and the schema's defaults otherwise |
| Messages.PushRoundTrip | server/proto/msg.pb.cc:3972-4056 | Parse(Ser(m)) = m for every PushReq whose strings are UTF-8, and an error for any other |
| Messages.PushConcatenationMerges | server/proto/msg.pb.cc:4093-4111 | Parse(Ser(a) ++ Ser(b)) = Merge(a, b), through nested messages, oneof switches and defaults |
| Messages.PushParses | server/proto/msg.pb.cc:3972-4023 | parsing into a message merges, and the parser goes on with what follows |
| Messages.PushSize | server/proto/msg.pb.cc:4058-4084 | ByteSizeLong equals the length of the serialization, through every nested length prefix |
| Messages.WritePush | server/proto/msg.pb.cc:4025-4056 | the serializer with its cached sizes writes the encoding |
| Messages.WriteMq | server/proto/msg.pb.cc:3783-3809 | the same for MqMessage, appended to the target |
| Messages.MqRoundTrip | server/proto/msg.pb.cc:3738-3809 | Parse(Ser(m)) = m for every MqMessage whose strings are UTF-8, and an error for any other |
| Messages.MqParses | server/proto/msg.pb.cc:3738-3859 | parsing a serialized MqMessage into another merges them |
| Messages.MqConcatenationMerges | server/proto/msg.pb.cc:3843-3859 | Parse(Ser(a) ++ Ser(b)) = Merge(a, b) for MqMessage |
| Messages.ReqConcatenationMerges | server/proto/msg.pb.cc:3189-3254 | the same for ProtoReq |
| Messages.RespConcatenationMerges | server/proto/msg.pb.cc:3588-3621 | the same for ProtoResp |
| Messages.MqSize | server/proto/msg.pb.cc:3811-3834 | ByteSizeLong of MqMessage |
| Messages.ReqParses | server/proto/msg.pb.cc:2868-3255 | the same for ProtoReq, with its oneof of eight messages and the two-byte tags of fields 16 to 18 |
| Messages.ReqSize | server/proto/msg.pb.cc:3089-3180 | ByteSizeLong of ProtoReq |
| Messages.DataFields | server/proto/msg.pb.cc:3211-3253 | a oneof member of the same case is merged, one of another case replaces it |
| Messages.RespParses | server/proto/msg.pb.cc:3425-3621 | the same for ProtoResp with its two oneofs |
| Messages.RespSize | server/proto/msg.pb.cc:3536-3579 | ByteSizeLong of ProtoResp |
| Messages.BodyParses | server/proto/msg.pb.cc:757-874 | the same for FriendCtrl and the three classes of its shape |
| Messages.BodySize | server/proto/msg.pb.cc:829-850 | their ByteSizeLong |
| Messages.StateParses | server/proto/msg.pb.cc:972-1085 | the same for FriendState |
| Messages.NotifyParses | server/proto/msg.pb.cc:1414-1510 | the same for SystemNotify |
| Messages.PullParses | server/proto/msg.pb.cc:2060-2217 | the same for Pull |
| Messages.LogParses | server/proto/msg.pb.cc:2341-2488 | the same for Log |
| Messages.StateSize | server/proto/msg.pb.cc:1043-1062 | ByteSizeLong of FriendState |
| Messages.NotifySize | server/proto/msg.pb.cc:1472-1488 | ByteSizeLong of SystemNotify |
| Messages.PullSize | server/proto/msg.pb.cc:2159-2188 | ByteSizeLong of Pull |
| Messages.LogSize | server/proto/msg.pb.cc:2433-2461 | ByteSizeLong of Log |
| Messages.DataSize | server/proto/msg.pb.cc:3089-3180 | the size of the oneof, with one or two tag bytes and the length prefix of the nested message |
| Messages.ParsedIsText | server/proto/msg.pb.cc:3738-3781 | every string in a parsed message is UTF-8, so it can be serialized and parsed again |
| Route.BeatRoundTrip | server/proto/route.pb.cc:1088-1169 | Parse(Ser(m)) = m for HeartBeatRequest with UTF-8 report |
| Route.BeatParses | server/proto/route.pb.cc:1088-1136 | parsing a serialized heartbeat into another merges them, and the parser goes on with what follows |
| Route.BeatConcatenationMerges | server/proto/route.pb.cc:1210-1223 | the concatenation of two encodings parses to their merge: the later report wins, the uids accumulate |
| Route.UnpackedIsAccepted | server/proto/route.pb.cc:1088-1136 | the bytes of one record per element are parsed like the packed field, and the parser goes on with what follows |
| Route.BeatSize | server/proto/route.pb.cc:1171-1201 | ByteSizeLong equals the length of the encoding |
| Route.PackedParser | server/proto/route.pb.cc:1104-1114 | the packed parser appends exactly the encoded integers |
| Route.PackedRoundTrip | server/proto/route.pb.cc:1154-1161 | a packed field is read back |
| Route.PackedSize | server/proto/route.pb.cc:1179-1191 | the size loop adds up to the length of the packed field |
| Route.LocationsConcatenationMerges | server/proto/route.pb.cc:1696-1801 | the locations of both encodings, in order; an error exactly if one is not UTF-8 |
| Route.LocationsSize | server/proto/route.pb.cc:1764-1781 | ByteSizeLong of GetMsgServerResponse |

## Left out

- The login, verification and route services, the Go client pool and `server/transfer/mongodb`: glue over libraries, or not implemented.
- `GroupCtrlHandle` and the pull branches: they refuse every request, and so does the model; the heartbeat handler and server dispatch are not modelled.
- `ws_app.cc`: only that opening a socket calls AddWS with its own uid and closing it calls DelWS, in the order of these events; where they run as pooled tasks, the "last event" of `Runs.OnlineIff` is the handler that ran last. Presence in Redis is any answer to a lookup.
- What happens when a closed socket or a destroyed stub is used: sockets and stubs are names here. When a socket is not registered any more, or a stub not stored, is stated (`Runs.StillRegisteredIff`, `Stubs.StubInUseIff`).
- `GPR_ASSERT(ok)`: a completion with `ok` false, as for a client that has gone, aborts the process; completions always succeed here, also when a connection breaks.
- The Cassandra table `messages` (`AsyncWriteMessages`), the expiry of rows, and a msgid with a NUL byte, which the driver's C string would cut.
- Exceptions of Redis or MySQL in the middle of `FriendCtrlHandle` and the length limit of `friend.note`: a call is one atomic transaction on the tables.
- Exceptions other than those named above: any exception in a pooled task ends that task only.
- Progress: apart from the shutdown of the thread pool, results say what holds in every state of a run, not that a run goes on.
- Unknown protobuf fields (the parsers skip them; here an input with one is neither accepted nor refused, and the consumers' steps exclude it), groups, and payloads within 16 bytes of 2 GiB or more; arenas, reflection, descriptors and swaps of the generated classes.
- Aliasing of messages: `MergeImpl` and the parsers are functions from the old message to the new one, and only the field loop, the serializers and the size loops are programs.
- Handler.LogicServer.Handle: describes a call that no other thread interrupts; interleavings are covered by the state machine in Logic.
- Consumer.CassandraConsumer.CassandraHandle: describes a call that no other thread interrupts; interleavings are covered by the state machine in Transfer.
