# NeuroPipe: verified model

NeuroPipe is a publish/subscribe message broker over TCP with a line protocol, a producer, a consumer and a
logging library. This project models the broker and both ends of its protocol in Dafny and proves what each
client receives, over whole runs, as a function of what all clients sent.

How the pieces fit:

- `Text.dfy`, `Protocol.dfy`: streams as lines; the commands the broker accepts, its replies and
  notifications, and how the consumer reads them.
- `SessionModel.dfy`, `TopicModel.dfy`, `BrokerModel.dfy`: a connection, the topic manager and the whole broker
  as values. One event is one handler of the single `io_context` thread, or one thing the outside world does.
  `Run` is defined on every sequence of events; an event that cannot happen in a state is passed over. Read and
  write errors may strike at any time, end of file only when no complete line waits in the buffer.
- `TraceSpec.dfy`: an independent account of what a client is owed, read off the trace of processed lines and
  handled disconnects alone. It knows no queue, buffer or subscription map.
- `BrokerInvariant.dfy`, `BrokerTheorems.dfy`, `TopicTheorems.dfy`: every handler keeps the state in step with
  that account, and the promises that follow for every run and every continuation of a run, for each client and
  for the topics.
- `Reference.dfy`: the broker as an account of what each client has sent and received, a function of the events
  alone, and the proof that every run of the broker is the run of the account.
- `Server.dfy`: the classes `Session`, `TopicManager` and `BrokerServer`, updated in place. Each handler is
  proved to take the model's step, and `Serve` drives new objects through any sequence of events to the state
  of the run.
- `Writes.dfy`: the clients' blocking writes, and what of a line gets out.
- `Clients.dfy`, `Logger.dfy`: the consumer's subscriptions and listening loop, the producer's prompt, and the
  logger's escaping, framing and connection.
- `LogPipeline.dfy`: from a logger's calls through the broker to a consumer.
- `BlockingQueue.dfy`: `ThreadSafeQueue` under arbitrary interleaving of its callers.

Parameters stand for the outside: the bytes that arrive and when, how many bytes of a write have left, which
operations fail, the order of events, the handle of a new connection, time stamps, the outcome of `socket`,
`connect` and `send`, and which sleeper a notification wakes. A started write keeps its own copy of its content;
that the source's buffer refers to a local string which is gone when the call returns
(`src/asio_server.cpp:64`, `src/asio_server.cpp:75`) is outside the model, and every claim about bytes written
assumes the intended content.

Where the code and its comments differ the model follows the code. The comment at `src/asio_server.cpp:103` asks
for 11 characters; the code accepts `PUBLISH:t:`, with 10 characters and an empty payload. `get_topic_count` reads
as the number of topics but also counts topics that a disconnect has emptied (`LeftoverTopic`,
`TopicCountCanExceed`); `TopicCountExact` says, from the trace, exactly when the two agree. SUBSCRIBE acknowledges
topics with a colon, on which nothing can ever be published (`ColonTopicsAreSilent`). The logger takes a short count
from `send` for success (`lib/debug_logger.cpp:127`); `LinesOfWrites` says what it costs: every line arrives as it was
written if and only if no write fell short. A subscription of the consumer drops what its reads brought beyond the reply
(`src/consumer.cpp:38-43`): messages that were already on their way are never shown, and a message can lose its
beginning. `NothingDropped` says exactly when neither happens, and `Consume` where the items shown then begin.

## Model

| member | source | states |
|---|---|---|
| `Text.LinesOfTerminated` | src/asio_server.cpp:46-50 | reading lines with `getline` undoes writing them with a newline each, whatever unterminated bytes follow |
| `Text.LinesMonotone` | src/consumer.cpp:59-67 | more bytes of a stream only ever add lines at the end, so what was read from a part of it stands |
| `Text.LinesAppend` | src/consumer.cpp:38-67 | a stream cut in two anywhere: the lines of the whole are those of the first part and those of the second, where only the first line after the cut lacks its beginning |
| `Writes.LinesOfWrites` | src/producer.cpp:30-36 | lines handed to one write each are read back as written if and only if no write fell short |
| `Writes.LeftPrefix` | lib/debug_logger.cpp:127-132 | if only the last write may fall short, the bytes that leave are the beginning of those handed over, and all of them if none does |
| `Protocol.PublishAcceptance` | src/asio_server.cpp:102-125 | PUBLISH is accepted, with this topic and payload, if and only if the line is `PUBLISH:topic:payload` with a non-empty topic free of colons; the length check turns away nothing else and every substring is in range |
| `Protocol.SubscribeAcceptance` | src/asio_server.cpp:126-161 | SUBSCRIBE and UNSUBSCRIBE are accepted if and only if a non-empty topic follows, colons allowed |
| `Protocol.Rejections` | src/asio_server.cpp:96-168 | exactly which lines are turned away as empty or malformed and which are a PING; the empty-topic error is never the reason |
| `Protocol.RoundTrip` | src/consumer.cpp:75-79 | for every topic a PUBLISH can name and every payload: the line `PUBLISH:topic:payload` parses to the pair, the notification is `MESSAGE:topic:payload` for the consumer, and it shows the same pair |
| `Protocol.RepliesAreNotNotifications` | src/consumer.cpp:75-91 | the consumer never takes a reply for a notification, and shows it as a status line or PONG |
| `Protocol.ShowText` | src/consumer.cpp:75-90 | what the consumer shows for every line, by its text alone |
| `Protocol.LinesStayLines` | src/asio_server.cpp:142 | everything sent because of a newline-free line is itself one line: payloads and topics cannot split it |
| `SessionModel.DeliverKeeps` | src/asio_server.cpp:26-37 | `deliver` appends to the history, keeps the write queue machine, and starts no write after a failure |
| `SessionModel.CompleteKeeps` | src/asio_server.cpp:76-82 | a successful write pops the one message it carried, never from an empty queue, and keeps the machine |
| `SessionModel.FailKeeps` | src/asio_server.cpp:83-86 | a failed write leaves its message at the front and no write outstanding |
| `SessionModel.SendKeeps` | src/asio_server.cpp:73-76 | bytes leaving for the socket continue the front message exactly where it stopped |
| `SessionModel.TakeLineKeeps` | src/asio_server.cpp:46-50 | taking a line keeps: bytes received = processed lines with newlines, then the buffer |
| `TopicModel.StoreKeeps` | src/asio_server.cpp:200-211 | `publish` keeps, per topic, consumed and then queued = published in order, and the numbering |
| `TopicModel.ConsumeKeeps` | src/asio_server.cpp:246-255 | `consume_message` keeps the same conservation, takes the oldest message of the topic and leaves every other topic alone |
| `TopicModel.Sequencing` | src/asio_server.cpp:207-211 | up to 2^64 publishes: numbers strictly increase along a topic, and consumed and queued messages together carry each of 0..n-1 exactly once |
| `TopicModel.DistinctUntilWrap` | src/asio_server.hpp:79 | all numbers are distinct if and only if at most 2^64 messages were published |
| `TraceSpec.ExpectedShows` | src/consumer.cpp:69-90 | the lines owed to a client are newline-free and show, one for one, as the items the trace owes it |
| `TraceSpec.RequestReply` | src/asio_server.cpp:90-168 | dropping notifications leaves one reply for each line of the client, in order, each depending on its line alone |
| `TraceSpec.ReplyText` | src/asio_server.cpp:96-168 | what the broker answers to every line, by the text of the line alone: each of the eight replies and the lines that get it |
| `TraceSpec.FirstReply` | src/asio_server.cpp:90-230 | the first line a session is ever sent is the reply to its own first line; before it has sent one it is owed nothing |
| `TraceSpec.SubscribedMeansAcknowledged` | src/asio_server.cpp:141-160 | a subscribed client's last acknowledgement for the topic is OK:SUBSCRIBED |
| `TraceSpec.NotificationsFollowAcks` | src/asio_server.cpp:200-230 | every notification for a topic comes after OK:SUBSCRIBED for it with no OK:UNSUBSCRIBED in between |
| `BrokerInvariant.ProcessDelivers` | src/asio_server.cpp:90-168 | processing a command is, for each session, at most one notification and then the issuer's reply, and nothing else |
| `BrokerInvariant.EffectOnSubs` | src/asio_server.cpp:174-190 | the map after a command is the relation read off the trace extended by its line |
| `BrokerInvariant.AcceptKeeps` | src/asio_server.cpp:313-331 | accepting a connection keeps the broker invariant |
| `BrokerInvariant.DisconnectKeeps` | src/asio_server.cpp:345-356 | handling a disconnect keeps the broker invariant, whichever of read and write failed |
| `BrokerInvariant.ReadLineKeeps` | src/asio_server.cpp:45-53 | processing one line keeps the broker invariant |
| `BrokerInvariant.RunInv` | src/broker.cpp:51-53 | the broker invariant holds after every sequence of handlers |
| `BrokerTheorems.Delivery` | src/asio_server.cpp:61-88 | in every run the lines of a client's wire bytes, read as the consumer does, are an in-order prefix of exactly the messages published while it was subscribed among its replies, and all of them when nothing is outstanding and nothing failed |
| `BrokerTheorems.DeliveryAfter` | src/consumer.cpp:55-99 | in every run a reader that starts after any part of a client's stream, having received any more of it, shows a gapless stretch of the owed items beginning with the line after the missed ones; only the first of them can be damaged, and then shows the rest of its line; the stretch goes to the end once all was received and the broker is idle |
| `BrokerTheorems.Reception` | src/asio_server.cpp:39-59 | in every run the lines processed for a client are the first complete lines of the bytes that arrived from it, however they were cut, and all of them when none waits in the buffer |
| `BrokerTheorems.AllReadAtEndOfFile` | src/asio_server.cpp:41-57 | once a client's stream has come to its end, then and in every continuation exactly all the complete lines that arrived from it have been processed |
| `BrokerTheorems.WriteQueue` | src/asio_server.cpp:26-88 | in every run: at most one write, carrying the queue front; idle and unfailed means empty; completed and queued = delivered; the wire is a prefix of what was delivered |
| `BrokerTheorems.InputIsArrived` | src/asio_server.cpp:41-52 | in every run what a session has received is what the arrivals of its client brought while its read loop was live, in order, nothing lost or repeated |
| `BrokerTheorems.Accepted` | src/asio_server.cpp:313-331 | a new connection is taken in every reachable state, with a live read loop and nothing else changed |
| `BrokerTheorems.RequestsAnswered` | src/asio_server.cpp:39-59 | in every run a client's history is what the trace owes it, and its non-notifications answer its lines one for one |
| `BrokerTheorems.NotificationsAreSubscribed` | src/asio_server.cpp:126-230 | the subscription trace property on the delivered history of any run |
| `BrokerTheorems.OneLine` | src/asio_server.cpp:120-121 | one line adds to each session's history at most one notification, and to the issuer's its reply after it, in any reachable state |
| `BrokerTheorems.FailureIsFinal` | src/asio_server.cpp:83-86 | after a failed write, in every continuation of the run no write starts and no byte leaves for that client |
| `BrokerTheorems.DeadReader` | src/asio_server.cpp:54-57 | after a failed read or end of file, in every continuation: history frozen, queue only shrinks from the front, in neither the sessions nor any subscription set |
| `BrokerTheorems.Drained` | src/asio_server.cpp:76-82 | from any reachable state an unfailed client's writes can complete; this changes only that client, which has then received everything owed to it |
| `Reference.RunsAgree` | src/asio_server.cpp:26-88 | refinement of the whole broker: in every run the clients, the lines processed and their order, and for each client whether it is heard, what arrived, how many lines were processed, whether a write failed and exactly which bytes have left are those of an account that reads only the events and knows no buffer, queue, map or outstanding operation; every event takes effect in the one exactly when it does in the other |
| `Reference.LineStep` | src/asio_server.cpp:45-53 | a line is processed exactly when the account has one left, it is the next line of the stream, and every client stays as accounted |
| `Reference.DoneStep` | src/asio_server.cpp:76-82 | a write completes exactly when all of the next owed line has left |
| `TopicTheorems.QueuesConserved` | src/asio_server.cpp:200-255 | in every run, per topic, consumed and then queued is what the processed PUBLISH lines put there |
| `TopicTheorems.ConsumedInOrder` | src/asio_server.cpp:246-255 | in every run each consumption takes one message if one is left, and those consumed on a topic are the first published on it |
| `TopicTheorems.SequencesOnce` | src/asio_server.cpp:207-211 | in every run of at most 2^64 publishes each number occurs exactly once among consumed and queued messages |
| `TopicTheorems.TopicAlphabet` | src/asio_server.cpp:109-120 | in every run each topic with a queue is non-empty and free of colons and newlines |
| `TopicTheorems.ColonTopicsAreSilent` | src/asio_server.cpp:133-142 | a client subscribed only to topics with a colon is never sent a notification |
| `TopicTheorems.SubscriptionsRefine` | src/asio_server.cpp:174-198 | in every run the set under a topic is exactly the clients subscribed by the trace, all with a live read loop |
| `TopicTheorems.EntriesListed` | src/asio_server.cpp:174-198 | in every run the map has an entry for a topic exactly when the trace lists it: SUBSCRIBE lists, an UNSUBSCRIBE that leaves nobody subscribed removes, a disconnect changes nothing |
| `TopicTheorems.ActiveSessions` | src/asio_server.cpp:317-321 | in every run `sessions_` is the accepted clients with no handled disconnect; they read, and no write of theirs has failed |
| `TopicTheorems.TopicCountExact` | src/asio_server.cpp:257-260 | in every run the topic count is at least the number of topics with subscribers, and equals it if and only if every topic the trace still lists has a subscriber by the trace; so it always does in runs without a disconnect |
| `TopicTheorems.LeftoverTopic` | src/asio_server.cpp:192-198 | the sole subscriber's lost connection leaves its topic counted in the map |
| `TopicTheorems.TopicCountCanExceed` | src/asio_server.cpp:192-198 | a concrete run in which the two counts differ |
| `TopicTheorems.FanOutInAnyOrder` | src/asio_server.cpp:213-225 | delivering to the subscribers in any order, each once, ends in the same state, other sessions untouched |
| `Server.Session.Deliver` | src/asio_server.cpp:26-37 | the object takes the model's step: push, start a write if the queue was empty |
| `Server.Session.OnLine` | src/asio_server.cpp:45-53 | the read handler of the objects is the model's step for a line |
| `Server.Session.OnReadError` | src/asio_server.cpp:54-57 | the failing read handler is the model's step |
| `Server.Session.OnWritten` | src/asio_server.cpp:77-82 | the write handler pops and starts the next write |
| `Server.Session.OnWriteError` | src/asio_server.cpp:83-86 | the failing write handler is the model's step; the queue keeps its front |
| `Server.Session.ProcessMessage` | src/asio_server.cpp:90-168 | the command's effect on all objects, then one reply |
| `Server.TopicManager.Subscribe` | src/asio_server.cpp:174-178 | adds the session to the topic's set and changes nothing else |
| `Server.TopicManager.Unsubscribe` | src/asio_server.cpp:180-190 | removes the session and drops an emptied topic |
| `Server.TopicManager.UnsubscribeAll` | src/asio_server.cpp:192-198 | the loop removes the session from every set and keeps emptied topics |
| `Server.TopicManager.Publish` | src/asio_server.cpp:200-230 | stores one numbered message and delivers one notification to each subscriber, in the set's own order |
| `Server.TopicManager.ConsumeMessage` | src/asio_server.cpp:246-255 | hands out the oldest message of the topic, or none |
| `Server.TopicManager.GetTopicCount` | src/asio_server.cpp:257-260 | the size of the subscription map |
| `Server.TopicManager.GetSubscriberCount` | src/asio_server.cpp:262-266 | the exact size of the topic's set of clients |
| `Server.BrokerServer.GetActiveSessions` | src/asio_server.cpp:358-361 | the exact number of sessions |
| `Server.BrokerServer.OnSessionDisconnect` | src/asio_server.cpp:345-356 | the objects take the model's disconnect step |
| `Server.BrokerServer.OnAccept` | src/asio_server.cpp:313-331 | the objects take the model's accept step |
| `Server.Serve` | src/broker.cpp:51-53 | the objects driven by any sequence of events end in the state of the run, so every theorem about runs holds of them |
| `Clients.Listen` | src/consumer.cpp:55-99 | for any chunking and any moment of stopping, the items shown are those of the stream's complete lines, in order |
| `Clients.SubscribeTopic` | src/consumer.cpp:32-53 | a subscription writes its line and, if that succeeds, reads on until what it has read holds a newline and no further; its reply is the first line read, and whatever else those reads brought is gone |
| `Clients.StopsOnce` | src/consumer.cpp:38-39 | reading until a newline stops at one place only |
| `Clients.SubscribeAll` | src/consumer.cpp:210-213 | one subscription for each topic in turn, each beginning where the one before stopped |
| `Clients.NothingDropped` | src/consumer.cpp:38-43 | a subscription drops no line and cuts none if and only if some number of reads brings exactly the line of its reply |
| `Clients.Consume` | src/consumer.cpp:209-216 | the consumer program, which subscribes and then listens: it shows the lines of what its subscriptions have left, a gapless stretch of the items owed to it with at most the first one damaged, and to the end once it has received everything and the broker is idle; the reply shown for its first subscription is the reply to its first line |
| `Clients.TrimLine` | src/producer.cpp:136-137 | both `erase` calls, `npos` included, leave the text between the outer blanks |
| `Clients.TrimUnique` | src/producer.cpp:136-137 | there is only one text a line can be trimmed to, so the contract of `TrimLine` fixes its result |
| `Clients.PromptText` | src/producer.cpp:139-167 | which lines the prompt sends, which end it, which show the help and which are skipped, by their text |
| `Clients.SendsWhatWasTyped` | src/producer.cpp:154-167 | whatever the prompt sends is the trimmed line; the broker knows the command and turns a PUBLISH down only for its empty topic |
| `Clients.Prompt` | src/producer.cpp:128-170 | the loop hands over one line for each command typed before quitting, whatever became of the writes before; the broker reads the commands as typed if and only if no write failed |
| `Logger.EscapeMessage` | lib/debug_logger.cpp:81-102 | the loop computes the escape, and unescaping gives the message back |
| `Logger.UnescapeEscape` | lib/debug_logger.cpp:81-102 | escaping can be undone on every string |
| `Logger.EscapeText` | lib/debug_logger.cpp:81-102 | escaping goes character by character: newline, carriage return, colon and backslash get their sequences, every other character stays |
| `Logger.EscapeShape` | lib/debug_logger.cpp:81-102 | no newline or carriage return, a backslash before every colon, between n and 2n characters |
| `Logger.LevelLines` | lib/debug_logger.cpp:104-155 | the lines each level sends, letter by letter: the topics, their order, the brackets, the level's name, the service and the escaped message |
| `Logger.CallIsItsCommands` | lib/debug_logger.cpp:135-155 | a level call with any message is exactly one PUBLISH command for each of its topics |
| `Logger.StreamIsItsCommands` | lib/debug_logger.cpp:104-155 | any sequence of calls is exactly the sequence of their commands |
| `Logger.PayloadDetermines` | lib/debug_logger.cpp:104-111 | for one service and stamps of equal length the payload determines stamp, level and every byte of the message |
| `Logger.ReconnectKeeps` | lib/debug_logger.cpp:22-70 | connected implies a descriptor, the open descriptors are exactly the one held, connected if and only if the connection was made, and each socket is counted |
| `Logger.After` | lib/debug_logger.cpp:22-133 | after any interleaving of locked sections of any threads the descriptor invariant holds, and nothing is closed twice |
| `Logger.FrameUnderInterference` | lib/debug_logger.cpp:113-133 | whatever other threads do while the mutex is free, a call tries to connect only if it finds the logger unconnected, and hands its frame over at most once, in one piece, on an open descriptor; if the connection was lost after its second test it hands over nothing and leaves the logger unconnected |
| `Logger.FrameOnceOrNotAtAll` | lib/debug_logger.cpp:113-133 | undisturbed, a call hands its frame over and ends connected if and only if there is or can be made a connection that takes it; otherwise nothing is handed over and it ends unconnected |
| `Logger.SentAllPasses` | lib/debug_logger.cpp:113-155 | a run of sends hands over whole frames in order, leaving out those that found no connection or failed |
| `Logger.AllPass` | lib/debug_logger.cpp:113-155 | all frames are handed over if and only if the first send finds a connection and none fails |
| `Logger.OneConnection` | lib/debug_logger.cpp:113-155 | then they all go out on one connection, the one there was or the one the first send made, and nothing else changes |
| `Logger.LoggedIsStream` | lib/debug_logger.cpp:104-155 | calls made one after the other, with any answers, send the frames of their stream one after the other |
| `Logger.StretchLeaves` | lib/debug_logger.cpp:113-155 | a stretch of successful undisturbed sends of which only the last may fall short puts on one connection the beginning of its frames, all of them if it does not |
| `Logger.DebugLogger.ConnectToBroker` | lib/debug_logger.cpp:22-70 | the object takes the model's step on each outcome |
| `Logger.DebugLogger.Reconnect` | lib/debug_logger.cpp:72-75 | takes the model's step, and reports whether the logger is connected when `connected_` is read, after whatever other threads have done since the mutex was freed; undisturbed, whether the connection was made |
| `Logger.DebugLogger.Transmit` | lib/debug_logger.cpp:124-133 | hands the bytes to an open descriptor, or marks the logger unconnected |
| `Logger.DebugLogger.SendMessage` | lib/debug_logger.cpp:113-133 | reconnects if needed, tests again and sends one frame, with other threads coming between its sections in any way |
| `Logger.DebugLogger.Log` | lib/debug_logger.cpp:135-155 | from any state, and with one outcome for each send, a call sends its escaped line to each topic of its level in turn |
| `Logger.DebugLogger.Destroy` | lib/debug_logger.cpp:16-20 | nothing is left open |
| `LogPipeline.LoggerLogs` | lib/debug_logger.cpp:113-155 | a logger whose calls send a stretch of frames on one connection is such a client: whatever has arrived of the bytes that left is the beginning of that part of its calls' lines |
| `LogPipeline.LoggedCommands` | src/asio_server.cpp:102-121 | in every run, however far the part of a logger's stream that went out on a connection has arrived and wherever it is cut, the broker has processed a prefix of that part's commands; all of them once it has all been read |
| `LogPipeline.FollowerIsOwed` | src/asio_server.cpp:200-230 | a client that joins a topic and stays is owed, from another client, exactly the payloads that one published on it since, in order |
| `LogPipeline.LogsReachConsumer` | lib/debug_logger.cpp:135-155 | end to end, in every run: what a consumer that joined a logger's topic shows from one of the logger's connections, after whatever `subscribe` has taken from its stream, is a gapless run of the payloads that went out there, placed after those published before it joined and those it missed, and reaches the last once everything was read and written |
| `LogPipeline.PayloadsOfAll` | lib/debug_logger.cpp:135-155 | the payloads that went out on a connection are a contiguous part of the payloads of all the calls on the topic |
| `LogPipeline.CallsRecovered` | lib/debug_logger.cpp:104-111 | those payloads give the calls back: level, time and every byte of every message |
| `BlockingQueue.NoLostWakeUp` | src/utils.hpp:21-66 | under any interleaving, spurious wake-ups included: a sleeper implies queue length at most the number of woken calls; values leave in the order they came |
| `BlockingQueue.SomeoneCanGoOn` | src/utils.hpp:39-46 | a sleeper beside a non-empty queue means a woken call that can go on and will return |
| `BlockingQueue.MeasureDrops` | src/utils.hpp:21-46 | every step but a spurious wake-up decreases the measure |
| `BlockingQueue.Halts` | src/utils.hpp:21-46 | a run has at most two steps per call and one more per spurious wake-up |
| `BlockingQueue.EachValueOnce` | src/utils.hpp:21-66 | in every run each removed value was cleared or returned by exactly one call, each value returned was removed, and a wait has a value exactly when it has returned |
| `BlockingQueue.Linearizable` | src/utils.hpp:21-66 | under any interleaving the calls that have returned, in the order in which they returned, are what a queue used by one thread allows, with these results and these pushed values; each returned once; and what they leave is what the queue holds |
| `BlockingQueue.StepEffect` | src/utils.hpp:21-66 | a step in which a call returns is that one operation of the sequential queue; any other step leaves the queue as it is |
| `BlockingQueue.HaltIsCut` | src/utils.hpp:21-46 | where a run has halted with a call unfinished, every unfinished thread stands at a wait and the queue is empty |
| `BlockingQueue.ReturnsExactly` | src/utils.hpp:21-46 | for pushes and waits: all calls return however the threads are scheduled if and only if, wherever every unfinished thread stands at a wait, the calls behind them have pushed more than they have taken |
| `BlockingQueue.EverybodyReturns` | src/utils.hpp:21-46 | a corollary: enough pushes, and none after a wait in its thread, suffice |
| `BlockingQueue.WaitBeforePushCanHang` | src/utils.hpp:39-46 | as many pushes as waits are not enough: a thread that waits before it pushes can be held up for good |
| `BlockingQueue.AnotherThreadCanHelp` | src/utils.hpp:21-46 | nor is the order needed: with a value to spare in another thread the same waiting thread always returns |
| `BlockingQueue.ThreadSafeQueue.PushValue` | src/utils.hpp:21-25 | puts the value at the end and wakes one sleeper if there is one |
| `BlockingQueue.ThreadSafeQueue.TryPopValue` | src/utils.hpp:28-36 | pops the front or reports an empty queue |
| `BlockingQueue.ThreadSafeQueue.WaitAndPop` | src/utils.hpp:39-46 | one pass of the wait loop: return the front or sleep |
| `BlockingQueue.ThreadSafeQueue.ClearAll` | src/utils.hpp:61-65 | empties the queue and wakes nobody |

## Left out

- Sockets, resolver, acceptor, signals, threads and the statistics loop of `src/broker.cpp`: their outcomes are events.
- `BrokerServer::start` and `stop`: `running_` is a plain flag touched by two threads; runs here have no stop.
- Calls of `BrokerServer::publish` or of the topic manager from other threads, and `store_message` with a caller's own number: nothing in the broker makes them.
- A handler is one step because one thread runs the `io_context` and no completion handler runs inside the call that starts it; finer interleavings of `deliver` and the write handler are not modelled.
- The producer's reading of responses: each uses a fresh buffer and drops surplus bytes, so nothing is claimed of the responses it prints. Of the replies the consumer's `subscribe` prints only the first is placed.
- Logger metrics and `publish`, which do not escape: no framing claim is made for them.
- Server.Session.OnWritten: requires a non-empty queue, as `std::queue::pop` does; `HandleTransfer` shows that the handler never runs without one.
- Server.Session.OnLine: requires, like the other handlers, a state in which Asio would call it; `Serve` meets these requirements for every sequence of events.
- Message time stamps, log output and number formatting.
- The older broker and clients in `src/server.cpp` and the `_legacy` files.
- `empty` and `size` of `ThreadSafeQueue`: they change nothing.
