/** The whole broker as a state machine.  One event is one handler of the single `io_context` thread, or
    one thing the outside world does: a client connects, bytes arrive or leave, a queue is consumed. */
module BrokerModel {
  import opened Text
  import opened Protocol
  import opened SessionModel
  import opened TopicModel

  /** What the handlers did, in order: a line was processed for a client, or a client's disconnect was
      handled. */
  datatype Input = Line(client: nat, text: string) | Gone(client: nat)

  datatype BrokerState = BrokerState(
    clients: map<nat, SessionState>, // every session ever created
    sessions: set<nat>,              // `sessions_`
    topics: TopicState,              // `topic_manager_`
    trace: seq<Input>)               // history

  const STARTED := BrokerState(map[], {}, NO_TOPICS, [])

  datatype Event =
    | Accept(client: nat)
    | Arrive(client: nat, chunk: string)
    | ReadLine(client: nat)
    | EndOfFile(client: nat)
    | ReadFail(client: nat)
    | Leave(client: nat, write: nat, count: nat)
    | WriteDone(client: nat, write: nat)
    | WriteFail(client: nat, write: nat)
    | Consume(topic: string)

  function Deliver(st: BrokerState, s: nat, message: string): BrokerState
    requires s in st.clients
  {
    st.(clients := st.clients[s := st.clients[s].Deliver(message)])
  }

  /** One delivery to each session of the set; every other session is left alone. */
  function Broadcast(clients: map<nat, SessionState>, to: set<nat>, message: string): map<nat, SessionState> {
    map c | c in clients :: if c in to then clients[c].Deliver(message) else clients[c]
  }

  /** `TopicManager::publish`: store, take the subscribers, deliver to each. */
  function PublishTo(st: BrokerState, t: string, p: string): BrokerState {
    st.(topics := st.topics.Store(t, p),
        clients := Broadcast(st.clients, st.topics.Subscribers(t), NotificationLine(t, p) + "\n"))
  }

  function Effect(st: BrokerState, s: nat, cmd: Command): BrokerState {
    match cmd
    case Publish(t, p) => PublishTo(st, t, p)
    case Subscribe(t) => st.(topics := st.topics.Subscribe(t, s))
    case Unsubscribe(t) => st.(topics := st.topics.Unsubscribe(t, s))
    case Ping => st
    case Rejected(_) => st
  }

  /** `process_message`: the effect of the command, then its one reply. */
  function Process(st: BrokerState, s: nat, cmd: Command): BrokerState
    requires s in st.clients
  {
    Deliver(Effect(st, s, cmd), s, ReplyLine(cmd) + "\n")
  }

  /** `on_session_disconnect`. */
  function Disconnect(st: BrokerState, s: nat): BrokerState {
    st.(topics := st.topics.UnsubscribeAll(s), sessions := st.sessions - {s}, trace := st.trace + [Gone(s)])
  }

  function Update(st: BrokerState, s: nat, c: SessionState): BrokerState {
    st.(clients := st.clients[s := c])
  }

  /** The read handler: one line out of the buffer, processed. */
  function HandleLine(st: BrokerState, s: nat, k: nat): BrokerState
    requires s in st.clients && k < |st.clients[s].buffer|
  {
    var c := st.clients[s];
    var line := c.buffer[..k];
    Process(Update(st, s, c.TakeLine(k)).(trace := st.trace + [Line(s, line)]), s, Parse(line))
  }

  /** Whether the outside world can produce an event in a state.  A client handle is new; bytes arrive,
      lines and read errors are reported only while a read is outstanding, and the end of the stream only
      when the buffer has no line left, since a read looks there first; writes make progress, complete and
      fail only while they are outstanding.  Other errors may strike at any time. */
  predicate Enabled(st: BrokerState, e: Event) {
    match e
    case Accept(s) => s !in st.clients
    case Arrive(s, _) => s in st.clients && st.clients[s].reading
    case ReadLine(s) => s in st.clients && st.clients[s].reading && Find(st.clients[s].buffer, '\n', 0).Some?
    case EndOfFile(s) => s in st.clients && st.clients[s].reading && Lacks(st.clients[s].buffer, '\n')
    case ReadFail(s) => s in st.clients && st.clients[s].reading
    case Leave(s, w, n) => s in st.clients && st.clients[s].CanSend(w, n)
    case WriteDone(s, w) => s in st.clients && st.clients[s].CanComplete(w)
    case WriteFail(s, w) => s in st.clients && w < |st.clients[s].writes|
    case Consume(_) => true
  }

  function Step(st: BrokerState, e: Event): BrokerState
    requires Enabled(st, e)
  {
    match e
    case Accept(s) => Update(st, s, OPENED).(sessions := st.sessions + {s})
    case Arrive(s, chunk) => Update(st, s, st.clients[s].Receive(chunk))
    case ReadLine(s) => HandleLine(st, s, Find(st.clients[s].buffer, '\n', 0).value)
    case EndOfFile(s) => Disconnect(Update(st, s, st.clients[s].(reading := false)), s)
    case ReadFail(s) => Disconnect(Update(st, s, st.clients[s].(reading := false)), s)
    case Leave(s, w, n) => Update(st, s, st.clients[s].Send(w, n))
    case WriteDone(s, w) => Update(st, s, st.clients[s].Complete(w))
    case WriteFail(s, w) => Disconnect(Update(st, s, st.clients[s].Fail(w)), s)
    case Consume(t) => st.(topics := st.topics.Consume(t))
  }

  /** Events that cannot happen are passed over, so that every sequence of events is a run. */
  function Next(st: BrokerState, e: Event): BrokerState {
    if Enabled(st, e) then Step(st, e) else st
  }

  /** The state after a run from the start of the broker. */
  function Run(es: seq<Event>): BrokerState {
    if es == [] then STARTED else Next(Run(es[..|es| - 1]), es[|es| - 1])
  }

  lemma RunPush(es: seq<Event>, e: Event)
    ensures Run(es + [e]) == Next(Run(es), e)
  {
  }
}
