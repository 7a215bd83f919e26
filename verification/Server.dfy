/** The broker's classes.  Every handler of the running objects is proved to take the step that the state
    machine of `BrokerModel` takes, so the theorems about runs are theorems about these objects. */
module Server {
  import opened Text
  import opened Protocol
  import opened SessionModel
  import opened TopicModel
  import opened BrokerModel
  import opened BrokerInvariant

  /** `Session`.  `id` is the identity of the shared pointer.  `reading` and `writes` are what Asio holds
      for the session: the outstanding read and the writes started but not completed. */
  class Session {
    const id: nat
    const broker: BrokerServer

    var reading: bool
    var readBuffer: string
    var writeQueue: seq<string>
    var writes: seq<Write>

    ghost var input: string
    ghost var lines: seq<string>
    ghost var failed: bool
    ghost var done: nat
    ghost var delivered: seq<string>
    ghost var wire: string

    ghost function View(): SessionState
      reads this
    {
      SessionState(reading, input, readBuffer, lines, writeQueue, writes, failed, done, delivered, wire)
    }

    constructor (id: nat, broker: BrokerServer)
      ensures this.id == id && this.broker == broker
      ensures View() == OPENED.(reading := false)
    {
      this.id, this.broker := id, broker;
      reading, readBuffer, writeQueue, writes := false, "", [], [];
      input, lines, failed, done, delivered, wire := "", [], false, 0, [], "";
    }

    method Start()
      modifies this
      ensures View() == old(View()).(reading := true)
    {
      DoRead();
    }

    method Deliver(message: string)
      modifies this
      ensures View() == old(View()).Deliver(message)
    {
      var writeInProgress := writeQueue != [];
      writeQueue := writeQueue + [message];
      delivered := delivered + [message];
      if !writeInProgress {
        DoWrite();
      }
    }

    method DoRead()
      modifies this
      ensures View() == old(View()).(reading := true)
    {
      reading := true;
    }

    method DoWrite()
      modifies this
      ensures View() == old(View()).DoWrite()
    {
      if writeQueue == [] {
        return;
      }
      writes := writes + [Write(writeQueue[0], 0)];
    }

    /** Asio puts arriving bytes in the read buffer. */
    method Receive(chunk: string)
      modifies this
      ensures View() == old(View()).Receive(chunk)
    {
      readBuffer := readBuffer + chunk;
      input := input + chunk;
    }

    predicate CanSend(w: nat, n: nat)
      reads this
      ensures CanSend(w, n) <==> View().CanSend(w, n)
    {
      w < |writes| && writes[w].sent + n <= |writes[w].content|
    }

    predicate CanComplete(w: nat)
      reads this
      ensures CanComplete(w) <==> View().CanComplete(w)
    {
      w < |writes| && writes[w].sent == |writes[w].content|
    }

    /** Asio passes `n` bytes of write `w` on to the socket. */
    method Send(w: nat, n: nat)
      requires CanSend(w, n)
      modifies this
      ensures View() == old(View()).Send(w, n)
    {
      var Write(content, sent) := writes[w];
      writes := writes[w := Write(content, sent + n)];
      wire := wire + content[sent..sent + n];
    }

    /** The read handler without an error. */
    method OnLine()
      requires broker.Valid() && broker.Knows(this)
      requires Enabled(broker.View(), ReadLine(id))
      modifies broker, broker.topics, broker.clients.Values
      ensures broker.Valid() && broker.clients == old(broker.clients)
      ensures broker.View() == Step(old(broker.View()), ReadLine(id))
    {
      ghost var before := broker.View();
      var message := GetLine();
      ghost var taken := broker.View();
      ProcessMessage(message);
      ProcessReading(taken, id, Parse(message));
      ContinueReading();
    }

    /** `std::getline` on the read buffer. */
    method GetLine() returns (message: string)
      requires broker.Valid() && broker.Knows(this)
      requires Find(readBuffer, '\n', 0).Some?
      modifies this, broker`trace
      ensures broker.Valid()
      ensures var k := Find(old(readBuffer), '\n', 0).value;
              message == old(readBuffer)[..k]
              && View() == old(View()).TakeLine(k)
              && broker.View() == Taken(old(broker.View()), id, k)
    {
      assert broker.View().clients[id] == View();
      var k := Find(readBuffer, '\n', 0).value;
      message := readBuffer[..k];
      lines := lines + [message];
      readBuffer := readBuffer[k + 1..];
      broker.OnlyChanged(this);
      broker.Note(Line(id, message));
    }

    /** `do_read` at the end of the read handler: the read loop goes on. */
    method ContinueReading()
      requires broker.Valid() && broker.Knows(this)
      requires broker.View().clients[id].reading
      modifies this
      ensures broker.Valid() && broker.View() == old(broker.View())
    {
      assert broker.View().clients[id] == View();
      DoRead();
      broker.OnlyChanged(this);
    }

    /** The read handler with an error, the end of the stream included. */
    method OnReadError()
      requires broker.Valid() && broker.Knows(this)
      requires Enabled(broker.View(), ReadFail(id))
      modifies this, broker, broker.topics
      ensures broker.Valid() && broker.clients == old(broker.clients)
      ensures broker.View() == Step(old(broker.View()), ReadFail(id))
      ensures Enabled(old(broker.View()), EndOfFile(id)) ==>
                broker.View() == Step(old(broker.View()), EndOfFile(id))
    {
      assert broker.View().clients[id] == View();
      reading := false;
      broker.OnlyChanged(this);
      broker.OnSessionDisconnect(this);
    }

    /** The write handler without an error. */
    method OnWritten(w: nat)
      requires CanComplete(w)
      requires writeQueue != []
      modifies this
      ensures View() == old(View()).Complete(w)
    {
      writes := writes[..w] + writes[w + 1..];
      writeQueue := writeQueue[1..];
      done := done + 1;
      DoWrite();
    }

    /** The write handler with an error. */
    method OnWriteError(w: nat)
      requires broker.Valid() && broker.Knows(this)
      requires Enabled(broker.View(), WriteFail(id, w))
      modifies this, broker, broker.topics
      ensures broker.Valid() && broker.clients == old(broker.clients)
      ensures broker.View() == Step(old(broker.View()), WriteFail(id, w))
    {
      assert broker.View().clients[id] == View();
      FailAsDisconnect(broker.View(), id, w);
      writes := writes[..w] + writes[w + 1..];
      failed := true;
      broker.OnlyChanged(this);
      broker.OnSessionDisconnect(this);
    }

    method ProcessMessage(message: string)
      requires broker.Valid() && broker.Knows(this)
      modifies broker.topics, broker.clients.Values
      ensures broker.Valid()
      ensures broker.View() == Process(old(broker.View()), id, Parse(message))
    {
      var cmd := Parse(message);
      match cmd {
        case Publish(topic, payload) => broker.Publish(topic, payload);
        case Subscribe(topic) => broker.Subscribe(topic, this);
        case Unsubscribe(topic) => broker.Unsubscribe(topic, this);
        case Ping =>
        case Rejected(_) =>
      }
      label effected:
      Deliver(ReplyLine(cmd) + "\n");
      broker.OnlyChanged@effected(this);
    }
  }

  lemma BroadcastPointwise(before: map<nat, SessionState>, after: map<nat, SessionState>, to: set<nat>, m: string)
    requires after.Keys == before.Keys
    requires forall i | i in before :: after[i] == if i in to then before[i].Deliver(m) else before[i]
    ensures after == Broadcast(before, to, m)
  {
  }

  lemma AcceptInTwo(st: BrokerState, s: nat)
    requires Enabled(st, Accept(s))
    ensures Step(st, Accept(s))
         == Update(Update(st, s, OPENED.(reading := false)).(sessions := st.sessions + {s}), s, OPENED)
  {
  }

  lemma FailAsDisconnect(st: BrokerState, s: nat, w: nat)
    requires Enabled(st, WriteFail(s, w))
    ensures Step(st, WriteFail(s, w)) == Disconnect(Update(st, s, st.clients[s].Fail(w)), s)
  {
  }

  ghost function Ids(ss: set<Session>): set<nat> {
    set s | s in ss :: s.id
  }

  ghost predicate Distinct(ss: set<Session>) {
    forall x, y | x in ss && y in ss && x.id == y.id :: x == y
  }

  lemma IdsInsert(ss: set<Session>, s: Session)
    ensures Ids(ss + {s}) == Ids(ss) + {s.id}
  {
  }

  lemma IdsErase(ss: set<Session>, s: Session)
    requires Distinct(ss + {s})
    ensures Ids(ss - {s}) == Ids(ss) - {s.id}
  {
  }

  lemma {:induction false} IdsCount(ss: set<Session>)
    requires Distinct(ss)
    ensures |Ids(ss)| == |ss|
    decreases |ss|
  {
    if s :| s in ss {
      IdsErase(ss, s);
      IdsCount(ss - {s});
      assert Ids(ss) == Ids(ss - {s}) + {s.id};
    }
  }

  /** `TopicManager`. */
  class TopicManager {
    var subscriptions: map<string, set<Session>>
    var topicQueues: map<string, seq<Stored>>
    var sequenceCounter: nat

    ghost var log: seq<Stored>
    ghost var consumed: map<string, seq<Stored>>

    ghost function View(): TopicState
      reads this
    {
      TopicState(map t | t in subscriptions :: Ids(subscriptions[t]), topicQueues, sequenceCounter, log, consumed)
    }

    ghost function Of(topic: string): set<Session>
      reads this
    {
      if topic in subscriptions then subscriptions[topic] else {}
    }

    constructor ()
      ensures View() == NO_TOPICS && subscriptions == map[]
    {
      subscriptions, topicQueues, sequenceCounter := map[], map[], 0;
      log, consumed := [], map[];
    }

    method Subscribe(topic: string, session: Session)
      modifies this
      ensures View() == old(View()).Subscribe(topic, session.id)
      ensures forall t | t in subscriptions ::
                subscriptions[t] <= {session} + (if t in old(subscriptions) then old(subscriptions)[t] else {})
    {
      var current := if topic in subscriptions then subscriptions[topic] else {};
      IdsInsert(current, session);
      assert Ids(current) == View().Subscribers(topic);
      subscriptions := subscriptions[topic := current + {session}];
    }

    method Unsubscribe(topic: string, session: Session)
      requires topic in subscriptions ==> Distinct(subscriptions[topic] + {session})
      modifies this
      ensures View() == old(View()).Unsubscribe(topic, session.id)
      ensures forall t | t in subscriptions :: t in old(subscriptions) && subscriptions[t] <= old(subscriptions)[t]
    {
      if topic in subscriptions {
        IdsErase(subscriptions[topic], session);
        var left := subscriptions[topic] - {session};
        assert left == {} <==> Ids(left) == {} by {
          if s :| s in left { assert s.id in Ids(left); }
        }
        if left == {} {
          subscriptions := subscriptions - {topic};
        } else {
          subscriptions := subscriptions[topic := left];
        }
      }
    }

    method UnsubscribeAll(session: Session)
      requires forall t | t in subscriptions :: Distinct(subscriptions[t] + {session})
      modifies this
      ensures View() == old(View()).UnsubscribeAll(session.id)
      ensures forall t | t in subscriptions :: t in old(subscriptions) && subscriptions[t] <= old(subscriptions)[t]
    {
      var rest := subscriptions.Keys;
      while rest != {}
        invariant rest <= subscriptions.Keys == old(subscriptions).Keys
        invariant forall t | t in subscriptions ::
                    subscriptions[t] == if t in rest then old(subscriptions)[t] else old(subscriptions)[t] - {session}
        invariant topicQueues == old(topicQueues) && sequenceCounter == old(sequenceCounter)
        invariant log == old(log) && consumed == old(consumed)
        decreases rest
      {
        var topic :| topic in rest;
        subscriptions := subscriptions[topic := subscriptions[topic] - {session}];
        rest := rest - {topic};
      }
      forall t | t in subscriptions ensures Ids(subscriptions[t]) == Ids(old(subscriptions)[t]) - {session.id} {
        IdsErase(old(subscriptions)[t], session);
      }
    }

    /** The sessions subscribed to a topic, in whatever order the set yields them. */
    method GetSubscribers(topic: string) returns (found: seq<Session>)
      ensures forall s :: s in found <==> s in Of(topic)
      ensures forall i, j | 0 <= i < j < |found| :: found[i] != found[j]
    {
      found := [];
      if topic in subscriptions {
        var rest := subscriptions[topic];
        while rest != {}
          invariant rest <= subscriptions[topic]
          invariant forall s :: s in found <==> s in subscriptions[topic] - rest
          invariant forall i, j | 0 <= i < j < |found| :: found[i] != found[j]
          decreases rest
        {
          var s :| s in rest;
          assert s !in found;
          rest := rest - {s};
          found := found + [s];
        }
      }
    }

    /** The locked part of `publish`. */
    method Store(topic: string, payload: string)
      modifies this
      ensures View() == old(View()).Store(topic, payload) && subscriptions == old(subscriptions)
    {
      var msg := Stored(topic, payload, sequenceCounter);
      sequenceCounter := (sequenceCounter + 1) % SEQUENCE_LIMIT;
      topicQueues := topicQueues[topic := (if topic in topicQueues then topicQueues[topic] else []) + [msg]];
      log := log + [msg];
    }

    /** The delivery loop of `publish`: one delivery to each subscriber. */
    static method DeliverToEach(subscribers: seq<Session>, notification: string)
      requires forall i, j | 0 <= i < j < |subscribers| :: subscribers[i] != subscribers[j]
      modifies set s | s in subscribers
      ensures forall s | s in subscribers :: s.View() == old(s.View()).Deliver(notification)
    {
      for i := 0 to |subscribers|
        invariant forall j | 0 <= j < i :: subscribers[j].View() == old(subscribers[j].View()).Deliver(notification)
        invariant forall j | i <= j < |subscribers| :: unchanged(subscribers[j])
      {
        assert subscribers[i].View() == old(subscribers[i].View());
        subscribers[i].Deliver(notification);
      }
    }

    /** Numbers and stores the message, takes the subscribers, and delivers one notification to each. */
    method Publish(topic: string, payload: string)
      modifies this, Of(topic)
      ensures View() == old(View()).Store(topic, payload) && subscriptions == old(subscriptions)
      ensures forall s | s in Of(topic) ::
                s.View() == old(s.View()).Deliver(NotificationLine(topic, payload) + "\n")
    {
      Store(topic, payload);
      var subscribers := GetSubscribers(topic);
      DeliverToEach(subscribers, NotificationLine(topic, payload) + "\n");
    }

    method ConsumeMessage(topic: string) returns (msg: Option<Stored>)
      modifies this
      ensures View() == old(View()).Consume(topic) && subscriptions == old(subscriptions)
      ensures msg == if old(View()).Queued(topic) == [] then None else Some(old(View()).Queued(topic)[0])
      ensures View().Queued(topic) == if msg == None then [] else old(View()).Queued(topic)[1..]
    {
      if topic in topicQueues && topicQueues[topic] != [] {
        msg := Some(topicQueues[topic][0]);
        consumed := consumed[topic := (if topic in consumed then consumed[topic] else []) + [topicQueues[topic][0]]];
        topicQueues := topicQueues[topic := topicQueues[topic][1..]];
      } else {
        msg := None;
      }
    }

    method GetTopicCount() returns (n: nat)
      ensures n == |View().subs|
    {
      n := |subscriptions|;
      assert View().subs.Keys == subscriptions.Keys;
      assert |View().subs| == |View().subs.Keys| == |subscriptions.Keys| == |subscriptions|;
    }

    method GetSubscriberCount(topic: string) returns (n: nat)
      requires topic in subscriptions ==> Distinct(subscriptions[topic])
      ensures n == |View().Subscribers(topic)|
    {
      if topic in subscriptions {
        IdsCount(subscriptions[topic]);
        n := |subscriptions[topic]|;
      } else {
        n := 0;
      }
    }
  }

  /** `BrokerServer`.  `clients` are all the sessions ever created, which Asio's handlers keep alive. */
  class BrokerServer {
    const topics: TopicManager
    var sessions: set<Session>
    var clients: map<nat, Session>
    ghost var trace: seq<Input>

    ghost predicate Knows(s: Session)
      reads this
    {
      s.id in clients && clients[s.id] == s && s.broker == this
    }

    ghost predicate Handles()
      reads this
    {
      forall i | i in clients :: clients[i].id == i && clients[i].broker == this
    }

    ghost predicate Valid()
      reads this, topics
    {
      && Handles()
      && sessions <= clients.Values
      && (forall t | t in topics.subscriptions :: topics.subscriptions[t] <= clients.Values)
    }

    ghost function View(): BrokerState
      reads this, topics, clients.Values
    {
      BrokerState(map i | i in clients :: clients[i].View(), Ids(sessions), topics.View(), trace)
    }

    constructor ()
      ensures Valid() && View() == STARTED && fresh(topics)
    {
      topics := new TopicManager();
      sessions, clients, trace := {}, map[], [];
    }

    lemma Members(ss: set<Session>)
      requires Handles() && ss <= clients.Values
      ensures forall s | s in ss :: Knows(s)
      ensures Distinct(ss)
    {
    }

    lemma Member(s: Session)
      requires Knows(s)
      ensures s in clients.Values
    {
    }

    /** When nothing but session `s` has changed, the broker has changed at `s` alone. */
    twostate lemma OnlyChanged(s: Session)
      requires old(Valid()) && unchanged(this, topics) && Knows(s)
      requires forall c | c in clients.Values && c != s :: old(allocated(c)) && unchanged(c)
      requires old(allocated(s))
      ensures Valid() && View() == Update(old(View()), s.id, s.View())
    {
      forall i | i in clients && i != s.id ensures clients[i].View() == old(clients[i].View()) {
        assert clients[i] in clients.Values && clients[i] != s;
      }
    }

    /** Puts a handler's input on the trace. */
    ghost method Note(i: Input)
      requires Valid()
      modifies this`trace
      ensures Valid() && View() == old(View()).(trace := old(View()).trace + [i])
    {
      trace := trace + [i];
    }

    lemma MemberOf(to: set<Session>, i: nat)
      requires Handles() && to <= clients.Values && i in clients
      ensures clients[i] in clients.Values
      ensures i in Ids(to) <==> clients[i] in to
    {
    }

    method Publish(topic: string, payload: string)
      requires Valid()
      modifies topics, clients.Values
      ensures Valid() && View() == PublishTo(old(View()), topic, payload)
    {
      ghost var to := topics.Of(topic);
      ghost var before := View().clients;
      assert topics.View().Subscribers(topic) == Ids(to);
      topics.Publish(topic, payload);
      forall i | i in clients
        ensures clients[i].View() == if i in Ids(to) then before[i].Deliver(NotificationLine(topic, payload) + "\n")
                                     else before[i] {
        MemberOf(to, i);
      }
      BroadcastPointwise(before, View().clients, Ids(to), NotificationLine(topic, payload) + "\n");
    }

    method Subscribe(topic: string, session: Session)
      requires Valid() && Knows(session)
      modifies topics
      ensures Valid() && View() == old(View()).(topics := old(View()).topics.Subscribe(topic, session.id))
    {
      Member(session);
      topics.Subscribe(topic, session);
    }

    method Unsubscribe(topic: string, session: Session)
      requires Valid() && Knows(session)
      modifies topics
      ensures Valid() && View() == old(View()).(topics := old(View()).topics.Unsubscribe(topic, session.id))
    {
      Member(session);
      if topic in topics.subscriptions {
        Members(topics.subscriptions[topic] + {session});
      }
      topics.Unsubscribe(topic, session);
    }

    method UnsubscribeAll(session: Session)
      requires Valid() && Knows(session)
      modifies topics
      ensures Valid() && View() == old(View()).(topics := old(View()).topics.UnsubscribeAll(session.id))
    {
      Member(session);
      forall t | t in topics.subscriptions ensures Distinct(topics.subscriptions[t] + {session}) {
        Members(topics.subscriptions[t] + {session});
      }
      topics.UnsubscribeAll(session);
    }

    method Erase(session: Session)
      requires Valid() && Knows(session)
      modifies this`sessions
      ensures Valid() && View() == old(View()).(sessions := old(View()).sessions - {session.id})
    {
      Member(session);
      Members(sessions + {session});
      IdsErase(sessions, session);
      sessions := sessions - {session};
    }

    method OnSessionDisconnect(session: Session)
      requires Valid() && Knows(session)
      modifies this`sessions, this`trace, topics
      ensures Valid() && View() == Disconnect(old(View()), session.id)
    {
      UnsubscribeAll(session);
      Erase(session);
      Note(Gone(session.id));
    }

    method GetActiveSessions() returns (n: nat)
      requires Valid()
      ensures n == |View().sessions|
    {
      Members(sessions);
      IdsCount(sessions);
      n := |sessions|;
    }

    method Insert(session: Session)
      requires Valid() && session.broker == this && session.id !in clients
      modifies this`sessions, this`clients
      ensures clients == old(clients)[session.id := session] && Valid()
      ensures View() == Update(old(View()), session.id, session.View()).(
                          sessions := old(View()).sessions + {session.id})
    {
      IdsInsert(sessions, session);
      sessions := sessions + {session};
      clients := clients[session.id := session];
      forall s | s in old(clients.Values) ensures s in clients.Values {
        var i :| i in old(clients) && old(clients)[i] == s;
        assert clients[i] == s;
      }
      assert session in clients.Values by { assert clients[session.id] == session; }
    }

    /** The accept handler, for a connection that is given the new handle `id`. */
    method OnAccept(id: nat)
      requires Valid() && Enabled(View(), Accept(id))
      modifies this`sessions, this`clients
      ensures Valid() && View() == Step(old(View()), Accept(id))
      ensures fresh(clients.Values - old(clients.Values))
    {
      var session := new Session(id, this);
      Insert(session);
      label inserted:
      session.Start();
      OnlyChanged@inserted(session);
      AcceptInTwo(old(View()), id);
    }

    /** Events that touch one session only. */
    method HandleTransfer(e: Event)
      requires Valid() && Inv(View()) && (e.Arrive? || e.Leave? || e.WriteDone?)
      modifies clients.Values
      ensures Valid() && View() == Next(old(View()), e)
    {
      if e.client in clients {
        var session := clients[e.client];
        Member(session);
        assert View().clients[e.client] == session.View();
        match e {
          case Arrive(_, chunk) =>
            if session.reading { session.Receive(chunk); }
          case Leave(_, w, n) =>
            if session.CanSend(w, n) { session.Send(w, n); }
          case WriteDone(_, w) =>
            if session.CanComplete(w) {
              CompleteKeeps(session.View(), w);
              session.OnWritten(w);
            }
        }
        OnlyChanged(session);
      }
    }

    /** The remaining handlers. */
    method HandleOther(e: Event)
      requires Valid() && !(e.Arrive? || e.Leave? || e.WriteDone?)
      modifies this, topics, clients.Values
      ensures Valid() && View() == Next(old(View()), e)
      ensures fresh(clients.Values - old(clients.Values))
    {
      match e {
        case Accept(s) =>
          if s !in clients { OnAccept(s); }
        case ReadLine(s) =>
          if s in clients && clients[s].reading && Find(clients[s].readBuffer, '\n', 0).Some? { clients[s].OnLine(); }
        case EndOfFile(s) =>
          if s in clients && clients[s].reading && Lacks(clients[s].readBuffer, '\n') { clients[s].OnReadError(); }
        case ReadFail(s) =>
          if s in clients && clients[s].reading { clients[s].OnReadError(); }
        case WriteFail(s, w) =>
          if s in clients && w < |clients[s].writes| { clients[s].OnWriteError(w); }
        case Consume(t) =>
          var msg := topics.ConsumeMessage(t);
      }
    }
  }

  /** The `io_context` loop: from a new broker, each event in turn reaches its handler.  The objects end up
      in the state of the run. */
  method Serve(es: seq<Event>) returns (broker: BrokerServer)
    ensures fresh(broker) && broker.Valid() && broker.View() == Run(es)
  {
    broker := new BrokerServer();
    for i := 0 to |es|
      invariant fresh(broker) && fresh(broker.topics) && fresh(broker.clients.Values)
      invariant broker.Valid() && broker.View() == Run(es[..i])
    {
      RunInv(es[..i]);
      RunPush(es[..i], es[i]);
      assert es[..i + 1] == es[..i] + [es[i]];
      if es[i].Arrive? || es[i].Leave? || es[i].WriteDone? {
        broker.HandleTransfer(es[i]);
      } else {
        broker.HandleOther(es[i]);
      }
    }
    assert es[..|es|] == es;
  }
}
