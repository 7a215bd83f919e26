/** What every handler keeps: the broker's buffers, queues and maps say what the trace says. */
module BrokerInvariant {
  import opened Text
  import opened Protocol
  import opened SessionModel
  import opened TopicModel
  import opened BrokerModel
  import opened TraceSpec

  /** A client's session: both machines are in order, and what was delivered to it is what the trace says
      it is owed. */
  ghost predicate ClientInv(trace: seq<Input>, s: nat, c: SessionState) {
    && WriteInv(c)
    && ReadInv(c)
    && c.delivered == Terminated(Expected(trace, s))
    && c.lines == LinesOf(trace, s)
    && (!c.reading || c.failed ==> Gone(s) in trace)
  }

  /** The subscription map is the relation read off the trace, and only live readers are in it. */
  ghost predicate SubsInv(st: BrokerState) {
    forall s, t :: SubInv(st, s, t)
  }

  ghost predicate SubInv(st: BrokerState, s: nat, t: string) {
    && (s in st.topics.Subscribers(t) <==> Subscribed(st.trace, s, t))
    && (s in st.topics.Subscribers(t) ==> s in st.clients && st.clients[s].reading)
  }

  function Pairs(log: seq<Stored>): seq<(string, string)> {
    seq(|log|, i requires 0 <= i < |log| => (log[i].topic, log[i].payload))
  }

  ghost predicate TraceInv(st: BrokerState) {
    && Clean(st.trace)
    && (forall i | 0 <= i < |st.trace| :: st.trace[i].client in st.clients)
    && (forall s :: s in st.sessions <==> s in st.clients && Gone(s) !in st.trace)
    && Pairs(st.topics.log) == Published(st.trace)
  }

  ghost predicate ClientsInv(st: BrokerState) {
    forall s | s in st.clients :: ClientInv(st.trace, s, st.clients[s])
  }

  ghost predicate Inv(st: BrokerState) {
    && ClientsInv(st)
    && SubsInv(st)
    && TraceInv(st)
    && QueueInv(st.topics)
  }

  lemma StartedInv()
    ensures Inv(STARTED)
  {
  }

  lemma NewClientInv(trace: seq<Input>, s: nat)
    requires !Mentions(trace, s)
    ensures ClientInv(trace, s, OPENED)
  {
    NeverMentioned(trace, s);
    OpenedInv();
  }

  lemma AcceptSubs(st: BrokerState, s: nat)
    requires SubsInv(st) && s !in st.clients
    ensures SubsInv(Step(st, Accept(s)))
  {
    forall x, t ensures SubInv(Step(st, Accept(s)), x, t) {
      assert SubInv(st, x, t);
    }
  }

  lemma AcceptTrace(st: BrokerState, s: nat)
    requires TraceInv(st) && s !in st.clients
    ensures TraceInv(Step(st, Accept(s))) && !Mentions(st.trace, s)
  {
  }

  lemma AcceptKeeps(st: BrokerState, s: nat)
    requires Inv(st) && Enabled(st, Accept(s))
    ensures Inv(Step(st, Accept(s)))
  {
    AcceptTrace(st, s);
    AcceptSubs(st, s);
    NewClientInv(st.trace, s);
  }

  /** Work on one session that processes no line changes nothing else. */
  lemma LocalKeeps(st: BrokerState, s: nat, c: SessionState)
    requires Inv(st) && s in st.clients && ClientInv(st.trace, s, c) && c.reading == st.clients[s].reading
    ensures Inv(Update(st, s, c))
  {
    var d := Update(st, s, c);
    forall x, t ensures SubInv(d, x, t) {
      assert SubInv(st, x, t);
    }
    forall x | x in d.clients ensures ClientInv(d.trace, x, d.clients[x]) {
      assert x != s ==> ClientInv(st.trace, x, st.clients[x]);
    }
    TraceFrame(st, d);
  }

  lemma QueueFrame(a: TopicState, b: TopicState)
    requires QueueInv(a) && b == a.(subs := b.subs)
    ensures QueueInv(b)
  {
    forall t ensures Conserved(b, t) {
      assert Conserved(a, t);
    }
  }

  lemma SubsFrame(st: BrokerState, d: BrokerState)
    requires SubsInv(st) && d.topics.subs == st.topics.subs && d.clients == st.clients && d.trace == st.trace
    ensures SubsInv(d)
  {
    forall x, t ensures SubInv(d, x, t) {
      assert SubInv(st, x, t);
    }
  }

  lemma ConsumeStepKeeps(st: BrokerState, t: string)
    requires Inv(st)
    ensures Inv(Step(st, Consume(t)))
  {
    ConsumeKeeps(st.topics, t);
    SubsFrame(st, Step(st, Consume(t)));
  }

  lemma GoneTrace(st: BrokerState, s: nat)
    requires s in st.clients && TraceInv(st)
    ensures TraceInv(Disconnect(st, s))
  {
    var d := Disconnect(st, s);
    assert d.trace[..|d.trace| - 1] == st.trace;
    assert forall x :: Gone(x) in d.trace <==> x == s || Gone(x) in st.trace;
    assert Published(d.trace) == Published(st.trace);
  }

  lemma GoneSubs(st: BrokerState, s: nat, c: SessionState)
    requires SubsInv(st) && s in st.clients
    ensures SubsInv(Disconnect(Update(st, s, c), s))
  {
    var d := Disconnect(Update(st, s, c), s);
    assert d.trace[..|d.trace| - 1] == st.trace;
    forall x, t ensures SubInv(d, x, t) {
      assert SubInv(st, x, t);
      assert x in d.topics.Subscribers(t) <==> x != s && x in st.topics.Subscribers(t);
    }
  }

  lemma GoneClient(trace: seq<Input>, s: nat, x: nat, c: SessionState)
    requires WriteInv(c) && ReadInv(c)
    requires c.delivered == Terminated(Expected(trace, x)) && c.lines == LinesOf(trace, x)
    requires !c.reading || c.failed ==> Gone(x) in trace || x == s
    ensures ClientInv(trace + [Gone(s)], x, c)
  {
    var after := trace + [Gone(s)];
    assert after[..|trace|] == trace && after[|trace|] == Gone(s);
    assert Expected(after, x) == Expected(trace, x);
    assert LinesOf(after, x) == LinesOf(trace, x);
  }

  /** Whether a read or a write failed: the session loses its subscriptions and its place in `sessions_`,
      and nothing that was delivered changes. */
  lemma DisconnectKeeps(st: BrokerState, s: nat, c: SessionState)
    requires Inv(st) && s in st.clients
    requires WriteInv(c) && ReadInv(c)
    requires c.delivered == st.clients[s].delivered && c.lines == st.clients[s].lines
    ensures Inv(Disconnect(Update(st, s, c), s))
  {
    var mid := Update(st, s, c);
    var d := Disconnect(mid, s);
    forall x | x in d.clients ensures ClientInv(d.trace, x, d.clients[x]) {
      assert ClientInv(st.trace, x, st.clients[x]);
      GoneClient(st.trace, s, x, d.clients[x]);
    }
    TraceFrame(st, mid);
    GoneTrace(mid, s);
    GoneSubs(st, s, c);
    QueueFrame(st.topics, d.topics);
  }

  lemma TraceFrame(st: BrokerState, d: BrokerState)
    requires TraceInv(st) && d.clients.Keys == st.clients.Keys
    requires d.sessions == st.sessions && d.topics.log == st.topics.log && d.trace == st.trace
    ensures TraceInv(d)
  {
  }

  /** The messages one session is given while `cmd` of client `s` is processed. */
  function Given(st: BrokerState, s: nat, cmd: Command, x: nat): seq<string> {
    (match cmd
     case Publish(t, p) => if x in st.topics.Subscribers(t) then [NotificationLine(t, p) + "\n"] else []
     case _ => [])
    + (if x == s then [ReplyLine(cmd) + "\n"] else [])
  }

  lemma DeliverFew(c: SessionState)
    ensures c.DeliverAll([]) == c
    ensures forall a :: c.DeliverAll([a]) == c.Deliver(a)
    ensures forall a, b :: c.DeliverAll([a, b]) == c.Deliver(a).Deliver(b)
  {
    forall a ensures c.DeliverAll([a]) == c.Deliver(a) {
      assert [a][1..] == [];
    }
    forall a, b ensures c.DeliverAll([a, b]) == c.Deliver(a).Deliver(b) {
      assert [a, b][1..] == [b] && [b][1..] == [];
      assert c.Deliver(a).DeliverAll([b]) == c.Deliver(a).Deliver(b);
    }
  }

  /** Processing a command is, for every session, a number of deliveries and nothing else. */
  lemma ProcessDelivers(st: BrokerState, s: nat, cmd: Command)
    requires s in st.clients
    ensures var d := Process(st, s, cmd);
            d.clients.Keys == st.clients.Keys
            && forall x | x in st.clients :: d.clients[x] == st.clients[x].DeliverAll(Given(st, s, cmd, x))
  {
    forall x | x in st.clients
      ensures Process(st, s, cmd).clients[x] == st.clients[x].DeliverAll(Given(st, s, cmd, x)) {
      var c := st.clients[x];
      var given := Given(st, s, cmd, x);
      DeliverFew(c);
      assert |given| == 2 ==> given == [given[0], given[1]];
      assert |given| == 1 ==> given == [given[0]];
    }
  }

  lemma ProcessReading(st: BrokerState, s: nat, cmd: Command)
    requires s in st.clients
    ensures s in Process(st, s, cmd).clients
    ensures Process(st, s, cmd).clients[s].reading == st.clients[s].reading
  {
  }

  lemma GivenIsSent(st: BrokerState, s: nat, cmd: Command, x: nat)
    requires SubsInv(st)
    ensures Given(st, s, cmd, x) == Terminated(Sent(st.trace, s, cmd, x))
  {
    if cmd.Publish? {
      assert SubInv(st, x, cmd.topic);
    }
  }

  /** The effect of a command on the topic manager is the effect of its line on the trace relation. */
  lemma EffectOnSubs(st: BrokerState, s: nat, text: string, x: nat, t: string)
    requires SubInv(st, x, t)
    ensures x in Effect(st, s, Parse(text)).topics.Subscribers(t)
            <==> Subscribed(st.trace + [Line(s, text)], x, t)
    ensures x in Effect(st, s, Parse(text)).topics.Subscribers(t) ==> x == s || x in st.topics.Subscribers(t)
  {
    var cmd := Parse(text);
    assert (st.trace + [Line(s, text)])[..|st.trace|] == st.trace;
    match cmd
    case Unsubscribe(u) =>
      assert Effect(st, s, cmd).topics.Subscribers(t)
          == if u == t then st.topics.Subscribers(t) - {s} else st.topics.Subscribers(t);
    case Subscribe(u) =>
    case Publish(_, _) =>
    case Ping =>
    case Rejected(_) =>
  }

  lemma StoreOnLog(s: TopicState, t: string, p: string)
    ensures Pairs(s.Store(t, p).log) == Pairs(s.log) + [(t, p)]
  {
  }

  lemma PublishedPush(trace: seq<Input>, s: nat, text: string)
    ensures Published(trace + [Line(s, text)])
            == Published(trace) + (match Parse(text) case Publish(t, p) => [(t, p)] case _ => [])
  {
  }

  lemma EffectOnLog(st: BrokerState, s: nat, text: string)
    requires QueueInv(st.topics) && Pairs(st.topics.log) == Published(st.trace)
    ensures QueueInv(Effect(st, s, Parse(text)).topics)
    ensures Pairs(Effect(st, s, Parse(text)).topics.log) == Published(st.trace + [Line(s, text)])
  {
    PublishedPush(st.trace, s, text);
    match Parse(text)
    case Publish(t, p) =>
      StoreKeeps(st.topics, t, p);
      StoreOnLog(st.topics, t, p);
    case Subscribe(t) => QueueFrame(st.topics, st.topics.Subscribe(t, s));
    case Unsubscribe(t) => QueueFrame(st.topics, st.topics.Unsubscribe(t, s));
    case Ping =>
    case Rejected(_) =>
  }

  /** One client across the processing of a line of client `s`. */
  lemma {:induction false} LineOnClient(trace: seq<Input>, s: nat, text: string, x: nat, c: SessionState)
    requires WriteInv(c) && ReadInv(c)
    requires c.delivered == Terminated(Expected(trace, x))
    requires c.lines == LinesOf(trace, x) + (if x == s then [text] else [])
    requires !c.reading || c.failed ==> Gone(x) in trace
    ensures var after := trace + [Line(s, text)];
            ClientInv(after, x, c.DeliverAll(Terminated(Sent(trace, s, Parse(text), x))))
  {
    var after, out := trace + [Line(s, text)], Sent(trace, s, Parse(text), x);
    assert after[..|trace|] == trace;
    DeliverAllKeeps(c, Terminated(out));
    DeliverAllFrame(c, Terminated(out));
    TerminatedAppend(Expected(trace, x), out);
  }

  /** The state in which a line is processed: taken from the buffer and put on the trace. */
  function Taken(st: BrokerState, s: nat, k: nat): BrokerState
    requires s in st.clients && k < |st.clients[s].buffer|
  {
    var c := st.clients[s];
    Update(st, s, c.TakeLine(k)).(trace := st.trace + [Line(s, c.buffer[..k])])
  }

  lemma ProcessFrame(st: BrokerState, s: nat, cmd: Command)
    requires s in st.clients
    ensures var d := Process(st, s, cmd);
            d.trace == st.trace && d.sessions == st.sessions && d.topics == Effect(st, s, cmd).topics
  {
  }

  lemma ReadLineClient(st: BrokerState, s: nat, k: nat, x: nat)
    requires SubsInv(st) && s in st.clients && x in st.clients
    requires ClientInv(st.trace, x, st.clients[x])
    requires Find(st.clients[s].buffer, '\n', 0) == Some(k)
    ensures var d := HandleLine(st, s, k);
            x in d.clients
            && ClientInv(d.trace, x, d.clients[x])
            && d.clients[x].reading == st.clients[x].reading
  {
    var c := st.clients[s];
    var line := c.buffer[..k];
    var cmd := Parse(line);
    var mid := Taken(st, s, k);
    assert HandleLine(st, s, k) == Process(mid, s, cmd);
    ProcessFrame(mid, s, cmd);
    ProcessDelivers(mid, s, cmd);
    assert Given(mid, s, cmd, x) == Given(st, s, cmd, x);
    GivenIsSent(st, s, cmd, x);
    DeliverAllFrame(mid.clients[x], Given(mid, s, cmd, x));
    if x == s {
      TakeLineKeeps(c, k);
      assert WriteInv(c.TakeLine(k)) by { assert WriteInv(c); }
    }
    LineOnClient(st.trace, s, line, x, mid.clients[x]);
  }

  lemma ReadLineSubs(st: BrokerState, s: nat, text: string, d: BrokerState)
    requires SubsInv(st) && s in st.clients && st.clients[s].reading
    requires d.topics == Effect(st, s, Parse(text)).topics && d.trace == st.trace + [Line(s, text)]
    requires d.clients.Keys == st.clients.Keys
    requires forall x | x in st.clients :: d.clients[x].reading == st.clients[x].reading
    ensures SubsInv(d)
  {
    forall x, t ensures SubInv(d, x, t) {
      assert SubInv(st, x, t);
      EffectOnSubs(st, s, text, x, t);
    }
  }

  lemma ReadLineTrace(st: BrokerState, s: nat, text: string, d: BrokerState)
    requires TraceInv(st) && s in st.clients && Lacks(text, '\n')
    requires d.trace == st.trace + [Line(s, text)]
    requires d.clients.Keys == st.clients.Keys && d.sessions == st.sessions
    requires Pairs(d.topics.log) == Published(d.trace)
    ensures TraceInv(d)
  {
  }

  lemma ReadLineFrame(st: BrokerState, s: nat, k: nat)
    requires s in st.clients && k < |st.clients[s].buffer|
    ensures var d, line := HandleLine(st, s, k), st.clients[s].buffer[..k];
            d.trace == st.trace + [Line(s, line)] && d.sessions == st.sessions
            && d.clients.Keys == st.clients.Keys && d.topics == Effect(st, s, Parse(line)).topics
    ensures Find(st.clients[s].buffer, '\n', 0) == Some(k) ==> Lacks(st.clients[s].buffer[..k], '\n')
  {
    var line := st.clients[s].buffer[..k];
    var cmd := Parse(line);
    ProcessFrame(Taken(st, s, k), s, cmd);
    ProcessDelivers(Taken(st, s, k), s, cmd);
    assert HandleLine(st, s, k) == Process(Taken(st, s, k), s, cmd);
    assert Effect(Taken(st, s, k), s, cmd).topics == Effect(st, s, cmd).topics;
  }

  lemma {:induction false} ReadLineClients(st: BrokerState, s: nat, k: nat)
    requires SubsInv(st) && ClientsInv(st) && s in st.clients
    requires Find(st.clients[s].buffer, '\n', 0) == Some(k)
    ensures var d := HandleLine(st, s, k);
            ClientsInv(d) && d.clients.Keys == st.clients.Keys
            && forall x | x in st.clients :: d.clients[x].reading == st.clients[x].reading
  {
    var d := HandleLine(st, s, k);
    ReadLineFrame(st, s, k);
    forall x | x in d.clients
      ensures ClientInv(d.trace, x, d.clients[x]) && d.clients[x].reading == st.clients[x].reading {
      ReadLineClient(st, s, k, x);
    }
  }

  lemma ReadLineTopics(st: BrokerState, s: nat, text: string, d: BrokerState)
    requires SubsInv(st) && TraceInv(st) && QueueInv(st.topics)
    requires s in st.clients && st.clients[s].reading && Lacks(text, '\n')
    requires d.topics == Effect(st, s, Parse(text)).topics && d.trace == st.trace + [Line(s, text)]
    requires d.clients.Keys == st.clients.Keys && d.sessions == st.sessions
    requires forall x | x in st.clients :: d.clients[x].reading == st.clients[x].reading
    ensures SubsInv(d) && TraceInv(d) && QueueInv(d.topics)
  {
    EffectOnLog(st, s, text);
    ReadLineSubs(st, s, text, d);
    ReadLineTrace(st, s, text, d);
  }

  lemma {:induction false} ReadLineKeeps(st: BrokerState, s: nat, k: nat)
    requires Inv(st) && s in st.clients && st.clients[s].reading
    requires Find(st.clients[s].buffer, '\n', 0) == Some(k)
    ensures Inv(HandleLine(st, s, k))
  {
    ReadLineFrame(st, s, k);
    ReadLineClients(st, s, k);
    ReadLineTopics(st, s, st.clients[s].buffer[..k], HandleLine(st, s, k));
  }

  lemma StepKeeps(st: BrokerState, e: Event)
    requires Inv(st) && Enabled(st, e)
    ensures Inv(Step(st, e))
  {
    match e
    case Accept(s) =>
      AcceptKeeps(st, s);
    case Arrive(s, chunk) =>
      ReceiveKeeps(st.clients[s], chunk);
      LocalKeeps(st, s, st.clients[s].Receive(chunk));
    case ReadLine(s) =>
      ReadLineKeeps(st, s, Find(st.clients[s].buffer, '\n', 0).value);
    case EndOfFile(s) =>
      DisconnectKeeps(st, s, st.clients[s].(reading := false));
    case ReadFail(s) =>
      DisconnectKeeps(st, s, st.clients[s].(reading := false));
    case Leave(s, w, n) =>
      SendKeeps(st.clients[s], w, n);
      LocalKeeps(st, s, st.clients[s].Send(w, n));
    case WriteDone(s, w) =>
      CompleteKeeps(st.clients[s], w);
      LocalKeeps(st, s, st.clients[s].Complete(w));
    case WriteFail(s, w) =>
      FailKeeps(st.clients[s], w);
      DisconnectKeeps(st, s, st.clients[s].Fail(w));
    case Consume(t) =>
      ConsumeStepKeeps(st, t);
  }

  lemma {:induction false} RunInv(es: seq<Event>)
    ensures Inv(Run(es))
  {
    if es == [] {
      StartedInv();
    } else {
      RunInv(es[..|es| - 1]);
      if Enabled(Run(es[..|es| - 1]), es[|es| - 1]) {
        StepKeeps(Run(es[..|es| - 1]), es[|es| - 1]);
      }
    }
  }
}
