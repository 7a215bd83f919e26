/** The promises about topics, over every run: what the queues hold, who is subscribed, what the counts say. */
module TopicTheorems {
  import opened Text
  import opened Protocol
  import opened SessionModel
  import opened TopicModel
  import opened BrokerModel
  import opened TraceSpec
  import opened BrokerInvariant
  import opened BrokerTheorems

  /** Conservation and sequencing over every run: per topic, consumed and then queued is exactly what the
      processed PUBLISH lines put there, in order; the numbers are those of `Sequencing` until the counter
      wraps around. */
  lemma {:induction false} QueuesConserved(es: seq<Event>)
    ensures var st := Run(es);
            && Pairs(st.topics.log) == Published(st.trace)
            && (forall t :: st.topics.Consumed(t) + st.topics.Queued(t) == OnTopic(st.topics.log, t))
            && Counted(st.topics)
  {
    RunInv(es);
    var st := Run(es);
    forall t ensures st.topics.Consumed(t) + st.topics.Queued(t) == OnTopic(st.topics.log, t) {
      assert Conserved(st.topics, t);
    }
  }

  /** How many messages of `t` a run consumes: each `Consume` takes one if one is left. */
  function TakenOf(es: seq<Event>, t: string): nat {
    if es == [] then 0
    else
      var before := es[..|es| - 1];
      var n := TakenOf(before, t);
      if es[|es| - 1] == Consume(t) && n < |OnTopic(Run(before).topics.log, t)| then n + 1 else n
  }

  /** So in every run the messages consumed on a topic are the first that many published on it. */
  lemma {:induction false} ConsumedInOrder(es: seq<Event>, t: string)
    ensures |Run(es).topics.Consumed(t)| == TakenOf(es, t)
    ensures Run(es).topics.Consumed(t) <= OnTopic(Run(es).topics.log, t)
  {
    QueuesConserved(es);
    if es == [] {
    } else {
      var before, e := es[..|es| - 1], es[|es| - 1];
      ConsumedInOrder(before, t);
      QueuesConserved(before);
      ConsumedStep(Run(before), e, t);
    }
  }

  lemma ConsumedStep(st: BrokerState, e: Event, t: string)
    ensures Next(st, e).topics.Consumed(t)
         == st.topics.Consumed(t)
            + if e == Consume(t) && st.topics.Queued(t) != [] then [st.topics.Queued(t)[0]] else []
  {
    if Enabled(st, e) && e.ReadLine? {
      ReadLineFrame(st, e.client, Find(st.clients[e.client].buffer, '\n', 0).value);
    }
  }

  lemma SequencesOnce(es: seq<Event>)
    requires |Run(es).topics.log| <= 0x1_0000_0000_0000_0000
    ensures var s := Run(es).topics;
            && (forall t :: Increasing(s.Consumed(t) + s.Queued(t)))
            && (forall n: nat :: Present(s, n) <==> n < |s.log|)
            && (forall t: string, k: nat, u: string, l: nat, n: nat ::
                  Holds(s, t, k, n) && Holds(s, u, l, n) ==> t == u && k == l)
  {
    RunInv(es);
    Sequencing(Run(es).topics);
  }

  lemma {:induction false} PublishedTopics(trace: seq<Input>, i: nat)
    requires Clean(trace) && i < |Published(trace)|
    ensures Publishable(Published(trace)[i].0) && Lacks(Published(trace)[i].0, '\n')
  {
    var n := |trace| - 1;
    if i < |Published(trace[..n])| {
      PublishedTopics(trace[..n], i);
    } else {
      LinesStayLines(trace[n].text);
    }
  }

  lemma {:induction false} OnTopicFrom(log: seq<Stored>, t: string)
    requires OnTopic(log, t) != []
    ensures exists i :: 0 <= i < |log| && log[i].topic == t
  {
    if log[|log| - 1].topic != t {
      OnTopicFrom(log[..|log| - 1], t);
    }
  }

  /** Every topic that has a queue is non-empty and free of colons and newlines. */
  lemma {:induction false} TopicAlphabet(es: seq<Event>, t: string)
    requires t in Run(es).topics.queues
    ensures t != "" && Lacks(t, ':') && Lacks(t, '\n')
  {
    RunInv(es);
    var st := Run(es);
    assert Conserved(st.topics, t);
    OnTopicFrom(st.topics.log, t);
    var i :| 0 <= i < |st.topics.log| && st.topics.log[i].topic == t;
    assert Pairs(st.topics.log)[i].0 == t;
    PublishedTopics(st.trace, i);
  }

  lemma {:induction false} SubscribedMeansAsked(trace: seq<Input>, s: nat, t: string)
    requires Subscribed(trace, s, t)
    ensures exists line :: line in LinesOf(trace, s) && Parse(line) == Subscribe(t)
  {
    var n := |trace| - 1;
    if Decides(trace[n], s, t).None? {
      SubscribedMeansAsked(trace[..n], s, t);
    } else {
      assert trace[n].text in LinesOf(trace, s);
    }
  }

  lemma {:induction false} SilentTrace(trace: seq<Input>, s: nat)
    requires forall line, t :: line in LinesOf(trace, s) && Parse(line) == Subscribe(t) ==> !Publishable(t)
    ensures forall i | 0 <= i < |Expected(trace, s)| :: !("MESSAGE:" <= Expected(trace, s)[i])
  {
    if trace == [] {
    } else {
      var n := |trace| - 1;
      assert forall line :: line in LinesOf(trace[..n], s) ==> line in LinesOf(trace, s);
      SilentTrace(trace[..n], s);
      if trace[n].Line? {
        var cmd := Parse(trace[n].text);
        RepliesAreNotNotifications(cmd);
        if cmd.Publish? && Subscribed(trace[..n], s, cmd.topic) {
          PublishAcceptance(trace[n].text, cmd.topic, cmd.payload);
          SubscribedMeansAsked(trace[..n], s, cmd.topic);
        }
      }
    }
  }

  /** A subscription to a topic with a colon in it is accepted and acknowledged, but no PUBLISH can name
      that topic: a client that has only such subscriptions is never sent a notification. */
  lemma {:induction false} ColonTopicsAreSilent(es: seq<Event>, s: nat)
    requires s in Run(es).clients
    requires forall line, t :: line in Run(es).clients[s].lines && Parse(line) == Subscribe(t) ==> !Lacks(t, ':')
    ensures forall i | 0 <= i < |Run(es).clients[s].delivered| :: !("MESSAGE:" <= Run(es).clients[s].delivered[i])
  {
    ClientAfter(es, s);
    var trace := Run(es).trace;
    SilentTrace(trace, s);
    forall i | 0 <= i < |Expected(trace, s)| ensures !("MESSAGE:" <= Terminated(Expected(trace, s))[i]) {
      HeadOfLine(Expected(trace, s)[i]);
    }
  }

  lemma HeadOfLine(line: string)
    ensures "MESSAGE:" <= line + "\n" <==> "MESSAGE:" <= line
  {
    var m := line + "\n";
    assert |m| >= 8 ==> m[7] == if |line| == 7 then '\n' else line[7];
    assert |line| >= 8 ==> m[..8] == line[..8];
  }

  // ---------------------------------------------------------------- counts

  /** The subscription map is the relation of the trace, and its sets are its exact fibres. */
  lemma SubscriptionsRefine(es: seq<Event>, t: string)
    ensures forall x :: x in Run(es).topics.Subscribers(t) <==> Subscribed(Run(es).trace, x, t)
    ensures forall x :: x in Run(es).topics.Subscribers(t) ==> x in Run(es).clients && Run(es).clients[x].reading
  {
    RunInv(es);
    Fibre(Run(es), t);
  }

  lemma Fibre(st: BrokerState, t: string)
    requires SubsInv(st)
    ensures forall x :: x in st.topics.Subscribers(t) <==> Subscribed(st.trace, x, t)
    ensures forall x :: x in st.topics.Subscribers(t) ==> x in st.clients && st.clients[x].reading
  {
    forall x: nat
      ensures x in st.topics.Subscribers(t) <==> Subscribed(st.trace, x, t)
      ensures x in st.topics.Subscribers(t) ==> x in st.clients && st.clients[x].reading {
      assert SubInv(st, x, t);
    }
  }

  /** Active sessions are those accepted whose disconnect has not been handled. */
  lemma {:induction false} ActiveSessions(es: seq<Event>, s: nat)
    ensures var st := Run(es); s in st.sessions <==> s in st.clients && Gone(s) !in st.trace
    ensures var st := Run(es); s in st.sessions ==> st.clients[s].reading && !st.clients[s].failed
  {
    RunInv(es);
    var st := Run(es);
    if s in st.sessions {
      assert ClientInv(st.trace, s, st.clients[s]);
    }
  }

  /** The keys of the subscription map are the entries that the trace says are kept. */
  ghost predicate ListedInv(st: BrokerState) {
    forall t :: t in st.topics.subs <==> Listed(st.trace, t)
  }

  lemma LiveIsFibre(st: BrokerState, t: string)
    requires SubsInv(st)
    ensures Live(st.trace, t) <==> st.topics.Subscribers(t) != {}
  {
    Fibre(st, t);
    if st.topics.Subscribers(t) != {} {
      var s :| s in st.topics.Subscribers(t);
      assert Subscribed(st.trace, s, t);
    }
  }

  /** What a command does to the entry for `t`. */
  lemma EntryAfter(st: BrokerState, s: nat, cmd: Command, t: string)
    ensures var topics := Effect(st, s, cmd).topics;
            t in topics.subs
            <==> cmd == Subscribe(t)
                 || (t in st.topics.subs && (cmd == Unsubscribe(t) ==> topics.Subscribers(t) != {}))
  {
  }

  lemma ListedAfterLine(st: BrokerState, d: BrokerState, s: nat, text: string, t: string)
    requires SubsInv(d) && (t in st.topics.subs <==> Listed(st.trace, t))
    requires d.trace == st.trace + [Line(s, text)] && d.topics == Effect(st, s, Parse(text)).topics
    ensures t in d.topics.subs <==> Listed(d.trace, t)
  {
    assert d.trace[..|d.trace| - 1] == st.trace;
    LiveIsFibre(d, t);
    EntryAfter(st, s, Parse(text), t);
  }

  lemma ListedAfterGone(st: BrokerState, d: BrokerState, s: nat)
    requires ListedInv(st)
    requires d.trace == st.trace + [Gone(s)] && d.topics.subs.Keys == st.topics.subs.Keys
    ensures ListedInv(d)
  {
    assert d.trace[..|d.trace| - 1] == st.trace;
  }

  lemma ListedStep(st: BrokerState, e: Event)
    requires ListedInv(st) && SubsInv(Next(st, e))
    ensures ListedInv(Next(st, e))
  {
    var d := Next(st, e);
    if Enabled(st, e) {
      match e
      case ReadLine(s) =>
        var k := Find(st.clients[s].buffer, '\n', 0).value;
        ReadLineFrame(st, s, k);
        forall t ensures t in d.topics.subs <==> Listed(d.trace, t) {
          ListedAfterLine(st, d, s, st.clients[s].buffer[..k], t);
        }
      case EndOfFile(s) => ListedAfterGone(st, d, s);
      case ReadFail(s) => ListedAfterGone(st, d, s);
      case WriteFail(s, _) => ListedAfterGone(st, d, s);
      case _ =>
    }
  }

  /** In every run the map has an entry for a topic exactly when the trace says so. */
  lemma {:induction false} EntriesListed(es: seq<Event>)
    ensures forall t :: t in Run(es).topics.subs <==> Listed(Run(es).trace, t)
  {
    if es == [] {
    } else {
      EntriesListed(es[..|es| - 1]);
      RunInv(es);
      ListedStep(Run(es[..|es| - 1]), es[|es| - 1]);
    }
  }

  lemma LiveTopicsLive(st: BrokerState)
    requires SubsInv(st)
    ensures forall t :: t in LiveTopics(st.topics) <==> Live(st.trace, t)
  {
    forall t ensures t in LiveTopics(st.topics) <==> Live(st.trace, t) {
      LiveIsFibre(st, t);
    }
  }

  lemma CountsAgree(st: BrokerState)
    requires SubsInv(st) && ListedInv(st)
    ensures |LiveTopics(st.topics)| <= |st.topics.subs|
    ensures |st.topics.subs| == |LiveTopics(st.topics)| <==> forall t :: Listed(st.trace, t) ==> Live(st.trace, t)
  {
    TopicCount(st.topics);
    LiveTopicsLive(st);
    assert forall t :: t in st.topics.subs && st.topics.subs[t] != {} <==> t in LiveTopics(st.topics);
  }

  /** `get_topic_count` is at least the number of topics that have a subscriber, and equals it exactly when
      no topic that a disconnect emptied is still listed.  In a run without disconnects that is always so. */
  lemma {:induction false} TopicCountExact(es: seq<Event>)
    ensures var st := Run(es);
            && (forall t :: t in LiveTopics(st.topics) <==> Live(st.trace, t))
            && |LiveTopics(st.topics)| <= |st.topics.subs|
            && (|st.topics.subs| == |LiveTopics(st.topics)| <==> forall t :: Listed(st.trace, t) ==> Live(st.trace, t))
            && (NoneGone(st.trace) ==> |st.topics.subs| == |LiveTopics(st.topics)|)
  {
    var st := Run(es);
    RunInv(es);
    EntriesListed(es);
    LiveTopicsLive(st);
    CountsAgree(st);
    if NoneGone(st.trace) {
      forall t | Listed(st.trace, t) ensures Live(st.trace, t) {
        ListedIsLive(st.trace, t);
      }
    }
  }

  lemma LeftoverStep(st: BrokerState, s: nat, t: string)
    requires SubInv(st, s, t) && t in st.topics.subs && st.topics.subs[t] == {s}
    ensures var d := Next(st, ReadFail(s)).topics; t in d.subs && d.subs[t] == {}
  {
  }

  /** A disconnect leaves the topics it empties in the map, where `get_topic_count` goes on counting them. */
  lemma {:induction false} LeftoverTopic(es: seq<Event>, s: nat, t: string)
    requires t in Run(es).topics.subs && Run(es).topics.subs[t] == {s}
    ensures var d := Run(es + [ReadFail(s)]).topics;
            t in d.subs && d.subs[t] == {} && |d.subs| > |LiveTopics(d)|
  {
    assert SubInv(Run(es), s, t) by { RunInv(es); }
    RunPush(es, ReadFail(s));
    LeftoverStep(Run(es), s, t);
    TopicCount(Run(es + [ReadFail(s)]).topics);
  }

  const ASKS_FOR_A: seq<Event> := [Accept(0), Arrive(0, "SUBSCRIBE:a\n"), ReadLine(0)]

  lemma TakesA(st: BrokerState)
    requires st == Update(STARTED, 0, OPENED.Receive("SUBSCRIBE:a\n")).(sessions := {0})
    ensures Next(st, ReadLine(0)).topics.subs == map["a" := {0}]
  {
    var text := "SUBSCRIBE:a";
    var c := st.clients[0];
    assert c.buffer == text + "\n";
    FindFirst(c.buffer, '\n', 0, |text|);
    assert c.buffer[..|text|] == text == "SUBSCRIBE:" + "a";
    SubscribeAcceptance(text, "a");
    ReadLineFrame(st, 0, |text|);
    assert Enabled(st, ReadLine(0)) && Next(st, ReadLine(0)) == HandleLine(st, 0, |text|);
    assert Effect(st, 0, Subscribe("a")).topics == NO_TOPICS.Subscribe("a", 0);
    assert NO_TOPICS.Subscribe("a", 0).subs["a"] == {0};
  }

  lemma AsksForA()
    ensures Run(ASKS_FOR_A).topics.subs == map["a" := {0}]
  {
    var e1, e2, e3 := Accept(0), Arrive(0, "SUBSCRIBE:a\n"), ReadLine(0);
    RunPush([], e1);
    RunPush([e1], e2);
    RunPush([e1, e2], e3);
    assert [] + [e1] == [e1] && [e1] + [e2] == [e1, e2] && [e1, e2] + [e3] == ASKS_FOR_A;
    TakesA(Run([e1, e2]));
  }

  /** One subscription and one lost connection are enough for the two numbers to differ. */
  lemma TopicCountCanExceed()
    ensures exists es :: |Run(es).topics.subs| > |LiveTopics(Run(es).topics)|
  {
    AsksForA();
    LeftoverTopic(ASKS_FOR_A, 0, "a");
  }

  // ---------------------------------------------------------------- fan-out

  /** Delivering to one session after the other. */
  function DeliverInOrder(clients: map<nat, SessionState>, order: seq<nat>, message: string): map<nat, SessionState>
    requires forall s | s in order :: s in clients
    decreases |order|
  {
    if order == [] then clients
    else DeliverInOrder(clients[order[0] := clients[order[0]].Deliver(message)], order[1..], message)
  }

  /** The set of subscribers has no order, and needs none: visiting each subscriber once, in any order,
      ends in the same state. */
  lemma {:induction false} FanOutInAnyOrder(
      clients: map<nat, SessionState>, order: seq<nat>, to: set<nat>, message: string)
    requires forall s | s in order :: s in clients
    requires forall i, j | 0 <= i < j < |order| :: order[i] != order[j]
    requires to == set s | s in order
    ensures DeliverInOrder(clients, order, message) == Broadcast(clients, to, message)
    decreases |order|
  {
    if order == [] {
      assert Broadcast(clients, to, message) == clients;
    } else {
      var s := order[0];
      var step := clients[s := clients[s].Deliver(message)];
      assert s !in order[1..] && to - {s} == set x | x in order[1..];
      FanOutInAnyOrder(step, order[1..], to - {s}, message);
      assert Broadcast(step, to - {s}, message) == Broadcast(clients, to, message);
    }
  }
}
