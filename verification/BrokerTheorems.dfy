/** The broker's promises, over every run. */
module BrokerTheorems {
  import opened Text
  import opened Protocol
  import opened SessionModel
  import opened TopicModel
  import opened BrokerModel
  import opened TraceSpec
  import opened BrokerInvariant

  // ---------------------------------------------------------------- one connection

  lemma {:induction false} ClientAfter(es: seq<Event>, s: nat)
    requires s in Run(es).clients
    ensures ClientInv(Run(es).trace, s, Run(es).clients[s])
    ensures Clean(Run(es).trace)
  {
    RunInv(es);
  }

  /** What a front message cut off after `k` bytes adds to the lines a client can read. */
  lemma CutLine(l: string, k: nat)
    requires Lacks(l, '\n') && k <= |l| + 1
    ensures Lines((l + "\n")[..k]) == if k == |l| + 1 then [l] else []
  {
    var m := l + "\n";
    if k == |m| {
      assert m[..k] == l + "\n" + "";
      LinesCons(l, "");
    } else {
      assert forall j | 0 <= j < k :: m[j] == l[j];
      NoLines(m[..k]);
    }
  }

  /** The complete lines among the bytes written are the first lines owed to the client. */
  lemma WireLines(c: SessionState, owed: seq<string>)
    requires WriteInv(c) && c.delivered == Terminated(owed) && AllLack(owed, '\n')
    ensures Lines(c.wire) <= owed
    ensures c.done <= |Lines(c.wire)|
    ensures c.writes == [] && !c.failed ==> Lines(c.wire) == owed
  {
    var n := c.done;
    assert c.delivered[..n] == Terminated(owed[..n]);
    if c.queue == [] {
      assert owed[..n] == owed;
      WireLinesWhole(c.wire, owed);
    } else {
      var head := Flatten(Terminated(owed[..n]));
      var k: nat :| k <= |c.queue[0]| && c.wire == head + c.queue[0][..k];
      assert c.queue[0] == owed[n] + "\n";
      WireLinesPart(c.wire, owed, n, k);
    }
  }

  lemma WireLinesWhole(wire: string, owed: seq<string>)
    requires AllLack(owed, '\n') && wire == Flatten(Terminated(owed))
    ensures Lines(wire) == owed
  {
    LinesOfTerminated(owed, "");
    assert wire + "" == wire;
  }

  lemma WireLinesPart(wire: string, owed: seq<string>, n: nat, k: nat)
    requires AllLack(owed, '\n') && n < |owed| && k <= |owed[n]| + 1
    requires wire == Flatten(Terminated(owed[..n])) + (owed[n] + "\n")[..k]
    ensures Lines(wire) == owed[..n] || Lines(wire) == owed[..n + 1]
  {
    CutLine(owed[n], k);
    LinesOfTerminated(owed[..n], (owed[n] + "\n")[..k]);
    assert owed[..n] + [owed[n]] == owed[..n + 1];
  }

  /** No write is outstanding and none has failed. */
  predicate Idle(c: SessionState) {
    c.writes == [] && !c.failed
  }

  /** End to end.  Read as the consumer reads them, the bytes written to a client are, in order and with
      nothing lost or repeated, the first of the items the trace owes it: the messages published while it
      was subscribed, among the replies to its own lines.  When no write is outstanding and none has
      failed they are all of them. */
  lemma {:induction false} Delivery(es: seq<Event>, s: nat)
    requires s in Run(es).clients
    ensures var st := Run(es); var c := st.clients[s];
            && ShowAll(Lines(c.wire)) <= ExpectedItems(st.trace, s)
            && c.done <= |Lines(c.wire)|
            && (Idle(c) ==> ShowAll(Lines(c.wire)) == ExpectedItems(st.trace, s))
  {
    WireIsOwed(es, s);
    ExpectedShows(Run(es).trace, s);
  }

  lemma {:induction false} WireIsOwed(es: seq<Event>, s: nat)
    requires s in Run(es).clients
    ensures var st := Run(es); var c := st.clients[s];
            && Clean(st.trace) && Lines(c.wire) <= Expected(st.trace, s) && c.done <= |Lines(c.wire)|
            && (Idle(c) ==> Lines(c.wire) == Expected(st.trace, s))
  {
    var st := Run(es);
    ClientAfter(es, s);
    ExpectedShows(st.trace, s);
    WireLines(st.clients[s], Expected(st.trace, s));
  }

  /** A client that reads on from some point of its stream: `owed[at..]` is what it shows, but that its first
      `damaged` items may show part of a line. */
  ghost predicate ShowsFrom(shown: seq<Item>, owed: seq<Item>, at: nat, damaged: nat) {
    && at + |shown| <= |owed|
    && (|shown| >= damaged ==> shown[damaged..] == owed[at + damaged..at + |shown|])
  }

  /** How many lines a reader that has missed `skipped` can get only in part. */
  function Damaged(skipped: string): (n: nat)
    ensures n == if skipped == "" || skipped[|skipped| - 1] == '\n' then 0 else 1
  {
    TailEmpty(skipped);
    if Tail(skipped) == "" then 0 else 1
  }

  /** The same for a client that starts to read after `skipped` and has received `got` since: it shows the
      items owed to it from there on, and of a line whose beginning it has missed, the rest. */
  lemma {:induction false} DeliveryAfter(es: seq<Event>, s: nat, skipped: string, got: string)
    requires s in Run(es).clients && skipped + got <= Run(es).clients[s].wire
    ensures var st := Run(es); var c := st.clients[s];
            var shown, owed := ShowAll(Lines(got)), ExpectedItems(st.trace, s);
            && ShowsFrom(shown, owed, |Lines(skipped)|, Damaged(skipped))
            && (shown != [] ==> owed[|Lines(skipped)|] == Show(Tail(skipped) + Lines(got)[0]))
            && (skipped + got == c.wire && Idle(c) ==> |Lines(skipped)| + |shown| == |owed|)
  {
    var st := Run(es);
    var lines := Expected(st.trace, s);
    WireIsOwed(es, s);
    ExpectedShows(st.trace, s);
    LinesAppend(skipped, got);
    LinesMonotone(skipped + got, st.clients[s].wire);
    assert Lines(skipped) + Continued(Tail(skipped), Lines(got)) <= lines;
    TailEmpty(skipped);
    LinesFrom(lines, Lines(skipped), Tail(skipped), Lines(got));
  }

  lemma LinesFrom(lines: seq<string>, before: seq<string>, start: string, ls: seq<string>)
    requires before + Continued(start, ls) <= lines
    ensures ShowsFrom(ShowAll(ls), ShowAll(lines), |before|, if start == "" then 0 else 1)
    ensures ls != [] ==> ShowAll(lines)[|before|] == Show(start + ls[0])
  {
    var across := Continued(start, ls);
    SameLines(lines, before, across);
    ShownAgain(start, ls);
  }

  lemma SameLines(lines: seq<string>, before: seq<string>, ls: seq<string>)
    requires before + ls <= lines
    ensures |before| + |ls| <= |lines| && lines[|before|..|before| + |ls|] == ls
    ensures ShowAll(lines)[|before|..|before| + |ls|] == ShowAll(ls)
  {
    assert lines[..|before + ls|] == before + ls;
    assert lines[|before|..|before| + |ls|] == lines[..|before + ls|][|before|..] == ls;
  }

  lemma ShownAgain(start: string, ls: seq<string>)
    ensures ls != [] ==> ShowAll(Continued(start, ls))[1..] == ShowAll(ls)[1..]
    ensures start == "" ==> ShowAll(Continued(start, ls)) == ShowAll(ls)
  {
    if ls != [] {
      assert ls == [ls[0]] + ls[1..];
      ShowAllAppend([start + ls[0]], ls[1..]);
      ShowAllAppend([ls[0]], ls[1..]);
      if start == "" {
        assert start + ls[0] == ls[0];
      }
    }
  }

  /** The write queue machine in every reachable state. */
  lemma WriteQueue(es: seq<Event>, s: nat)
    requires s in Run(es).clients
    ensures WriteInv(Run(es).clients[s])
    ensures Run(es).clients[s].wire <= Flatten(Run(es).clients[s].delivered)
  {
    ClientAfter(es, s);
    WirePrefix(Run(es).clients[s]);
  }

  /** Without its notifications, a client's history is one reply for each of its lines, in order. */
  lemma {:induction false} RequestsAnswered(es: seq<Event>, s: nat)
    requires s in Run(es).clients
    ensures var st := Run(es); var c := st.clients[s];
            c.delivered == Terminated(Expected(st.trace, s))
            && Replies(Expected(st.trace, s)) == RepliesTo(c.lines)
  {
    ClientAfter(es, s);
    RequestReply(Run(es).trace, s);
  }

  /** Every notification delivered for a topic has OK:SUBSCRIBED as the last acknowledgement for that
      topic before it, in the same client's history. */
  lemma {:induction false} NotificationsAreSubscribed(es: seq<Event>, s: nat, i: nat, t: string, p: string)
    requires s in Run(es).clients && Publishable(t)
    requires i < |Run(es).clients[s].delivered|
    requires Run(es).clients[s].delivered[i] == NotificationLine(t, p) + "\n"
    ensures var out := Expected(Run(es).trace, s);
            && i < |out|
            && Terminated(out[..i]) == Run(es).clients[s].delivered[..i]
            && LastAck(out[..i], t) == Some(true)
  {
    ClientAfter(es, s);
    var out := Expected(Run(es).trace, s);
    assert out[i] + "\n" == NotificationLine(t, p) + "\n";
    assert (out[i] + "\n")[..|out[i]|] == out[i];
    NotificationsFollowAcks(Run(es).trace, s, i, t, p);
  }

  lemma LineDelivers(st: BrokerState, s: nat, k: nat, x: nat)
    requires s in st.clients && x in st.clients && k < |st.clients[s].buffer| && WriteInv(st.clients[x])
    ensures x in HandleLine(st, s, k).clients
    ensures HandleLine(st, s, k).clients[x].delivered
         == st.clients[x].delivered + Given(st, s, Parse(st.clients[s].buffer[..k]), x)
  {
    LineAsDeliveries(st, s, k, x);
    var c := if x == s then st.clients[x].TakeLine(k) else st.clients[x];
    assert WriteInv(c) by { assert WriteInv(st.clients[x]); }
    DeliverAllKeeps(c, Given(st, s, Parse(st.clients[s].buffer[..k]), x));
  }

  /** What one line of client `s` brings to a client `x`, in any reachable state: one notification if it
      publishes on a topic that `x` is subscribed to, however often it subscribed, then the reply if `x` is
      `s`; a client subscribed to its own topic sees its message before OK:PUBLISHED. */
  lemma {:induction false} OneLine(es: seq<Event>, s: nat, k: nat, x: nat)
    requires s in Run(es).clients && x in Run(es).clients && Run(es).clients[s].reading
    requires Find(Run(es).clients[s].buffer, '\n', 0) == Some(k)
    ensures var st := Run(es); var d := Run(es + [ReadLine(s)]);
            && x in d.clients
            && d.clients[x].delivered
               == st.clients[x].delivered + Given(st, s, Parse(st.clients[s].buffer[..k]), x)
  {
    RunPush(es, ReadLine(s));
    ClientAfter(es, x);
    LineDelivers(Run(es), s, k, x);
  }

  // ---------------------------------------------------------------- what stays, over continued runs

  lemma RunOn(es: seq<Event>, more: seq<Event>)
    requires more != []
    ensures Run(es + more) == Next(Run(es + more[..|more| - 1]), more[|more| - 1])
  {
    assert es + more == (es + more[..|more| - 1]) + [more[|more| - 1]];
    RunPush(es + more[..|more| - 1], more[|more| - 1]);
  }

  ghost predicate FailKept(c: SessionState, d: SessionState) {
    d.failed && d.writes == [] && d.wire == c.wire
  }

  lemma FailedLine(st: BrokerState, from: nat, k: nat, s: nat)
    requires from in st.clients && s in st.clients && k < |st.clients[from].buffer|
    requires WriteInv(st.clients[s]) && st.clients[s].failed
    ensures var d := HandleLine(st, from, k); s in d.clients && FailKept(st.clients[s], d.clients[s])
  {
    LineAsDeliveries(st, from, k, s);
    var c := if s == from then st.clients[s].TakeLine(k) else st.clients[s];
    var given := Given(st, from, Parse(st.clients[from].buffer[..k]), s);
    assert WriteInv(c) by { assert WriteInv(st.clients[s]); }
    DeliverAllKeeps(c, given);
    DeliverAllFrame(c, given);
  }

  /** How one event can change the session of `s` once its writes have failed. */
  lemma FailedStep(st: BrokerState, e: Event, s: nat)
    requires s in st.clients && WriteInv(st.clients[s]) && st.clients[s].failed
    ensures s in Next(st, e).clients && FailKept(st.clients[s], Next(st, e).clients[s])
  {
    if Enabled(st, e) && e.ReadLine? {
      FailedLine(st, e.client, Find(st.clients[e.client].buffer, '\n', 0).value, s);
    }
  }

  lemma LineAsDeliveries(st: BrokerState, from: nat, k: nat, s: nat)
    requires from in st.clients && s in st.clients && k < |st.clients[from].buffer|
    ensures var d := HandleLine(st, from, k);
            var c := if s == from then st.clients[s].TakeLine(k) else st.clients[s];
            s in d.clients
            && d.clients[s] == c.DeliverAll(Given(st, from, Parse(st.clients[from].buffer[..k]), s))
  {
    var cmd := Parse(st.clients[from].buffer[..k]);
    ProcessDelivers(Taken(st, from, k), from, cmd);
    assert HandleLine(st, from, k) == Process(Taken(st, from, k), from, cmd);
    assert Given(Taken(st, from, k), from, cmd, s) == Given(st, from, cmd, s);
  }

  /** The bytes that arrive from `s`: those of every chunk that finds its read loop live. */
  function Arrived(es: seq<Event>, s: nat): string {
    if es == [] then ""
    else
      var before := es[..|es| - 1];
      Arrived(before, s) + BytesOf(Run(before), es[|es| - 1], s)
  }

  function BytesOf(st: BrokerState, e: Event, s: nat): string {
    if e.Arrive? && e.client == s && s in st.clients && st.clients[s].reading then e.chunk else ""
  }

  lemma InputStep(st: BrokerState, e: Event, s: nat)
    requires s in st.clients
    ensures s in Next(st, e).clients && Next(st, e).clients[s].input == st.clients[s].input + BytesOf(st, e, s)
  {
    if Enabled(st, e) && e.ReadLine? {
      var k := Find(st.clients[e.client].buffer, '\n', 0).value;
      var c := if s == e.client then st.clients[s].TakeLine(k) else st.clients[s];
      LineAsDeliveries(st, e.client, k, s);
      DeliverAllFrame(c, Given(st, e.client, Parse(st.clients[e.client].buffer[..k]), s));
    }
  }

  lemma NewcomerStep(st: BrokerState, e: Event, s: nat)
    requires s !in st.clients && s in Next(st, e).clients
    ensures e == Accept(s) && Next(st, e).clients[s] == OPENED
  {
    if Enabled(st, e) && e.ReadLine? {
      ReadLineFrame(st, e.client, Find(st.clients[e.client].buffer, '\n', 0).value);
    }
  }

  /** A connection is always taken, whatever else goes on. */
  lemma Accepted(es: seq<Event>, s: nat)
    requires s !in Run(es).clients
    ensures var st, d := Run(es), Run(es + [Accept(s)]);
            && d.clients.Keys == st.clients.Keys + {s} && d.sessions == st.sessions + {s}
            && (forall x | x in st.clients :: d.clients[x] == st.clients[x])
            && d.topics == st.topics && d.trace == st.trace
            && d.clients[s].reading && d.clients[s].buffer == "" && d.clients[s].queue == [] && Idle(d.clients[s])
  {
    RunPush(es, Accept(s));
  }

  /** Everything that arrives is received, in order and once. */
  lemma {:induction false} InputIsArrived(es: seq<Event>, s: nat)
    ensures if s in Run(es).clients then Run(es).clients[s].input == Arrived(es, s) else Arrived(es, s) == ""
  {
    if es == [] {
    } else {
      var before := es[..|es| - 1];
      InputIsArrived(before, s);
      if s in Run(before).clients {
        InputStep(Run(before), es[|es| - 1], s);
      } else if s in Run(es).clients {
        NewcomerStep(Run(before), es[|es| - 1], s);
      }
    }
  }

  /** The lines processed for a client are the first lines of what arrived from it, in whatever pieces; all of
      them when no complete line waits in the buffer. */
  lemma {:induction false} Reception(es: seq<Event>, s: nat)
    requires s in Run(es).clients
    ensures var st := Run(es); var buffer := st.clients[s].buffer;
            && Lines(Arrived(es, s)) == LinesOf(st.trace, s) + Lines(buffer)
            && (Lacks(buffer, '\n') ==> LinesOf(st.trace, s) == Lines(Arrived(es, s)))
  {
    InputIsArrived(es, s);
    ClientAfter(es, s);
    Framing(Run(es).clients[s]);
  }

  /** After a failed write no write ever starts again: not a byte more leaves for that client, whatever
      happens later. */
  lemma {:induction false} FailureIsFinal(es: seq<Event>, more: seq<Event>, s: nat)
    requires s in Run(es).clients && Run(es).clients[s].failed
    ensures var c, d := Run(es).clients[s], Run(es + more);
            s in d.clients && d.clients[s].failed && d.clients[s].writes == [] && d.clients[s].wire == c.wire
    decreases |more|
  {
    if more == [] {
      assert es + more == es;
      ClientAfter(es, s);
    } else {
      FailureIsFinal(es, more[..|more| - 1], s);
      ClientAfter(es + more[..|more| - 1], s);
      RunOn(es, more);
      FailedStep(Run(es + more[..|more| - 1]), more[|more| - 1], s);
    }
  }

  /** What one event leaves of a session whose read loop has ended. */
  ghost predicate DeadKept(c: SessionState, d: SessionState) {
    && !d.reading && d.delivered == c.delivered && d.lines == c.lines
    && d.input == c.input && d.buffer == c.buffer
    && (d.queue == c.queue || (c.queue != [] && d.queue == c.queue[1..]))
  }

  lemma DeadLine(st: BrokerState, from: nat, k: nat, s: nat)
    requires SubsInv(st) && from in st.clients && s in st.clients && k < |st.clients[from].buffer|
    requires st.clients[from].reading && !st.clients[s].reading
    ensures var d := HandleLine(st, from, k); s in d.clients && d.clients[s] == st.clients[s]
  {
    var cmd := Parse(st.clients[from].buffer[..k]);
    LineAsDeliveries(st, from, k, s);
    if cmd.Publish? {
      assert SubInv(st, s, cmd.topic);
    }
    assert Given(st, from, cmd, s) == [];
  }

  lemma DeadStep(st: BrokerState, e: Event, s: nat)
    requires SubsInv(st) && s in st.clients && WriteInv(st.clients[s]) && !st.clients[s].reading
    ensures s in Next(st, e).clients && DeadKept(st.clients[s], Next(st, e).clients[s])
  {
    if Enabled(st, e) {
      match e
      case ReadLine(from) => DeadLine(st, from, Find(st.clients[from].buffer, '\n', 0).value, s);
      case WriteDone(x, w) => if x == s { CompleteKeeps(st.clients[s], w); }
      case _ =>
    }
  }

  /** What a run leaves of a session whose read loop has ended. */
  ghost predicate DeadSince(c: SessionState, d: SessionState) {
    && !d.reading && d.delivered == c.delivered && d.lines == c.lines
    && d.input == c.input && d.buffer == c.buffer
    && |d.queue| <= |c.queue|
    && d.queue == c.queue[|c.queue| - |d.queue|..]
  }

  lemma DeadSinceKept(c: SessionState, m: SessionState, d: SessionState)
    requires DeadSince(c, m) && DeadKept(m, d)
    ensures DeadSince(c, d)
  {
  }

  lemma DeadFacts(es: seq<Event>, s: nat)
    requires s in Run(es).clients
    ensures SubsInv(Run(es)) && WriteInv(Run(es).clients[s])
  {
    RunInv(es);
    assert ClientInv(Run(es).trace, s, Run(es).clients[s]);
  }

  lemma {:induction false} DeadHistory(es: seq<Event>, more: seq<Event>, s: nat)
    requires s in Run(es).clients && !Run(es).clients[s].reading
    ensures s in Run(es + more).clients && DeadSince(Run(es).clients[s], Run(es + more).clients[s])
    decreases |more|
  {
    if more == [] {
      assert es + more == es;
    } else {
      var mid := es + more[..|more| - 1];
      DeadHistory(es, more[..|more| - 1], s);
      DeadFacts(mid, s);
      RunOn(es, more);
      DeadStep(Run(mid), more[|more| - 1], s);
      DeadSinceKept(Run(es).clients[s], Run(mid).clients[s], Run(es + more).clients[s]);
    }
  }

  lemma {:induction false} DeadIsGone(st: BrokerState, s: nat)
    requires Inv(st) && s in st.clients && !st.clients[s].reading
    ensures s !in st.sessions && forall t :: s !in st.topics.Subscribers(t)
  {
    assert ClientInv(st.trace, s, st.clients[s]);
    forall t ensures s !in st.topics.Subscribers(t) {
      assert SubInv(st, s, t);
    }
  }

  /** Once a client's read has failed: it is in no subscription set and not among the sessions, nothing is
      delivered to it or received from it any more, and its queue only ever loses messages from the front. */
  lemma {:induction false} DeadReader(es: seq<Event>, more: seq<Event>, s: nat)
    requires s in Run(es).clients && !Run(es).clients[s].reading
    ensures var d := Run(es + more);
            && s in d.clients && DeadSince(Run(es).clients[s], d.clients[s])
            && s !in d.sessions && (forall t :: s !in d.topics.Subscribers(t))
  {
    DeadHistory(es, more, s);
    RunInv(es + more);
    DeadIsGone(Run(es + more), s);
  }

  lemma EndOfFileStep(st: BrokerState, s: nat)
    requires Enabled(st, EndOfFile(s))
    ensures var d := Next(st, EndOfFile(s));
            s in d.clients && d.clients[s] == st.clients[s].(reading := false)
  {
  }

  /** A client whose stream came to its end has had every complete line that it ever sent processed, then
      and in every continuation of the run. */
  lemma {:induction false} AllReadAtEndOfFile(es: seq<Event>, more: seq<Event>, s: nat)
    requires Enabled(Run(es), EndOfFile(s))
    ensures var d := Run(es + [EndOfFile(s)] + more);
            && s in d.clients && Arrived(es + [EndOfFile(s)] + more, s) == Arrived(es, s)
            && LinesOf(d.trace, s) == Lines(Arrived(es, s))
  {
    RunPush(es, EndOfFile(s));
    EndOfFileStep(Run(es), s);
    DeadHistory(es + [EndOfFile(s)], more, s);
    Reception(es + [EndOfFile(s)] + more, s);
    InputIsArrived(es, s);
    InputIsArrived(es + [EndOfFile(s)] + more, s);
  }

  /** The writes that empty a client's queue: the rest of each message leaves and its write completes. */
  function Drain(s: nat, sent: nat, queue: seq<string>): seq<Event>
    requires queue != [] ==> sent <= |queue[0]|
    decreases |queue|
  {
    if queue == [] then []
    else [Leave(s, 0, |queue[0]| - sent), WriteDone(s, 0)] + Drain(s, 0, queue[1..])
  }

  /** How many bytes of the front message have left. */
  function FrontSent(c: SessionState): nat {
    if c.writes == [] then 0 else c.writes[0].sent
  }

  /** A session with everything written. */
  function Written(c: SessionState): SessionState {
    c.(queue := [], writes := [], done := |c.delivered|, wire := Flatten(c.delivered))
  }

  /** A run that goes on from a state. */
  function RunFrom(st: BrokerState, es: seq<Event>): BrokerState
    decreases |es|
  {
    if es == [] then st else RunFrom(Next(st, es[0]), es[1..])
  }

  lemma {:induction false} RunSplit(es: seq<Event>, more: seq<Event>)
    ensures Run(es + more) == RunFrom(Run(es), more)
    decreases |more|
  {
    if more == [] {
      assert es + more == es;
    } else {
      RunPush(es, more[0]);
      RunSplit(es + [more[0]], more[1..]);
      assert es + more == es + [more[0]] + more[1..];
    }
  }

  lemma RunFromTwo(st: BrokerState, a: Event, b: Event, rest: seq<Event>)
    ensures RunFrom(st, [a, b] + rest) == RunFrom(Next(Next(st, a), b), rest)
  {
  }

  lemma DrainSession(c: SessionState)
    requires WriteInv(c) && c.writes != []
    ensures c.queue != [] && FrontSent(c) <= |c.queue[0]| && c.CanSend(0, |c.queue[0]| - FrontSent(c))
    ensures c.Send(0, |c.queue[0]| - FrontSent(c)).CanComplete(0)
    ensures var d := c.Send(0, |c.queue[0]| - FrontSent(c)).Complete(0);
            && WriteInv(d) && !d.failed && d.queue == c.queue[1..] && FrontSent(d) == 0 && Written(d) == Written(c)
  {
    var mid := c.Send(0, |c.queue[0]| - FrontSent(c));
    SendKeeps(c, 0, |c.queue[0]| - FrontSent(c));
    CompleteKeeps(mid, 0);
  }

  lemma DrainNext(st: BrokerState, s: nat) returns (d: SessionState)
    requires s in st.clients && st.clients[s].writes != [] && WriteInv(st.clients[s])
    ensures var c := st.clients[s];
            && c.queue != [] && FrontSent(c) <= |c.queue[0]|
            && WriteInv(d) && !d.failed && d.queue == c.queue[1..] && FrontSent(d) == 0 && Written(d) == Written(c)
            && Next(Next(st, Leave(s, 0, |c.queue[0]| - FrontSent(c))), WriteDone(s, 0)) == Update(st, s, d)
  {
    var c := st.clients[s];
    DrainSession(c);
    d := c.Send(0, |c.queue[0]| - FrontSent(c)).Complete(0);
  }

  lemma DrainUnfolds(st: BrokerState, s: nat, sent: nat, queue: seq<string>)
    requires queue != [] && sent <= |queue[0]|
    ensures RunFrom(st, Drain(s, sent, queue))
         == RunFrom(Next(Next(st, Leave(s, 0, |queue[0]| - sent)), WriteDone(s, 0)), Drain(s, 0, queue[1..]))
  {
    RunFromTwo(st, Leave(s, 0, |queue[0]| - sent), WriteDone(s, 0), Drain(s, 0, queue[1..]));
  }

  lemma DrainFirst(st: BrokerState, s: nat) returns (d: SessionState)
    requires s in st.clients && st.clients[s].writes != []
    requires WriteInv(st.clients[s]) && !st.clients[s].failed
    ensures var c := st.clients[s];
            && c.queue != [] && FrontSent(c) <= |c.queue[0]|
            && WriteInv(d) && !d.failed && d.queue == c.queue[1..] && FrontSent(d) == 0 && Written(d) == Written(c)
            && RunFrom(st, Drain(s, FrontSent(c), c.queue)) == RunFrom(Update(st, s, d), Drain(s, 0, d.queue))
  {
    var c := st.clients[s];
    d := DrainNext(st, s);
    DrainUnfolds(st, s, FrontSent(c), c.queue);
  }

  lemma {:induction false} DrainFrom(st: BrokerState, s: nat)
    requires s in st.clients && WriteInv(st.clients[s]) && !st.clients[s].failed
    ensures var c := st.clients[s];
            && (c.queue != [] ==> FrontSent(c) <= |c.queue[0]|)
            && RunFrom(st, Drain(s, FrontSent(c), c.queue)) == Update(st, s, Written(c))
    decreases |st.clients[s].queue|
  {
    var c := st.clients[s];
    if c.writes == [] {
      WrittenAlready(c);
    } else {
      var d := DrainFirst(st, s);
      DrainFrom(Update(st, s, d), s);
      UpdateTwice(st, s, d, Written(c));
    }
  }

  lemma WrittenAlready(c: SessionState)
    requires WriteInv(c) && c.writes == [] && !c.failed
    ensures Written(c) == c && c.queue == []
  {
    assert c.delivered[..c.done] == c.delivered;
  }

  lemma UpdateTwice(st: BrokerState, s: nat, c: SessionState, d: SessionState)
    ensures Update(Update(st, s, c), s, d) == Update(st, s, d)
  {
    assert st.clients[s := c][s := d] == st.clients[s := d];
  }

  /** Nothing is ever stuck: from any reachable state a client without a failed write has its whole queue
      written if its writes are allowed to complete; nothing else changes, and the client has then received
      everything owed to it. */
  lemma {:induction false} Drained(es: seq<Event>, s: nat)
    requires s in Run(es).clients && !Run(es).clients[s].failed
    ensures var st := Run(es); var c := st.clients[s];
            && (c.queue != [] ==> FrontSent(c) <= |c.queue[0]|)
            && Run(es + Drain(s, FrontSent(c), c.queue)) == Update(st, s, Written(c))
            && ShowAll(Lines(Flatten(c.delivered))) == ExpectedItems(st.trace, s)
  {
    var c := Run(es).clients[s];
    var owed := Expected(Run(es).trace, s);
    ClientAfter(es, s);
    ExpectedShows(Run(es).trace, s);
    WireLinesWhole(Flatten(c.delivered), owed);
    DrainFrom(Run(es), s);
    RunSplit(es, Drain(s, FrontSent(c), c.queue));
  }
}
