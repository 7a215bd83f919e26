/** From a logger's call to a consumer's screen, over every run of the broker between them. */
module LogPipeline {
  import opened Text
  import opened Protocol
  import opened SessionModel
  import opened BrokerModel
  import opened TraceSpec
  import opened BrokerInvariant
  import opened BrokerTheorems
  import opened Logger
  import opened Writes

  // ---------------------------------------------------------------- logger to broker

  lemma LoggedLines(c: SessionState, ls: seq<string>)
    requires ReadInv(c) && AllLack(ls, '\n') && c.input <= Flatten(Terminated(ls))
    ensures ParseAll(c.lines) <= ParseAll(ls)
    ensures c.input == Flatten(Terminated(ls)) && Lacks(c.buffer, '\n') ==> ParseAll(c.lines) == ParseAll(ls)
  {
    StreamProcessed(c, ls);
    assert c.lines <= ls;
  }

  /** What a client has sent so far comes from the lines `lo` to `hi` of a logger's calls: the part of them
      that went out on its connection. */
  ghost predicate Logs(st: BrokerState, s: nat, service: string, cs: seq<LogCall>, lo: nat, hi: nat) {
    && s in st.clients && Tame(service, cs) && lo <= hi <= |StreamLines(service, cs)|
    && st.clients[s].input <= Flatten(Terminated(StreamLines(service, cs)[lo..hi]))
  }

  /** All of it has arrived, and every line of it was taken from the buffer. */
  ghost predicate LogsRead(st: BrokerState, s: nat, service: string, cs: seq<LogCall>, lo: nat, hi: nat) {
    && Logs(st, s, service, cs, lo, hi)
    && st.clients[s].input == Flatten(Terminated(StreamLines(service, cs)[lo..hi]))
    && Lacks(st.clients[s].buffer, '\n')
  }

  /** A logger makes such a client: calls one after the other, of whose sends `lo` to `hi` are a stretch on
      one connection, and at the other end whatever has arrived of the bytes that left in it. */
  lemma LoggerLogs(
      k: Link, service: string, cs: seq<LogCall>, oss: seq<seq<Answer>>, lo: nat, hi: nat, st: BrokerState, s: nat)
    requires LinkInv(k) && Answers(cs, oss) && Tame(service, cs) && s in st.clients
    requires |Joined(oss)| == |StreamLines(service, cs)| && lo <= hi <= |StreamLines(service, cs)|
    requires var ls, os := StreamLines(service, cs), Joined(oss);
             var m, d := Reached(k, ls, os, lo), Reached(k, ls, os, hi);
             && OneStretch(m, Terminated(ls[lo..hi]), os[lo..hi])
             && |m.sent| <= |d.sent| && st.clients[s].input <= Left(SentSince(m, d))
    ensures Logs(st, s, service, cs, lo, hi)
    ensures hi == |StreamLines(service, cs)| ==>
              Reached(k, StreamLines(service, cs), Joined(oss), hi) == Logged(k, service, cs, oss)
  {
    var ls, os := StreamLines(service, cs), Joined(oss);
    ReachedOn(k, ls, os, lo, hi);
    StretchLeaves(Reached(k, ls, os, lo), Terminated(ls[lo..hi]), os[lo..hi]);
    LoggedIsStream(k, service, cs, oss);
    if hi == |ls| {
      assert ls[..hi] == ls && os[..hi] == os;
    }
  }

  lemma SegmentIsItsCommands(service: string, cs: seq<LogCall>, lo: nat, hi: nat)
    requires Tame(service, cs) && lo <= hi <= |StreamLines(service, cs)|
    ensures |StreamCommands(service, cs)| == |StreamLines(service, cs)|
    ensures AllLack(StreamLines(service, cs)[lo..hi], '\n')
    ensures ParseAll(StreamLines(service, cs)[lo..hi]) == StreamCommands(service, cs)[lo..hi]
  {
    StreamIsItsCommands(service, cs);
  }

  /** However far a logger's stream has arrived, in whatever chunks and cut wherever, the commands the broker
      has processed for it are the first of its calls' commands; all of them once it has all been read. */
  lemma {:induction false} LoggedCommands(
      es: seq<Event>, s: nat, service: string, cs: seq<LogCall>, lo: nat, hi: nat)
    requires Logs(Run(es), s, service, cs, lo, hi)
    ensures |StreamCommands(service, cs)| == |StreamLines(service, cs)|
    ensures ParseAll(Run(es).clients[s].lines) <= StreamCommands(service, cs)[lo..hi]
    ensures LogsRead(Run(es), s, service, cs, lo, hi) ==>
              ParseAll(Run(es).clients[s].lines) == StreamCommands(service, cs)[lo..hi]
  {
    ClientAfter(es, s);
    SegmentIsItsCommands(service, cs, lo, hi);
    LoggedLines(Run(es).clients[s], StreamLines(service, cs)[lo..hi]);
  }

  // ---------------------------------------------------------------- payloads on a topic

  /** The payloads of the commands that publish on `t`. */
  function PayloadsOn(cmds: seq<Command>, t: string): seq<string> {
    if cmds == [] then []
    else
      var n := |cmds| - 1;
      PayloadsOn(cmds[..n], t)
      + (match cmds[n]
         case Publish(u, p) => if u == t then [p] else []
         case _ => [])
  }

  /** The payloads of the messages on `t` that lines of client `a` have caused. */
  function MessagesFrom(owed: seq<Owed>, a: nat, t: string): seq<string> {
    if owed == [] then []
    else
      var n := |owed| - 1;
      MessagesFrom(owed[..n], a, t)
      + (match owed[n]
         case Owed(from, Message(u, p)) => if from == a && u == t then [p] else []
         case _ => [])
  }

  lemma {:induction false} PayloadsAppend(x: seq<Command>, y: seq<Command>, t: string)
    ensures PayloadsOn(x + y, t) == PayloadsOn(x, t) + PayloadsOn(y, t)
    decreases |y|
  {
    if y == [] {
      assert x + y == x;
    } else {
      PayloadsAppend(x, y[..|y| - 1], t);
      assert (x + y)[..|x + y| - 1] == x + y[..|y| - 1];
    }
  }

  lemma {:induction false} MessagesAppend(x: seq<Owed>, y: seq<Owed>, a: nat, t: string)
    ensures MessagesFrom(x + y, a, t) == MessagesFrom(x, a, t) + MessagesFrom(y, a, t)
    decreases |y|
  {
    if y == [] {
      assert x + y == x;
    } else {
      MessagesAppend(x, y[..|y| - 1], a, t);
      assert (x + y)[..|x + y| - 1] == x + y[..|y| - 1];
    }
  }

  lemma PayloadsMonotone(x: seq<Command>, y: seq<Command>, t: string)
    requires x <= y
    ensures PayloadsOn(x, t) <= PayloadsOn(y, t)
  {
    assert y == x + y[|x|..];
    PayloadsAppend(x, y[|x|..], t);
  }

  lemma MessagesMonotone(x: seq<Owed>, n: nat, a: nat, t: string)
    requires n <= |x|
    ensures MessagesFrom(x[..n], a, t) <= MessagesFrom(x, a, t)
  {
    assert x == x[..n] + x[n..];
    MessagesAppend(x[..n], x[n..], a, t);
  }

  /** Line `n` is one of `a` that publishes on `t`. */
  predicate PublishesAt(trace: seq<Input>, n: nat, a: nat, t: string)
    requires n < |trace|
  {
    && trace[n].Line? && trace[n].client == a
    && Parse(trace[n].text).Publish? && Parse(trace[n].text).topic == t
  }

  /** `b` is subscribed to `t` for what `a` publishes on it from the `m`th line on, and not before. */
  ghost predicate FollowsFrom(trace: seq<Input>, m: nat, a: nat, b: nat, t: string) {
    && m <= |trace|
    && forall n | 0 <= n < |trace| && PublishesAt(trace, n, a, t) :: m <= n <==> Subscribed(trace[..n], b, t)
  }

  lemma FollowsBefore(trace: seq<Input>, m: nat, a: nat, b: nat, t: string)
    requires trace != [] && FollowsFrom(trace, m, a, b, t)
    ensures FollowsFrom(trace[..|trace| - 1], if m == |trace| then m - 1 else m, a, b, t)
  {
    var before := trace[..|trace| - 1];
    forall n | 0 <= n < |before| && PublishesAt(before, n, a, t)
      ensures m <= n <==> Subscribed(before[..n], b, t) {
      assert before[..n] == trace[..n] && PublishesAt(trace, n, a, t);
    }
  }

  /** What one line of `from` brings `b` from `a` on `t`. */
  lemma MessagesOfLine(before: seq<Input>, from: nat, cmd: Command, a: nat, b: nat, t: string)
    ensures MessagesFrom(Tag(from, Shown(before, from, cmd, b)), a, t)
            == if from == a && Subscribed(before, b, t) then PayloadsOn([cmd], t) else []
  {
    var items := Shown(before, from, cmd, b);
    var owed := Tag(from, items);
    assert PayloadsOn([cmd][..0], t) == [];
    if |owed| == 2 {
      assert owed == [owed[0]] + [owed[1]] && [owed[0]][..0] == [] && [owed[1]][..0] == [];
      MessagesAppend([owed[0]], [owed[1]], a, t);
    } else if |owed| == 1 {
      assert owed[..0] == [];
    }
  }

  /** The payloads on `t` in the lines processed for `a`. */
  function Sends(trace: seq<Input>, a: nat, t: string): seq<string> {
    PayloadsOn(ParseAll(LinesOf(trace, a)), t)
  }

  /** A client that joins a topic and stays is owed, from `a`, exactly the payloads that `a` has published on
      it since. */
  lemma {:induction false} FollowerIsOwed(trace: seq<Input>, m: nat, a: nat, b: nat, t: string)
    requires FollowsFrom(trace, m, a, b, t)
    ensures Sends(trace[..m], a, t) + MessagesFrom(ExpectedFrom(trace, b), a, t) == Sends(trace, a, t)
  {
    if trace == [] {
    } else {
      var n := |trace| - 1;
      var before := trace[..n];
      var k := if m == |trace| then n else m;
      FollowsBefore(trace, m, a, b, t);
      FollowerIsOwed(before, k, a, b, t);
      assert before[..k] == trace[..k] && trace[..|trace|] == trace;
      OwedStep(trace, m, a, b, t);
      Assoc(Sends(trace[..k], a, t), MessagesFrom(ExpectedFrom(before, b), a, t), Brings(trace, a, t));
    }
  }

  /** The payload that the last line brings. */
  function Brings(trace: seq<Input>, a: nat, t: string): seq<string>
    requires trace != []
  {
    var n := |trace| - 1;
    if PublishesAt(trace, n, a, t) then [Parse(trace[n].text).payload] else []
  }

  lemma OwedStep(trace: seq<Input>, m: nat, a: nat, b: nat, t: string)
    requires trace != [] && FollowsFrom(trace, m, a, b, t)
    ensures var before := trace[..|trace| - 1];
            && Sends(trace, a, t) == Sends(before, a, t) + Brings(trace, a, t)
            && MessagesFrom(ExpectedFrom(trace, b), a, t)
               == MessagesFrom(ExpectedFrom(before, b), a, t) + if m == |trace| then [] else Brings(trace, a, t)
  {
    var n := |trace| - 1;
    var before := trace[..n];
    match trace[n]
    case Gone(_) =>
      assert LinesOf(trace, a) == LinesOf(before, a);
      assert ExpectedFrom(trace, b) == ExpectedFrom(before, b);
    case Line(from, text) =>
      assert [Parse(text)][..0] == [];
      assert from == a ==> Brings(trace, a, t) == PayloadsOn([Parse(text)], t);
      MessagesOfLine(before, from, Parse(text), a, b, t);
      MessagesAppend(ExpectedFrom(before, b), Tag(from, Shown(before, from, Parse(text), b)), a, t);
      PayloadsOfLine(LinesOf(before, a), text, t);
  }

  lemma PayloadsOfLine(ls: seq<string>, text: string, t: string)
    ensures PayloadsOn(ParseAll(ls + [text]), t) == PayloadsOn(ParseAll(ls), t) + PayloadsOn([Parse(text)], t)
    ensures ls + [] == ls
  {
    ParseAllAppend(ls, [text]);
    assert ParseAll([text]) == [Parse(text)];
    PayloadsAppend(ParseAll(ls), [Parse(text)], t);
  }

  // ---------------------------------------------------------------- logger to consumer

  /** The calls that are published on `t`. */
  function CallsOn(cs: seq<LogCall>, t: string): seq<LogCall> {
    if cs == [] then [] else (if t in Topics(cs[0].level) then [cs[0]] else []) + CallsOn(cs[1..], t)
  }

  function FormatAll(service: string, cs: seq<LogCall>): (r: seq<string>)
    ensures |r| == |cs|
    ensures forall i | 0 <= i < |cs| :: r[i] == Format(service, cs[i])
  {
    seq(|cs|, i requires 0 <= i < |cs| => Format(service, cs[i]))
  }

  lemma CallPayloads(service: string, c: LogCall, t: string)
    ensures PayloadsOn(CallCommands(service, c), t)
         == if t in Topics(c.level) then [Format(service, c)] else []
  {
    var cmds, topics := CallCommands(service, c), Topics(c.level);
    forall i | 0 <= i < |cmds| ensures PayloadsOn([cmds[i]], t) == if topics[i] == t then [Format(service, c)] else [] {
      assert [cmds[i]][..0] == [];
    }
    if |cmds| == 2 {
      assert |topics[0]| != |topics[1]|;
      assert cmds == [cmds[0]] + [cmds[1]];
      PayloadsAppend([cmds[0]], [cmds[1]], t);
    } else {
      assert cmds == [cmds[0]];
    }
  }

  lemma {:induction false} StreamPayloads(service: string, cs: seq<LogCall>, t: string)
    ensures PayloadsOn(StreamCommands(service, cs), t) == FormatAll(service, CallsOn(cs, t))
  {
    if cs == [] {
    } else {
      CallPayloads(service, cs[0], t);
      StreamPayloads(service, cs[1..], t);
      PayloadsAppend(CallCommands(service, cs[0]), StreamCommands(service, cs[1..]), t);
    }
  }

  /** The calls' payloads on `t` in lines `lo` to `hi` of their stream. */
  function PayloadsWithin(service: string, cs: seq<LogCall>, lo: nat, hi: nat, t: string): seq<string>
    requires lo <= hi <= |StreamCommands(service, cs)|
  {
    PayloadsOn(StreamCommands(service, cs)[lo..hi], t)
  }

  lemma PayloadsOfAll(service: string, cs: seq<LogCall>, lo: nat, hi: nat, t: string)
    requires lo <= hi <= |StreamCommands(service, cs)|
    ensures PayloadsWithin(service, cs, 0, lo, t) + PayloadsWithin(service, cs, lo, hi, t)
            + PayloadsWithin(service, cs, hi, |StreamCommands(service, cs)|, t)
         == FormatAll(service, CallsOn(cs, t))
  {
    StreamPayloads(service, cs, t);
    PayloadsCut(StreamCommands(service, cs), lo, hi, t);
  }

  lemma PayloadsCut(cmds: seq<Command>, lo: nat, hi: nat, t: string)
    requires lo <= hi <= |cmds|
    ensures PayloadsOn(cmds[0..lo], t) + PayloadsOn(cmds[lo..hi], t) + PayloadsOn(cmds[hi..|cmds|], t)
         == PayloadsOn(cmds, t)
  {
    assert cmds[0..hi] == cmds[0..lo] + cmds[lo..hi] && cmds == cmds[0..hi] + cmds[hi..|cmds|];
    PayloadsAppend(cmds[0..lo], cmds[lo..hi], t);
    PayloadsAppend(cmds[0..hi], cmds[hi..|cmds|], t);
  }

  /** `payloads` are the first of `all`, and all of them when it is over. */
  ghost predicate Among(payloads: seq<string>, all: seq<string>, over: bool) {
    payloads <= all && (over ==> payloads == all)
  }

  /** What `a` published on `t` before the `m`th line, then what `owed` brings of it up to `from`, then from
      there up to `upTo`. */
  function PayloadsUpTo(
      trace: seq<Input>, m: nat, a: nat, t: string, owed: seq<Owed>, from: nat, upTo: nat): seq<string>
    requires m <= |trace| && from <= upTo <= |owed|
  {
    Sends(trace[..m], a, t) + MessagesFrom(owed[..from], a, t) + MessagesFrom(owed[from..upTo], a, t)
  }

  /** A reader that is owed `owed` shows items from the line `at` on; what `a` published on `t` before the
      `m`th line, what the reader missed of it since and what it shows of it are the first of `all`. */
  ghost predicate Reaches(
      trace: seq<Input>, m: nat, a: nat, t: string, owed: seq<Owed>, at: nat, damaged: nat, shown: seq<Item>,
      all: seq<string>, over: bool)
    requires m <= |trace|
  {
    && ShowsFrom(shown, Items(owed), at, damaged)
    && (|shown| >= damaged ==>
          Among(PayloadsUpTo(trace, m, a, t, owed, at + damaged, at + |shown|), all, over))
  }

  lemma ReachesBy(
      trace: seq<Input>, m: nat, a: nat, t: string, owed: seq<Owed>, at: nat, damaged: nat, shown: seq<Item>,
      all: seq<string>, over: bool)
    requires m <= |trace| && ShowsFrom(shown, Items(owed), at, damaged)
    requires Among(Sends(trace[..m], a, t) + MessagesFrom(owed, a, t), all, over)
    requires over ==> at + |shown| == |owed|
    ensures Reaches(trace, m, a, t, owed, at, damaged, shown, all, over)
  {
    if |shown| >= damaged {
      UpToBelow(trace, m, a, t, owed, at + damaged, at + |shown|, all, over);
    }
  }

  /** End to end.  Client `a` is a logger's connection, and client `b`, a consumer, joins one of its topics at
      line `m` and stays.  `b` has missed the bytes `skipped` of its stream and has read `got` since.  What it
      then shows is owed to it from there on; and the payloads that `a` had published before `b` joined, those
      that `b` missed and those that it shows are, in this order, the first payloads of the calls on the
      topic: what is shown of them is a run without gaps.  They are all of the payloads that went out on the
      connection once everything was read from `a` and by `b`. */
  lemma {:induction false} LogsReachConsumer(
      es: seq<Event>, a: nat, b: nat, service: string, cs: seq<LogCall>, lo: nat, hi: nat, m: nat, t: string,
      skipped: string, got: string)
    requires b in Run(es).clients && Logs(Run(es), a, service, cs, lo, hi) && FollowsFrom(Run(es).trace, m, a, b, t)
    requires skipped + got <= Run(es).clients[b].wire
    ensures |StreamCommands(service, cs)| == |StreamLines(service, cs)|
    ensures var st := Run(es);
            Reaches(st.trace, m, a, t, ExpectedFrom(st.trace, b), |Lines(skipped)|, Damaged(skipped),
                    ShowAll(Lines(got)), PayloadsWithin(service, cs, lo, hi, t),
                    LogsRead(st, a, service, cs, lo, hi)
                    && skipped + got == st.clients[b].wire && Idle(st.clients[b]))
  {
    var st := Run(es);
    var over := LogsRead(st, a, service, cs, lo, hi) && skipped + got == st.clients[b].wire && Idle(st.clients[b]);
    OwedOfLogs(es, a, b, service, cs, lo, hi, m, t, over);
    DeliveryAfter(es, b, skipped, got);
    ReachesBy(st.trace, m, a, t, ExpectedFrom(st.trace, b), |Lines(skipped)|, Damaged(skipped),
              ShowAll(Lines(got)), PayloadsWithin(service, cs, lo, hi, t), over);
  }

  lemma {:induction false} OwedOfLogs(
      es: seq<Event>, a: nat, b: nat, service: string, cs: seq<LogCall>, lo: nat, hi: nat, m: nat, t: string,
      over: bool)
    requires Logs(Run(es), a, service, cs, lo, hi) && FollowsFrom(Run(es).trace, m, a, b, t)
    requires over ==> LogsRead(Run(es), a, service, cs, lo, hi)
    ensures |StreamCommands(service, cs)| == |StreamLines(service, cs)|
    ensures var trace := Run(es).trace;
            Among(Sends(trace[..m], a, t) + MessagesFrom(ExpectedFrom(trace, b), a, t),
                  PayloadsWithin(service, cs, lo, hi, t), over)
  {
    var st := Run(es);
    LoggedCommands(es, a, service, cs, lo, hi);
    assert st.clients[a].lines == LinesOf(st.trace, a) by { ClientAfter(es, a); }
    FollowerIsOwed(st.trace, m, a, b, t);
    PayloadsMonotone(ParseAll(st.clients[a].lines), StreamCommands(service, cs)[lo..hi], t);
  }

  lemma UpToBelow(
      trace: seq<Input>, m: nat, a: nat, t: string, owed: seq<Owed>, from: nat, upTo: nat, all: seq<string>,
      over: bool)
    requires m <= |trace| && from <= upTo <= |owed| && (over ==> upTo == |owed|)
    requires Among(Sends(trace[..m], a, t) + MessagesFrom(owed, a, t), all, over)
    ensures Among(PayloadsUpTo(trace, m, a, t, owed, from, upTo), all, over)
  {
    assert owed[..upTo] == owed[..from] + owed[from..upTo];
    MessagesAppend(owed[..from], owed[from..upTo], a, t);
    Assoc(Sends(trace[..m], a, t), MessagesFrom(owed[..from], a, t), MessagesFrom(owed[from..upTo], a, t));
    MessagesMonotone(owed, upTo, a, t);
    assert upTo == |owed| ==> owed[..upTo] == owed;
  }

  /** What was shown gives the calls back: two sequences of calls of one service, with stamps of one length,
      that show the same payloads on a topic are the same calls on it. */
  lemma CallsRecovered(service: string, cs: seq<LogCall>, ds: seq<LogCall>, t: string, width: nat)
    requires forall c | c in CallsOn(cs, t) + CallsOn(ds, t) :: |c.stamp| == width
    requires FormatAll(service, CallsOn(cs, t)) == FormatAll(service, CallsOn(ds, t))
    ensures CallsOn(cs, t) == CallsOn(ds, t)
  {
    var x, y := CallsOn(cs, t), CallsOn(ds, t);
    assert |x| == |FormatAll(service, x)| == |FormatAll(service, y)| == |y|;
    forall i | 0 <= i < |x| ensures x[i] == y[i] {
      assert x[i] in x + y && y[i] in x + y;
      assert FormatAll(service, x)[i] == FormatAll(service, y)[i];
      PayloadDetermines(service, x[i], y[i]);
    }
  }
}
