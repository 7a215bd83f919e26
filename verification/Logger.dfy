/** The logging library: how a log message is escaped, framed and published, and how the logger keeps its
    connection. */
module Logger {
  import opened Text
  import opened Writes
  import opened Protocol

  // ---------------------------------------------------------------- escaping

  function EscapeChar(c: char): string {
    if c == '\n' then "\\n"
    else if c == '\r' then "\\r"
    else if c == ':' then "\\:"
    else if c == '\\' then "\\\\"
    else [c]
  }

  function Escape(m: string): string {
    if m == "" then "" else EscapeChar(m[0]) + Escape(m[1..])
  }

  /** The loop of `escape_message`. */
  method EscapeMessage(message: string) returns (result: string)
    ensures result == Escape(message)
    ensures Unescape(result) == message
  {
    result := "";
    for i := 0 to |message|
      invariant result + Escape(message[i..]) == Escape(message)
    {
      var c := message[i];
      ghost var before := result;
      if c == '\n' {
        result := result + "\\n";
      } else if c == '\r' {
        result := result + "\\r";
      } else if c == ':' {
        result := result + "\\:";
      } else if c == '\\' {
        result := result + "\\\\";
      } else {
        result := result + [c];
      }
      assert message[i..][1..] == message[i + 1..];
      Assoc(before, EscapeChar(c), Escape(message[i + 1..]));
    }
    assert result + "" == result;
    UnescapeEscape(message);
  }

  /** What an escape sequence stands for. */
  function Meant(c: char): char {
    if c == 'n' then '\n' else if c == 'r' then '\r' else c
  }

  function Unescape(s: string): string
    decreases |s|
  {
    if s == "" then ""
    else if s[0] == '\\' && |s| >= 2 then [Meant(s[1])] + Unescape(s[2..])
    else [s[0]] + Unescape(s[1..])
  }

  /** Escaping can be undone, for every message. */
  lemma {:induction false} UnescapeEscape(m: string)
    ensures Unescape(Escape(m)) == m
    decreases |m|
  {
    if m == "" {
    } else {
      UnescapeEscape(m[1..]);
      UnescapeOne(m[0], Escape(m[1..]));
      assert m == [m[0]] + m[1..];
    }
  }

  lemma UnescapeOne(c: char, rest: string)
    ensures Unescape(EscapeChar(c) + rest) == [c] + Unescape(rest)
  {
  }

  /** What each character of a message becomes. */
  lemma {:induction false} EscapeText(a: string, b: string, c: char)
    ensures Escape(a + b) == Escape(a) + Escape(b)
    ensures Escape("\n") == "\\n" && Escape("\r") == "\\r" && Escape(":") == "\\:" && Escape("\\") == "\\\\"
    ensures c !in "\n\r:\\" ==> Escape([c]) == [c]
  {
    if a == "" {
      assert a + b == b;
    } else {
      assert (a + b)[1..] == a[1..] + b;
      EscapeText(a[1..], b, c);
      Assoc(EscapeChar(a[0]), Escape(a[1..]), Escape(b));
    }
  }

  /** A colon that is not at the very front has a backslash before it. */
  ghost predicate ColonsEscaped(s: string) {
    forall k | 0 <= k < |s| && s[k] == ':' :: k > 0 && s[k - 1] == '\\'
  }

  /** What an escaped message looks like on the wire. */
  lemma {:induction false} EscapeShape(m: string)
    ensures Lacks(Escape(m), '\n') && Lacks(Escape(m), '\r') && ColonsEscaped(Escape(m))
    ensures |m| <= |Escape(m)| <= 2 * |m|
    decreases |m|
  {
    if m == "" {
    } else {
      var e, rest := EscapeChar(m[0]), Escape(m[1..]);
      EscapeShape(m[1..]);
      LacksConcat(e, rest, '\n');
      LacksConcat(e, rest, '\r');
      ColonsConcat(e, rest);
    }
  }

  lemma ColonsConcat(a: string, b: string)
    requires ColonsEscaped(a) && ColonsEscaped(b)
    ensures ColonsEscaped(a + b)
  {
  }

  // ---------------------------------------------------------------- framing

  datatype Level = Info | Warn | Error | Debug

  function LevelName(l: Level): string {
    match l
    case Info => "INFO"
    case Warn => "WARN"
    case Error => "ERROR"
    case Debug => "DEBUG"
  }

  /** The topics a level is published on. */
  function Topics(l: Level): seq<string> {
    match l
    case Warn => ["debug", "warnings"]
    case Error => ["debug", "errors"]
    case _ => ["debug"]
  }

  /** One call of `info`, `warn`, `error` or `debug`, and the time it was made. */
  datatype LogCall = LogCall(level: Level, stamp: string, message: string)

  function Format(service: string, c: LogCall): string {
    "[" + c.stamp + "] " + "[" + LevelName(c.level) + "] " + service + ": " + Escape(c.message)
  }

  /** The text of the lines a call sends. */
  function CallLines(service: string, c: LogCall): seq<string> {
    var text := Format(service, c);
    var topics := Topics(c.level);
    seq(|topics|, i requires 0 <= i < |topics| => PublishLine(topics[i], text))
  }

  function StreamLines(service: string, cs: seq<LogCall>): seq<string> {
    if cs == [] then [] else CallLines(service, cs[0]) + StreamLines(service, cs[1..])
  }

  /** What the broker should make of a call. */
  function CallCommands(service: string, c: LogCall): seq<Command> {
    var text := Format(service, c);
    var topics := Topics(c.level);
    seq(|topics|, i requires 0 <= i < |topics| => Publish(topics[i], text))
  }

  function StreamCommands(service: string, cs: seq<LogCall>): seq<Command> {
    if cs == [] then [] else CallCommands(service, cs[0]) + StreamCommands(service, cs[1..])
  }

  function ParseAll(ls: seq<string>): (r: seq<Command>)
    ensures |r| == |ls|
    ensures forall i | 0 <= i < |ls| :: r[i] == Parse(ls[i])
  {
    seq(|ls|, i requires 0 <= i < |ls| => Parse(ls[i]))
  }

  ghost predicate Tame(service: string, cs: seq<LogCall>) {
    Lacks(service, '\n') && forall i | 0 <= i < |cs| :: Lacks(cs[i].stamp, '\n')
  }

  lemma FormatLacks(service: string, c: LogCall)
    requires Lacks(service, '\n') && Lacks(c.stamp, '\n')
    ensures Lacks(Format(service, c), '\n')
  {
    EscapeShape(c.message);
    var a := "[" + c.stamp;
    var b := a + "] ";
    var d := b + "[";
    var e := d + LevelName(c.level);
    var f := e + "] ";
    var g := f + service;
    LacksConcat("[", c.stamp, '\n');
    LacksConcat(a, "] ", '\n');
    LacksConcat(b, "[", '\n');
    LacksConcat(d, LevelName(c.level), '\n');
    LacksConcat(e, "] ", '\n');
    LacksConcat(f, service, '\n');
    LacksConcat(g, ": ", '\n');
    LacksConcat(g + ": ", Escape(c.message), '\n');
  }

  /** The lines of each level. */
  lemma LevelLines(service: string, stamp: string, message: string)
    ensures CallLines(service, LogCall(Info, stamp, message))
         == ["PUBLISH:debug:[" + stamp + "] [INFO] " + service + ": " + Escape(message)]
    ensures CallLines(service, LogCall(Debug, stamp, message))
         == ["PUBLISH:debug:[" + stamp + "] [DEBUG] " + service + ": " + Escape(message)]
    ensures CallLines(service, LogCall(Warn, stamp, message))
         == ["PUBLISH:debug:[" + stamp + "] [WARN] " + service + ": " + Escape(message),
             "PUBLISH:warnings:[" + stamp + "] [WARN] " + service + ": " + Escape(message)]
    ensures CallLines(service, LogCall(Error, stamp, message))
         == ["PUBLISH:debug:[" + stamp + "] [ERROR] " + service + ": " + Escape(message),
             "PUBLISH:errors:[" + stamp + "] [ERROR] " + service + ": " + Escape(message)]
  {
    InfoLines(service, stamp, message);
    DebugLines(service, stamp, message);
    WarnLines(service, stamp, message);
    ErrorLines(service, stamp, message);
  }

  lemma InfoLines(service: string, stamp: string, message: string)
    ensures CallLines(service, LogCall(Info, stamp, message))
         == ["PUBLISH:debug:[" + stamp + "] [INFO] " + service + ": " + Escape(message)]
  {
    LineText("debug", "PUBLISH:debug:[", service, LogCall(Info, stamp, message), "] [INFO] ");
  }

  lemma DebugLines(service: string, stamp: string, message: string)
    ensures CallLines(service, LogCall(Debug, stamp, message))
         == ["PUBLISH:debug:[" + stamp + "] [DEBUG] " + service + ": " + Escape(message)]
  {
    LineText("debug", "PUBLISH:debug:[", service, LogCall(Debug, stamp, message), "] [DEBUG] ");
  }

  lemma WarnLines(service: string, stamp: string, message: string)
    ensures CallLines(service, LogCall(Warn, stamp, message))
         == ["PUBLISH:debug:[" + stamp + "] [WARN] " + service + ": " + Escape(message),
             "PUBLISH:warnings:[" + stamp + "] [WARN] " + service + ": " + Escape(message)]
  {
    LineText("debug", "PUBLISH:debug:[", service, LogCall(Warn, stamp, message), "] [WARN] ");
    LineText("warnings", "PUBLISH:warnings:[", service, LogCall(Warn, stamp, message), "] [WARN] ");
  }

  lemma ErrorLines(service: string, stamp: string, message: string)
    ensures CallLines(service, LogCall(Error, stamp, message))
         == ["PUBLISH:debug:[" + stamp + "] [ERROR] " + service + ": " + Escape(message),
             "PUBLISH:errors:[" + stamp + "] [ERROR] " + service + ": " + Escape(message)]
  {
    LineText("debug", "PUBLISH:debug:[", service, LogCall(Error, stamp, message), "] [ERROR] ");
    LineText("errors", "PUBLISH:errors:[", service, LogCall(Error, stamp, message), "] [ERROR] ");
  }

  lemma LineText(topic: string, opening: string, service: string, c: LogCall, middle: string)
    requires opening == "PUBLISH:" + topic + ":" + "[" && middle == "] " + "[" + LevelName(c.level) + "] "
    ensures PublishLine(topic, Format(service, c))
         == opening + c.stamp + middle + service + ": " + Escape(c.message)
  {
    Glue("PUBLISH:" + topic + ":", c.stamp, LevelName(c.level), middle, service, Escape(c.message));
  }

  lemma Glue(head: string, stamp: string, name: string, middle: string, service: string, text: string)
    requires middle == "] " + "[" + name + "] "
    ensures head + ("[" + stamp + "] " + "[" + name + "] " + service + ": " + text)
         == head + "[" + stamp + middle + service + ": " + text
  {
    var a := "[" + stamp;
    var b := a + middle;
    assert a + "] " + "[" + name + "] " == b by {
      Assoc(a, "] ", "[");
      Assoc(a, "] " + "[", name);
      Assoc(a, "] " + "[" + name, "] ");
    }
    Assoc(head, b + service + ": ", text);
    Assoc(head, b + service, ": ");
    Assoc(head, b, service);
    Assoc(head, a, middle);
    Assoc(head, "[", stamp);
  }

  lemma TopicsPublishable(l: Level)
    ensures forall i | 0 <= i < |Topics(l)| :: Publishable(Topics(l)[i]) && Lacks(Topics(l)[i], '\n')
  {
  }

  /** A call, whatever bytes its message holds, is one command for each of its topics: a newline, a colon
      or a whole PUBLISH command inside the message stays inside the payload. */
  lemma CallIsItsCommands(service: string, c: LogCall)
    requires Lacks(service, '\n') && Lacks(c.stamp, '\n')
    ensures AllLack(CallLines(service, c), '\n')
    ensures ParseAll(CallLines(service, c)) == CallCommands(service, c)
  {
    FormatLacks(service, c);
    TopicsPublishable(c.level);
    var text, topics := Format(service, c), Topics(c.level);
    forall i | 0 <= i < |topics|
      ensures Lacks(PublishLine(topics[i], text), '\n')
      ensures Parse(PublishLine(topics[i], text)) == Publish(topics[i], text) {
      RoundTrip(topics[i], text);
      FixedTextsLack();
      FramedLacks("PUBLISH:", topics[i], text);
    }
  }

  lemma {:induction false} StreamIsItsCommands(service: string, cs: seq<LogCall>)
    requires Tame(service, cs)
    ensures AllLack(StreamLines(service, cs), '\n')
    ensures ParseAll(StreamLines(service, cs)) == StreamCommands(service, cs)
  {
    if cs == [] {
    } else {
      CallIsItsCommands(service, cs[0]);
      StreamIsItsCommands(service, cs[1..]);
      ParseAllAppend(CallLines(service, cs[0]), StreamLines(service, cs[1..]));
    }
  }

  lemma ParseAllAppend(a: seq<string>, b: seq<string>)
    ensures ParseAll(a + b) == ParseAll(a) + ParseAll(b)
    ensures AllLack(a + b, '\n') <==> AllLack(a, '\n') && AllLack(b, '\n')
  {
    assert forall i | 0 <= i < |a| :: (a + b)[i] == a[i];
    assert forall i | 0 <= i < |b| :: (a + b)[|a| + i] == b[i];
  }

  /** The payload a consumer shows determines the call: its time, its level and every byte of its message. */
  lemma PayloadDetermines(service: string, c: LogCall, d: LogCall)
    requires Format(service, c) == Format(service, d) && |c.stamp| == |d.stamp|
    ensures c == d
  {
    FormatParts(service, c);
    FormatParts(service, d);
    LevelsApart(c.level, d.level);
    UnescapeEscape(c.message);
    UnescapeEscape(d.message);
  }

  /** Where the parts of a payload are. */
  lemma FormatParts(service: string, c: LogCall)
    ensures var f := Format(service, c);
            var n := |c.stamp|; var l := |LevelName(c.level)|;
            && |f| >= n + l + 6 + |service| + 1
            && f[1..1 + n] == c.stamp
            && f[n + 4..n + 4 + l] == LevelName(c.level) && f[n + 4 + l] == ']'
            && f[n + l + |service| + 8..] == Escape(c.message)
  {
  }

  /** No level name with its closing bracket begins another. */
  lemma LevelsApart(a: Level, b: Level)
    ensures a != b ==> LevelName(a)[0] != LevelName(b)[0]
  {
  }

  // ---------------------------------------------------------------- the connection

  /** What the system answers to an attempt to connect: no socket, a socket whose address or connection
      failed, or a connection. */
  datatype Attempt = NoSocket | Abandoned(fd: nat) | Made(fd: nat)

  /** The logger's connection.  `open` are the descriptors it has been given and has not closed; `acquired`,
      `closed` and `sent` are histories. */
  datatype Link = Link(fd: int, connected: bool, open: set<int>, acquired: nat, closed: nat, sent: seq<Output>)
  {
    function Close(d: int): Link
      requires d in open
    {
      this.(open := open - {d}, closed := closed + 1)
    }

    function Open(d: int): Link {
      this.(open := open + {d}, acquired := acquired + 1)
    }

    /** `connect_to_broker`, which runs under the mutex. */
    function Reconnect(a: Attempt): Link
      requires fd >= 0 ==> fd in open
    {
      var free := if fd >= 0 then Close(fd).(fd := -1) else this;
      match a
      case NoSocket => free.(fd := -1, connected := false)
      case Abandoned(d) => free.Open(d).Close(d).(fd := -1, connected := false)
      case Made(d) => free.Open(d).(fd := d, connected := true)
    }

    /** The locked part of `send_message`.  `taken` is how many bytes the system takes, if it takes any; on
        no descriptor `send` fails. */
    function Transmit(bytes: string, taken: Option<nat>): Link {
      if taken.Some? && fd >= 0 then this.(sent := sent + [Output(bytes, taken.value)])
      else this.(connected := false)
    }
  }

  const UNCONNECTED := Link(-1, false, {}, 0, 0, [])

  /** Connected implies a descriptor; the one held, if any, is all that is open, and all that was acquired
      and not closed. */
  ghost predicate LinkInv(k: Link) {
    && (k.connected ==> k.fd >= 0)
    && k.open == (if k.fd >= 0 then {k.fd} else {})
    && k.acquired == k.closed + |k.open|
  }

  /** What one thread does while it holds the mutex. */
  datatype Section = Connecting(attempt: Attempt) | Sending(bytes: string, taken: Option<nat>)

  lemma ReconnectKeeps(k: Link, a: Attempt)
    requires LinkInv(k)
    ensures LinkInv(k.Reconnect(a))
    ensures k.Reconnect(a).connected <==> a.Made?
    ensures k.Reconnect(a).acquired == k.acquired + if a.NoSocket? then 0 else 1
    ensures k.Reconnect(a).sent == k.sent
  {
  }

  lemma TransmitKeeps(k: Link, bytes: string, taken: Option<nat>)
    requires LinkInv(k)
    ensures LinkInv(k.Transmit(bytes, taken))
  {
  }

  ghost function Perform(k: Link, s: Section): (d: Link)
    requires LinkInv(k)
    ensures LinkInv(d)
  {
    match s
    case Connecting(a) => ReconnectKeeps(k, a); k.Reconnect(a)
    case Sending(bytes, taken) => TransmitKeeps(k, bytes, taken); k.Transmit(bytes, taken)
  }

  /** Threads take the mutex in any order.  The invariant holds whenever it is free, and a descriptor that
      is not open is never closed. */
  ghost function After(k: Link, ss: seq<Section>): (d: Link)
    requires LinkInv(k)
    ensures LinkInv(d)
  {
    if ss == [] then k else Perform(After(k, ss[..|ss| - 1]), ss[|ss| - 1])
  }

  lemma {:induction false} AfterAppend(k: Link, x: seq<Section>, y: seq<Section>)
    requires LinkInv(k)
    ensures After(k, x + y) == After(After(k, x), y)
    decreases |y|
  {
    if y == [] {
      assert x + y == x;
    } else {
      AfterAppend(k, x, y[..|y| - 1]);
      assert (x + y)[..|x + y| - 1] == x + y[..|y| - 1];
    }
  }

  lemma AfterOne(k: Link, s: Section)
    requires LinkInv(k)
    ensures After(k, [s]) == Perform(k, s)
  {
    assert [s][..0] == [];
  }

  /** How the world answers one call of `send_message`: an attempt to connect if there is one, how many
      bytes are taken, and what other threads do each time the mutex is free. */
  datatype Answer = Answer(attempt: Attempt, taken: Option<nat>,
                           beforeConnect: seq<Section>, afterConnect: seq<Section>, beforeSend: seq<Section>)

  /** Nobody else comes between. */
  predicate Quiet(o: Answer) {
    o.beforeConnect == o.afterConnect == o.beforeSend == []
  }

  /** The sections of the call and of the others, up to the second test of `connected_`. */
  function Approach(connected: bool, o: Answer): seq<Section> {
    if connected then [] else o.beforeConnect + [Connecting(o.attempt)] + o.afterConnect
  }

  /** The connection after a call of `send_message` for a frame. */
  ghost function Sent(k: Link, bytes: string, o: Answer): (d: Link)
    requires LinkInv(k)
    ensures LinkInv(d)
  {
    var c := After(k, Approach(k.connected, o));
    if c.connected then After(c, o.beforeSend + [Sending(bytes, o.taken)]) else c
  }

  ghost function SentAll(k: Link, frames: seq<string>, os: seq<Answer>): (d: Link)
    requires LinkInv(k) && |os| == |frames|
    ensures LinkInv(d)
    decreases |frames|
  {
    if frames == [] then k else SentAll(Sent(k, frames[0], os[0]), frames[1..], os[1..])
  }

  /** What was handed over is never taken back. */
  lemma {:induction false} HistoryGrows(k: Link, ss: seq<Section>)
    requires LinkInv(k)
    ensures k.sent <= After(k, ss).sent
    decreases |ss|
  {
    if ss == [] {
    } else {
      HistoryGrows(k, ss[..|ss| - 1]);
      PerformGrows(After(k, ss[..|ss| - 1]), ss[|ss| - 1]);
    }
  }

  lemma PerformGrows(k: Link, s: Section)
    requires LinkInv(k)
    ensures k.sent <= Perform(k, s).sent
  {
  }

  lemma Approached(k: Link, o: Answer)
    requires LinkInv(k)
    ensures After(k, Approach(false, o))
         == After(Perform(After(k, o.beforeConnect), Connecting(o.attempt)), o.afterConnect)
  {
    AfterAppend(k, o.beforeConnect + [Connecting(o.attempt)], o.afterConnect);
    AfterAppend(k, o.beforeConnect, [Connecting(o.attempt)]);
    AfterOne(After(k, o.beforeConnect), Connecting(o.attempt));
  }

  /** Whatever other threads do between the sections of a call, it tries to connect only if it finds the logger
      unconnected, and hands its frame over at most once, in one piece and on an open descriptor; if another
      thread has lost the connection in the gap after the second test, it hands nothing over and leaves the
      logger unconnected. */
  lemma FrameUnderInterference(k: Link, bytes: string, o: Answer)
    requires LinkInv(k)
    ensures var c := if k.connected then k
                     else After(Perform(After(k, o.beforeConnect), Connecting(o.attempt)), o.afterConnect);
            var d := After(c, o.beforeSend);
            && k.sent <= c.sent <= d.sent
            && (!c.connected ==> Sent(k, bytes, o) == c)
            && (c.connected && o.taken.Some? && d.open != {} ==>
                  Sent(k, bytes, o) == d.(sent := d.sent + [Output(bytes, o.taken.value)]))
            && (c.connected && (o.taken.None? || d.open == {}) ==>
                  Sent(k, bytes, o) == d.(connected := false))
  {
    var c := After(k, Approach(k.connected, o));
    if !k.connected {
      Approached(k, o);
    }
    HistoryGrows(k, Approach(k.connected, o));
    HistoryGrows(c, o.beforeSend);
    AfterAppend(c, o.beforeSend, [Sending(bytes, o.taken)]);
    AfterOne(After(c, o.beforeSend), Sending(bytes, o.taken));
  }

  lemma Undisturbed(k: Link, bytes: string, o: Answer)
    requires LinkInv(k) && Quiet(o)
    ensures var c := if k.connected then k else k.Reconnect(o.attempt);
            Sent(k, bytes, o) == if c.connected then c.Transmit(bytes, o.taken) else c
  {
    assert [] + [Connecting(o.attempt)] + [] == [Connecting(o.attempt)];
    assert [] + [Sending(bytes, o.taken)] == [Sending(bytes, o.taken)];
    AfterOne(k, Connecting(o.attempt));
    AfterOne(After(k, Approach(k.connected, o)), Sending(bytes, o.taken));
    assert !k.connected ==> After(k, Approach(k.connected, o)) == k.Reconnect(o.attempt);
  }

  /** Undisturbed, a call hands its frame over and leaves the logger connected, or hands nothing over and
      leaves it unconnected; the first exactly when there is or can be made a connection that takes it. */
  lemma FrameOnceOrNotAtAll(k: Link, bytes: string, o: Answer)
    requires LinkInv(k) && Quiet(o)
    ensures Sent(k, bytes, o).connected <==> (k.connected || o.attempt.Made?) && o.taken.Some?
    ensures Sent(k, bytes, o).sent
         == k.sent + if Sent(k, bytes, o).connected then [Output(bytes, o.taken.value)] else []
  {
    Undisturbed(k, bytes, o);
  }

  /** The frames that are handed over. */
  function Passed(connected: bool, frames: seq<string>, os: seq<Answer>): seq<Output>
    requires |os| == |frames|
    decreases |frames|
  {
    if frames == [] then []
    else
      var passes := (connected || os[0].attempt.Made?) && os[0].taken.Some?;
      (if passes then [Output(frames[0], os[0].taken.value)] else []) + Passed(passes, frames[1..], os[1..])
  }

  /** So undisturbed sends hand over whole frames, in order, leaving out those that found no connection;
      and all of them if the first finds one and none fails. */
  lemma {:induction false} SentAllPasses(k: Link, frames: seq<string>, os: seq<Answer>)
    requires LinkInv(k) && |os| == |frames| && forall i | 0 <= i < |os| :: Quiet(os[i])
    ensures SentAll(k, frames, os).sent == k.sent + Passed(k.connected, frames, os)
    decreases |frames|
  {
    if frames == [] {
    } else {
      var d := Sent(k, frames[0], os[0]);
      FrameOnceOrNotAtAll(k, frames[0], os[0]);
      SentAllPasses(d, frames[1..], os[1..]);
      Assoc(k.sent, if d.connected then [Output(frames[0], os[0].taken.value)] else [],
            Passed(d.connected, frames[1..], os[1..]));
    }
  }

  ghost predicate AllTaken(os: seq<Answer>) {
    forall i | 0 <= i < |os| :: os[i].taken.Some?
  }

  lemma {:induction false} PassedCount(connected: bool, frames: seq<string>, os: seq<Answer>)
    requires |os| == |frames|
    ensures |Passed(connected, frames, os)| <= |frames|
    ensures |Passed(connected, frames, os)| == |frames| && frames != [] ==>
              (connected || os[0].attempt.Made?) && AllTaken(os)
    decreases |frames|
  {
    if frames == [] {
    } else {
      PassedCount((connected || os[0].attempt.Made?) && os[0].taken.Some?, frames[1..], os[1..]);
      assert os == [os[0]] + os[1..];
    }
  }

  /** All the frames are handed over exactly when the first send finds a connection and none fails. */
  lemma {:induction false} AllPass(connected: bool, frames: seq<string>, os: seq<Answer>)
    requires |os| == |frames| && frames != []
    ensures Handed(Passed(connected, frames, os)) == frames
            <==> (connected || os[0].attempt.Made?) && AllTaken(os)
    decreases |frames|
  {
    PassedCount(connected, frames, os);
    if (connected || os[0].attempt.Made?) && AllTaken(os) {
      var rest := Passed(true, frames[1..], os[1..]);
      assert Handed(rest) == frames[1..] by {
        if |frames| > 1 {
          AllPass(true, frames[1..], os[1..]);
        }
      }
      assert Passed(connected, frames, os) == [Output(frames[0], os[0].taken.value)] + rest;
      assert Handed([Output(frames[0], os[0].taken.value)] + rest) == [frames[0]] + Handed(rest);
    }
  }

  function Outputs(frames: seq<string>, os: seq<Answer>): (r: seq<Output>)
    requires |os| == |frames| && AllTaken(os)
    ensures |r| == |frames|
    ensures forall i | 0 <= i < |frames| :: r[i] == Output(frames[i], os[i].taken.value)
  {
    seq(|frames|, i requires 0 <= i < |frames| => Output(frames[i], os[i].taken.value))
  }

  /** Then they go out on one connection: the one there was, or the one that the first send made. */
  lemma {:induction false} OneConnection(k: Link, frames: seq<string>, os: seq<Answer>)
    requires LinkInv(k) && |os| == |frames| && frames != []
    requires (forall i | 0 <= i < |os| :: Quiet(os[i])) && AllTaken(os) && (k.connected || os[0].attempt.Made?)
    ensures var c := if k.connected then k else k.Reconnect(os[0].attempt);
            SentAll(k, frames, os) == c.(sent := k.sent + Outputs(frames, os))
    decreases |frames|
  {
    Undisturbed(k, frames[0], os[0]);
    var d := Sent(k, frames[0], os[0]);
    var one := [Output(frames[0], os[0].taken.value)];
    if |frames| == 1 {
      assert Outputs(frames, os) == one;
    } else {
      OneConnection(d, frames[1..], os[1..]);
      assert Outputs(frames, os) == one + Outputs(frames[1..], os[1..]);
      Assoc(k.sent, one, Outputs(frames[1..], os[1..]));
    }
  }

  // ---------------------------------------------------------------- many calls

  /** The connection after the first `n` sends. */
  ghost function Reached(k: Link, ls: seq<string>, os: seq<Answer>, n: nat): (d: Link)
    requires LinkInv(k) && |os| == |ls| && n <= |ls|
    ensures LinkInv(d)
  {
    SentAll(k, Terminated(ls[..n]), os[..n])
  }

  lemma {:induction false} SentAllAppend(k: Link, f: seq<string>, g: seq<string>, o: seq<Answer>, p: seq<Answer>)
    requires LinkInv(k) && |o| == |f| && |p| == |g|
    ensures SentAll(k, f + g, o + p) == SentAll(SentAll(k, f, o), g, p)
    decreases |f|
  {
    if f == [] {
      assert f + g == g && o + p == p;
    } else {
      assert (f + g)[1..] == f[1..] + g && (o + p)[1..] == o[1..] + p;
      SentAllAppend(Sent(k, f[0], o[0]), f[1..], g, o[1..], p);
    }
  }

  lemma ReachedOn(k: Link, ls: seq<string>, os: seq<Answer>, lo: nat, hi: nat)
    requires LinkInv(k) && |os| == |ls| && lo <= hi <= |ls|
    ensures Reached(k, ls, os, hi) == SentAll(Reached(k, ls, os, lo), Terminated(ls[lo..hi]), os[lo..hi])
  {
    assert Terminated(ls[..hi]) == Terminated(ls[..lo]) + Terminated(ls[lo..hi]) && os[..hi] == os[..lo] + os[lo..hi];
    SentAllAppend(k, Terminated(ls[..lo]), Terminated(ls[lo..hi]), os[..lo], os[lo..hi]);
  }

  /** These sends are undisturbed, find or make a connection, and succeed; only the last may fall short. */
  ghost predicate OneStretch(k: Link, frames: seq<string>, os: seq<Answer>)
    requires |os| == |frames|
  {
    && frames != [] && (forall i | 0 <= i < |os| :: Quiet(os[i])) && AllTaken(os)
    && (k.connected || os[0].attempt.Made?)
    && AllWhole(Outputs(frames, os)[..|os| - 1])
  }

  /** What was handed over between two states. */
  function SentSince(k: Link, d: Link): seq<Output>
    requires |k.sent| <= |d.sent|
  {
    d.sent[|k.sent|..]
  }

  lemma StretchSent(k: Link, frames: seq<string>, os: seq<Answer>)
    requires LinkInv(k) && |os| == |frames| && OneStretch(k, frames, os)
    ensures var d := SentAll(k, frames, os);
            && d.connected && d.acquired == k.acquired + (if k.connected then 0 else 1)
            && k.sent <= d.sent && SentSince(k, d) == Outputs(frames, os)
  {
    OneConnection(k, frames, os);
    if !k.connected {
      ReconnectKeeps(k, os[0].attempt);
    }
    Parts(k.sent, Outputs(frames, os));
  }

  lemma OutputsLeave(frames: seq<string>, os: seq<Answer>)
    requires |os| == |frames| && AllTaken(os) && frames != []
    requires AllWhole(Outputs(frames, os)[..|os| - 1])
    ensures Carries(Outputs(frames, os), frames)
  {
    assert Handed(Outputs(frames, os)) == frames;
    LeftPrefix(Outputs(frames, os));
  }

  /** These writes hand over these frames, and what leaves is their beginning; all of them if none falls
      short. */
  ghost predicate Carries(ws: seq<Output>, frames: seq<string>) {
    && Handed(ws) == frames && Left(ws) <= Flatten(frames)
    && (AllWhole(ws) ==> Left(ws) == Flatten(frames))
  }

  /** Such a stretch goes out on one connection. */
  lemma StretchLeaves(k: Link, frames: seq<string>, os: seq<Answer>)
    requires LinkInv(k) && |os| == |frames| && OneStretch(k, frames, os)
    ensures var d := SentAll(k, frames, os);
            && d.connected && d.acquired == k.acquired + (if k.connected then 0 else 1)
            && k.sent <= d.sent && Carries(SentSince(k, d), frames)
  {
    StretchSent(k, frames, os);
    OutputsLeave(frames, os);
  }

  /** An answer for each send of each call. */
  ghost predicate Answers(cs: seq<LogCall>, oss: seq<seq<Answer>>) {
    |oss| == |cs| && forall i | 0 <= i < |cs| :: |oss[i]| == |Topics(cs[i].level)|
  }

  /** The connection after calls of `Log`, one after the other. */
  ghost function Logged(k: Link, service: string, cs: seq<LogCall>, oss: seq<seq<Answer>>): (d: Link)
    requires LinkInv(k) && Answers(cs, oss)
    ensures LinkInv(d)
    decreases |cs|
  {
    if cs == [] then k
    else Logged(SentAll(k, Terminated(CallLines(service, cs[0])), oss[0]), service, cs[1..], oss[1..])
  }

  function Joined(oss: seq<seq<Answer>>): seq<Answer> {
    if oss == [] then [] else oss[0] + Joined(oss[1..])
  }

  lemma AnswersRest(cs: seq<LogCall>, oss: seq<seq<Answer>>)
    requires Answers(cs, oss) && cs != []
    ensures Answers(cs[1..], oss[1..]) && |oss[0]| == |Topics(cs[0].level)|
  {
  }

  /** Calls one after the other send the frames of their stream one after the other. */
  lemma {:induction false} LoggedIsStream(k: Link, service: string, cs: seq<LogCall>, oss: seq<seq<Answer>>)
    requires LinkInv(k) && Answers(cs, oss)
    ensures |Joined(oss)| == |StreamLines(service, cs)|
    ensures Logged(k, service, cs, oss) == SentAll(k, Terminated(StreamLines(service, cs)), Joined(oss))
    decreases |cs|
  {
    if cs == [] {
    } else {
      var first, rest := CallLines(service, cs[0]), StreamLines(service, cs[1..]);
      AnswersRest(cs, oss);
      LoggedIsStream(SentAll(k, Terminated(first), oss[0]), service, cs[1..], oss[1..]);
      TerminatedAppend(first, rest);
      SentAllAppend(k, Terminated(first), Terminated(rest), oss[0], Joined(oss[1..]));
    }
  }

  class DebugLogger {
    const service: string
    var fd: int
    var connected: bool

    ghost var open: set<int>
    ghost var acquired: nat
    ghost var closed: nat
    ghost var sent: seq<Output>

    ghost function View(): Link
      reads this
    {
      Link(fd, connected, open, acquired, closed, sent)
    }

    constructor (service: string, a: Attempt)
      ensures this.service == service && LinkInv(View()) && View() == UNCONNECTED.Reconnect(a)
    {
      this.service := service;
      fd, connected := -1, false;
      open, acquired, closed, sent := {}, 0, 0, [];
      new;
      ConnectToBroker(a);
    }

    ghost method CloseDescriptor(d: int)
      requires d in open
      modifies this`open, this`closed
      ensures View() == old(View()).Close(d)
    {
      open := open - {d};
      closed := closed + 1;
    }

    ghost method OpenDescriptor(d: int)
      modifies this`open, this`acquired
      ensures View() == old(View()).Open(d)
    {
      open := open + {d};
      acquired := acquired + 1;
    }

    method ConnectToBroker(a: Attempt)
      requires LinkInv(View())
      modifies this
      ensures LinkInv(View()) && View() == old(View()).Reconnect(a)
    {
      ReconnectKeeps(View(), a);
      if fd >= 0 {
        CloseDescriptor(fd);
        fd := -1;
      }
      match a {
        case NoSocket =>
          fd := -1;
          connected := false;
        case Abandoned(d) =>
          fd := d;
          OpenDescriptor(d);
          CloseDescriptor(fd);
          fd := -1;
          connected := false;
        case Made(d) =>
          fd := d;
          OpenDescriptor(d);
          connected := true;
      }
    }

    /** The locked part of `send_message`. */
    method Transmit(bytes: string, taken: Option<nat>)
      modifies this
      ensures View() == old(View()).Transmit(bytes, taken)
    {
      if taken.Some? && fd >= 0 {
        sent := sent + [Output(bytes, taken.value)];
      } else {
        connected := false;
      }
    }

    /** Other threads, while the mutex is free. */
    method Others(ss: seq<Section>)
      requires LinkInv(View())
      modifies this
      ensures LinkInv(View()) && View() == After(old(View()), ss)
    {
      for i := 0 to |ss|
        invariant LinkInv(View()) && View() == After(old(View()), ss[..i])
      {
        assert ss[..i + 1][..i] == ss[..i];
        match ss[i] {
          case Connecting(a) => ConnectToBroker(a);
          case Sending(bytes, taken) => Transmit(bytes, taken);
        }
      }
      assert ss[..|ss|] == ss;
    }

    /** `reconnect` reads `connected_` when the mutex is free again: `after` is what other threads do before
        that. */
    method Reconnect(a: Attempt, after: seq<Section>) returns (success: bool)
      requires LinkInv(View())
      modifies this
      ensures LinkInv(View()) && View() == After(Perform(old(View()), Connecting(a)), after)
      ensures success <==> View().connected
      ensures after == [] ==> (success <==> a.Made?)
    {
      ReconnectKeeps(View(), a);
      ConnectToBroker(a);
      Others(after);
      return connected;
    }

    method SendMessage(topic: string, message: string, o: Answer)
      requires LinkInv(View())
      modifies this
      ensures LinkInv(View())
      ensures View() == Sent(old(View()), PublishLine(topic, message) + "\n", o)
    {
      ghost var k := View();
      if !connected {
        Others(o.beforeConnect);
        ConnectToBroker(o.attempt);
        Others(o.afterConnect);
        Approached(k, o);
        if !connected {
          return;
        }
      }
      ghost var c := View();
      Others(o.beforeSend);
      var bytes := PublishLine(topic, message) + "\n";
      AfterAppend(c, o.beforeSend, [Sending(bytes, o.taken)]);
      AfterOne(View(), Sending(bytes, o.taken));
      Transmit(bytes, o.taken);
    }

    /** `info`, `warn`, `error` and `debug`: one send for each topic of the level, whatever became of the one
        before. */
    method Log(c: LogCall, os: seq<Answer>)
      requires LinkInv(View()) && |os| == |Topics(c.level)|
      modifies this
      ensures LinkInv(View())
      ensures View() == SentAll(old(View()), Terminated(CallLines(service, c)), os)
    {
      var escaped := EscapeMessage(c.message);
      var formatted := "[" + c.stamp + "] " + "[" + LevelName(c.level) + "] " + service + ": " + escaped;
      ghost var k := View();
      FramesOfCall(service, c);
      match c.level {
        case Info =>
          SendMessage("debug", formatted, os[0]);
          SentOne(k, Terminated(CallLines(service, c)), os);
        case Debug =>
          SendMessage("debug", formatted, os[0]);
          SentOne(k, Terminated(CallLines(service, c)), os);
        case Warn =>
          SendMessage("debug", formatted, os[0]);
          SendMessage("warnings", formatted, os[1]);
          SentTwo(k, Terminated(CallLines(service, c)), os);
        case Error =>
          SendMessage("debug", formatted, os[0]);
          SendMessage("errors", formatted, os[1]);
          SentTwo(k, Terminated(CallLines(service, c)), os);
      }
    }

    /** The destructor closes what is held. */
    method Destroy()
      requires LinkInv(View())
      modifies this
      ensures open == {} && acquired == closed
    {
      if fd >= 0 {
        CloseDescriptor(fd);
      }
    }
  }

  lemma SentOne(k: Link, frames: seq<string>, os: seq<Answer>)
    requires LinkInv(k) && |frames| == |os| == 1
    ensures SentAll(k, frames, os) == Sent(k, frames[0], os[0])
  {
  }

  lemma SentTwo(k: Link, frames: seq<string>, os: seq<Answer>)
    requires LinkInv(k) && |frames| == |os| == 2
    ensures SentAll(k, frames, os) == Sent(Sent(k, frames[0], os[0]), frames[1], os[1])
  {
    SentOne(Sent(k, frames[0], os[0]), frames[1..], os[1..]);
  }

  /** The frames of a call, topic by topic. */
  lemma FramesOfCall(service: string, c: LogCall)
    ensures var frames := Terminated(CallLines(service, c));
            && |frames| == |Topics(c.level)|
            && forall i | 0 <= i < |frames| ::
                 frames[i] == PublishLine(Topics(c.level)[i], Format(service, c)) + "\n"
  {
  }
}
