/** The clients at both ends: the consumer's listening loop and the producer's prompt. */
module Clients {
  import opened Text
  import opened Writes
  import opened Protocol
  import opened SessionModel
  import opened BrokerModel
  import opened TraceSpec
  import opened BrokerTheorems

  /** `ConsumerClient::start_listening`.  `chunks` is what the socket hands out, read by read, before it is
      closed; `limit` is how many times round the loop `running_` stays true.  However the stream is cut,
      the items shown are those of its complete lines, in order. */
  method Listen(chunks: seq<string>, limit: nat) returns (shown: seq<Item>)
    ensures var all := ShowAll(Lines(Flatten(chunks))); shown == all[..Least(limit, |all|)]
  {
    var buffer := "";
    var taken := 0;
    ghost var seen: seq<string> := [];
    shown := [];
    while |shown| < limit
      invariant 0 <= taken <= |chunks|
      invariant AllLack(seen, '\n') && Flatten(chunks[..taken]) == Flatten(Terminated(seen)) + buffer
      invariant shown == ShowAll(seen) && |seen| <= limit
      decreases limit - |shown|
    {
      // `read_until`: more reads until the buffer holds a newline, or the connection is lost.
      while Find(buffer, '\n', 0).None? && taken < |chunks|
        invariant 0 <= taken <= |chunks|
        invariant Flatten(chunks[..taken]) == Flatten(Terminated(seen)) + buffer
      {
        ListenMore(chunks, taken, seen, buffer);
        buffer := buffer + chunks[taken];
        taken := taken + 1;
      }
      match Find(buffer, '\n', 0) {
        case None =>
          ListenEnd(chunks, taken, seen, buffer);
          return;
        case Some(k) =>
          ListenStep(seen, buffer, k);
          seen := seen + [buffer[..k]];
          shown := shown + [Show(buffer[..k])];
          buffer := buffer[k + 1..];
      }
    }
    ListenEnd(chunks, taken, seen, buffer);
  }

  lemma ListenEnd(chunks: seq<string>, taken: nat, seen: seq<string>, buffer: string)
    requires taken <= |chunks| && AllLack(seen, '\n')
    requires Flatten(chunks[..taken]) == Flatten(Terminated(seen)) + buffer
    ensures |seen| <= |Lines(Flatten(chunks))| && seen == Lines(Flatten(chunks))[..|seen|]
    ensures taken == |chunks| && Lacks(buffer, '\n') ==> seen == Lines(Flatten(chunks))
  {
    var rest := Flatten(chunks[taken..]);
    assert chunks == chunks[..taken] + chunks[taken..];
    FlattenAppend(chunks[..taken], chunks[taken..]);
    Assoc(Flatten(Terminated(seen)), buffer, rest);
    LinesOfTerminated(seen, buffer + rest);
    if taken == |chunks| {
      assert buffer + rest == buffer;
    }
  }

  lemma ListenMore(chunks: seq<string>, taken: nat, seen: seq<string>, buffer: string)
    requires taken < |chunks| && Flatten(chunks[..taken]) == Flatten(Terminated(seen)) + buffer
    ensures Flatten(chunks[..taken + 1]) == Flatten(Terminated(seen)) + (buffer + chunks[taken])
  {
    FlattenTake(chunks, taken);
    Assoc(Flatten(Terminated(seen)), buffer, chunks[taken]);
  }

  lemma ListenStep(seen: seq<string>, buffer: string, k: nat)
    requires AllLack(seen, '\n') && Find(buffer, '\n', 0) == Some(k)
    ensures AllLack(seen + [buffer[..k]], '\n')
    ensures Flatten(Terminated(seen)) + buffer == Flatten(Terminated(seen + [buffer[..k]])) + buffer[k + 1..]
  {
    var line, rest := buffer[..k], buffer[k + 1..];
    assert Lacks(line, '\n');
    assert buffer == line + "\n" + rest;
    TerminatedPush(seen, line);
    var head := Flatten(Terminated(seen));
    Assoc(head, line + "\n", rest);
    Assoc(head, line, "\n");
  }

  function FirstLine(s: string): Option<string> {
    if Lines(s) == [] then None else Some(Lines(s)[0])
  }

  ghost predicate IsRest(rest: seq<string>, chunks: seq<string>) {
    |rest| <= |chunks| && rest == chunks[|chunks| - |rest|..]
  }

  /** The chunks that went before `rest`. */
  function Before(chunks: seq<string>, rest: seq<string>): seq<string>
    requires |rest| <= |chunks|
  {
    chunks[..|chunks| - |rest|]
  }

  /** `read_until` into a buffer of its own: it reads on while what it has read holds no newline, and no
      further; `rest` is what it leaves. */
  ghost predicate ReadsUntilNewline(chunks: seq<string>, rest: seq<string>) {
    && IsRest(rest, chunks)
    && (forall n | 0 <= n < |chunks| - |rest| :: Lacks(Flatten(chunks[..n]), '\n'))
    && (rest != [] ==> !Lacks(Flatten(Before(chunks, rest)), '\n'))
  }

  /** That settles where it stops. */
  lemma StopsOnce(chunks: seq<string>, x: seq<string>, y: seq<string>)
    requires ReadsUntilNewline(chunks, x) && ReadsUntilNewline(chunks, y)
    ensures x == y
  {
  }

  /** A call of `subscribe`: what it has written, the reply it shows, and the chunks before and after it.
      `None` is the failure that is caught. */
  datatype Subscription = Subscription(
    asked: Output, reply: Option<string>, before: seq<string>, rest: seq<string>)

  /** The reply is the first line that was read; whatever else was read with it is lost.  After a failed write
      nothing is read. */
  ghost predicate Happened(sub: Subscription) {
    if sub.asked.Whole() then
      && ReadsUntilNewline(sub.before, sub.rest)
      && sub.reply == FirstLine(Flatten(Before(sub.before, sub.rest)))
    else sub.rest == sub.before && sub.reply == None
  }

  /** `ConsumerClient::subscribe`.  The write gets `taken` bytes out. */
  method SubscribeTopic(topic: string, taken: nat, chunks: seq<string>) returns (sub: Subscription)
    ensures sub.asked == Output("SUBSCRIBE:" + topic + "\n", taken) && sub.before == chunks && Happened(sub)
  {
    var asked := Output("SUBSCRIBE:" + topic + "\n", taken);
    var rest, reply := chunks, None;
    if asked.Whole() {
      var response := "";
      while Find(response, '\n', 0).None? && rest != []
        invariant IsRest(rest, chunks) && response == Flatten(Before(chunks, rest))
        invariant forall n | 0 <= n < |chunks| - |rest| :: Lacks(Flatten(chunks[..n]), '\n')
        decreases |rest|
      {
        FlattenTake(chunks, |chunks| - |rest|);
        response := response + rest[0];
        rest := rest[1..];
      }
      match Find(response, '\n', 0) {
        case None =>
        case Some(k) => reply := Some(response[..k]);
      }
    }
    sub := Subscription(asked, reply, chunks, rest);
  }

  /** A subscription loses nothing that was sent to it, and cuts no line, if and only if some number of reads
      brings exactly the line of its reply. */
  lemma NothingDropped(chunks: seq<string>, rest: seq<string>)
    requires ReadsUntilNewline(chunks, rest) && FirstLine(Flatten(Before(chunks, rest))).Some?
    ensures var read := Flatten(Before(chunks, rest));
            |Lines(read)| == 1 && Damaged(read) == 0
            <==> exists n | 0 <= n <= |chunks| :: Flatten(chunks[..n]) == FirstLine(read).value + "\n"
  {
    var read := Flatten(Before(chunks, rest));
    JustOneLine(read);
    if |Lines(read)| == 1 && Damaged(read) == 0 {
      assert Flatten(chunks[..|chunks| - |rest|]) == FirstLine(read).value + "\n";
    }
    if n: nat :| n <= |chunks| && Flatten(chunks[..n]) == FirstLine(read).value + "\n" {
      ReadsExactly(chunks, rest, n);
    }
  }

  lemma JustOneLine(s: string)
    requires Lines(s) != []
    ensures Lines(s)[0] + "\n" <= s
    ensures |Lines(s)| == 1 && Damaged(s) == 0 <==> s == Lines(s)[0] + "\n"
  {
    var k := Find(s, '\n', 0).value;
    assert s == s[..k] + "\n" + s[k + 1..];
    NoLinesLacks(s[k + 1..]);
  }

  lemma ReadsExactly(chunks: seq<string>, rest: seq<string>, n: nat)
    requires ReadsUntilNewline(chunks, rest) && n <= |chunks|
    requires var read := Flatten(Before(chunks, rest));
             Lines(read) != [] && Flatten(chunks[..n]) == Lines(read)[0] + "\n"
    ensures Flatten(Before(chunks, rest)) == Flatten(chunks[..n])
  {
    var read, used := Flatten(Before(chunks, rest)), |chunks| - |rest|;
    assert Flatten(chunks[..n])[|Lines(read)[0]|] == '\n';
    assert n >= used;
    FlattenPrefix(chunks[..n], used);
    assert chunks[..n][..used] == Before(chunks, rest);
    JustOneLine(read);
  }

  lemma NoLinesLacks(s: string)
    ensures Lines(s) == [] <==> Lacks(s, '\n')
  {
  }

  /** What is left for the listening loop. */
  function Unread(chunks: seq<string>, subs: seq<Subscription>): seq<string> {
    if subs == [] then chunks else subs[|subs| - 1].rest
  }

  /** Subscriptions to these topics, one after the other. */
  ghost predicate InTurn(topics: seq<string>, limits: seq<nat>, chunks: seq<string>, subs: seq<Subscription>)
    requires |limits| == |topics|
  {
    && |subs| == |topics|
    && forall i | 0 <= i < |subs| ::
         && Happened(subs[i])
         && subs[i].asked == Output("SUBSCRIBE:" + topics[i] + "\n", limits[i])
         && subs[i].before == Unread(chunks, subs[..i])
  }

  lemma OneMore(topics: seq<string>, limits: seq<nat>, chunks: seq<string>, subs: seq<Subscription>, sub: Subscription)
    requires |limits| == |topics| && |subs| < |topics|
    requires InTurn(topics[..|subs|], limits[..|subs|], chunks, subs) && Happened(sub)
    requires sub.asked == Output("SUBSCRIBE:" + topics[|subs|] + "\n", limits[|subs|])
    requires sub.before == Unread(chunks, subs)
    ensures InTurn(topics[..|subs| + 1], limits[..|subs| + 1], chunks, subs + [sub])
  {
    var n, more := |subs|, subs + [sub];
    forall i | 0 <= i < |more|
      ensures Happened(more[i]) && more[i].before == Unread(chunks, more[..i])
      ensures more[i].asked == Output("SUBSCRIBE:" + topics[i] + "\n", limits[i]) {
      if i < n {
        assert more[i] == subs[i] && more[..i] == subs[..i];
        assert topics[..n][i] == topics[i] && limits[..n][i] == limits[i];
      } else {
        assert more[..i] == subs;
      }
    }
  }

  lemma {:induction false} UnreadIsRest(
      topics: seq<string>, limits: seq<nat>, chunks: seq<string>, subs: seq<Subscription>)
    requires |limits| == |topics| && InTurn(topics, limits, chunks, subs)
    ensures IsRest(Unread(chunks, subs), chunks)
    decreases |subs|
  {
    if subs == [] {
    } else {
      var n := |subs| - 1;
      AllButLast(topics, limits, chunks, subs);
      UnreadIsRest(topics[..n], limits[..n], chunks, subs[..n]);
    }
  }

  lemma AllButLast(topics: seq<string>, limits: seq<nat>, chunks: seq<string>, subs: seq<Subscription>)
    requires |limits| == |topics| && InTurn(topics, limits, chunks, subs) && subs != []
    ensures var n := |subs| - 1;
            && InTurn(topics[..n], limits[..n], chunks, subs[..n])
            && Happened(subs[n]) && subs[n].before == Unread(chunks, subs[..n])
            && IsRest(subs[n].rest, subs[n].before)
  {
    var n := |subs| - 1;
    forall i | 0 <= i < n ensures subs[..n][i] == subs[i] && subs[..n][..i] == subs[..i] {
    }
  }

  /** The loop over the topics. */
  method SubscribeAll(topics: seq<string>, limits: seq<nat>, chunks: seq<string>) returns (subs: seq<Subscription>)
    requires |limits| == |topics|
    ensures InTurn(topics, limits, chunks, subs)
  {
    subs := [];
    for i := 0 to |topics|
      invariant |subs| == i && InTurn(topics[..i], limits[..i], chunks, subs)
    {
      var sub := SubscribeTopic(topics[i], limits[i], Unread(chunks, subs));
      OneMore(topics, limits, chunks, subs, sub);
      subs := subs + [sub];
    }
    assert topics[..|topics|] == topics && limits[..|topics|] == limits;
  }

  /** The consumer program.  It subscribes to its topics one after the other and then listens; `chunks` is
      what it receives of the bytes written to its session, in any pieces.  It shows the lines of what the
      subscriptions have left, and these are owed to it: from the line after those that `subscribe` has read
      or dropped, in order and without gaps, to the last once it has received everything and the broker is
      idle.  Only the first item can be damaged, and only if `subscribe` read on into its line.  And the reply
      to the first subscription is the reply to the first line the broker has processed for it. */
  method Consume(es: seq<Event>, s: nat, topics: seq<string>, limits: seq<nat>, chunks: seq<string>, rounds: nat)
    returns (subs: seq<Subscription>, shown: seq<Item>)
    requires s in Run(es).clients && Flatten(chunks) <= Run(es).clients[s].wire && |limits| == |topics|
    ensures InTurn(topics, limits, chunks, subs)
    ensures var all := ShowAll(Lines(Flatten(Unread(chunks, subs)))); shown == all[..Least(rounds, |all|)]
    ensures IsRest(Unread(chunks, subs), chunks) && Continues(es, s, chunks, Unread(chunks, subs), rounds, shown)
    ensures topics != [] && subs[0].reply.Some? ==>
              var lines := LinesOf(Run(es).trace, s); lines != [] && subs[0].reply.value == ReplyTo(lines[0])
  {
    subs := SubscribeAll(topics, limits, chunks);
    var rest := Unread(chunks, subs);
    shown := Listen(rest, rounds);
    UnreadIsRest(topics, limits, chunks, subs);
    ListenedOn(es, s, chunks, rest, rounds);
    FirstReplyIsOurs(es, s, topics, limits, chunks, subs);
  }

  lemma {:induction false} FirstReplyIsOurs(
      es: seq<Event>, s: nat, topics: seq<string>, limits: seq<nat>, chunks: seq<string>, subs: seq<Subscription>)
    requires s in Run(es).clients && Flatten(chunks) <= Run(es).clients[s].wire
    requires |limits| == |topics| && InTurn(topics, limits, chunks, subs)
    ensures topics != [] && subs[0].reply.Some? ==>
              var lines := LinesOf(Run(es).trace, s); lines != [] && subs[0].reply.value == ReplyTo(lines[0])
  {
    if topics != [] && subs[0].reply.Some? {
      assert Happened(subs[0]) && subs[0].before == Unread(chunks, subs[..0]) == chunks;
      FirstLineIsOurs(es, s, chunks, subs[0].rest);
    }
  }

  /** What the listening loop shows of `rest`, in terms of what is owed. */
  ghost predicate Continues(
      es: seq<Event>, s: nat, chunks: seq<string>, rest: seq<string>, rounds: nat, shown: seq<Item>)
    requires s in Run(es).clients && |rest| <= |chunks|
  {
    var skipped := Flatten(Before(chunks, rest));
    var owed := ExpectedItems(Run(es).trace, s);
    && ShowsFrom(shown, owed, |Lines(skipped)|, Damaged(skipped))
    && (Flatten(chunks) == Run(es).clients[s].wire && Idle(Run(es).clients[s]) && |shown| < rounds ==>
          |Lines(skipped)| + |shown| == |owed|)
  }

  lemma {:induction false} ListenedOn(es: seq<Event>, s: nat, chunks: seq<string>, rest: seq<string>, rounds: nat)
    requires s in Run(es).clients && Flatten(chunks) <= Run(es).clients[s].wire
    requires IsRest(rest, chunks)
    ensures var all := ShowAll(Lines(Flatten(rest)));
            Continues(es, s, chunks, rest, rounds, all[..Least(rounds, |all|)])
  {
    WholeStream(chunks, rest);
    var skipped, all := Flatten(Before(chunks, rest)), ShowAll(Lines(Flatten(rest)));
    DeliveryAfter(es, s, skipped, Flatten(rest));
    ShowsLess(all, ExpectedItems(Run(es).trace, s), |Lines(skipped)|, Damaged(skipped), Least(rounds, |all|));
  }

  /** Stopping earlier. */
  lemma ShowsLess(shown: seq<Item>, owed: seq<Item>, at: nat, damaged: nat, n: nat)
    requires ShowsFrom(shown, owed, at, damaged) && n <= |shown|
    ensures ShowsFrom(shown[..n], owed, at, damaged)
  {
    if n >= damaged {
      assert shown[..n][damaged..] == shown[damaged..][..n - damaged];
    }
  }

  lemma WholeStream(chunks: seq<string>, rest: seq<string>)
    requires IsRest(rest, chunks)
    ensures Flatten(Before(chunks, rest)) + Flatten(rest) == Flatten(chunks)
  {
    assert Before(chunks, rest) + rest == chunks;
    FlattenAppend(Before(chunks, rest), rest);
  }

  lemma {:induction false} FirstLineIsOurs(es: seq<Event>, s: nat, chunks: seq<string>, rest: seq<string>)
    requires s in Run(es).clients && Flatten(chunks) <= Run(es).clients[s].wire
    requires IsRest(rest, chunks)
    ensures var reply, lines := FirstLine(Flatten(Before(chunks, rest))), LinesOf(Run(es).trace, s);
            reply.Some? ==> lines != [] && reply.value == ReplyTo(lines[0])
  {
    var read := Flatten(Before(chunks, rest));
    WholeStream(chunks, rest);
    WireIsOwed(es, s);
    LinesMonotone(read, Run(es).clients[s].wire);
    if Lines(read) != [] {
      FirstReply(Run(es).trace, s);
    }
  }

  // ---------------------------------------------------------------- producer

  predicate Blank(c: char) {
    c == ' ' || c == '\t' || c == '\n' || c == '\r'
  }

  /** `find_first_not_of(" \t\n\r")`, from `from` on. */
  function FirstNotBlank(s: string, from: nat): (r: Option<nat>)
    ensures r.None? ==> forall k | from <= k < |s| :: Blank(s[k])
    ensures r.Some? ==> from <= r.value < |s| && !Blank(s[r.value]) && forall k | from <= k < r.value :: Blank(s[k])
    decreases |s| - from
  {
    if from >= |s| then None else if !Blank(s[from]) then Some(from) else FirstNotBlank(s, from + 1)
  }

  /** `find_last_not_of(" \t\n\r")`, below `end`. */
  function LastNotBlank(s: string, end: nat): (r: Option<nat>)
    requires end <= |s|
    ensures r.None? ==> forall k | 0 <= k < end :: Blank(s[k])
    ensures r.Some? ==> r.value < end && !Blank(s[r.value]) && forall k | r.value < k < end :: Blank(s[k])
  {
    if end == 0 then None else if !Blank(s[end - 1]) then Some(end - 1) else LastNotBlank(s, end - 1)
  }

  /** What trimming leaves of a line: the middle of a split into blanks, text and blanks whose text, if
      there is any, begins and ends with something that is not blank. */
  ghost predicate IsTrimmed(line: string, text: string) {
    exists a: nat, b: nat | a <= b <= |line| ::
      && text == line[a..b]
      && (forall k | 0 <= k < a :: line[k] in " \t\n\r") && (forall k | b <= k < |line| :: line[k] in " \t\n\r")
      && (a < b ==> line[a] !in " \t\n\r" && line[b - 1] !in " \t\n\r")
  }

  /** The two `erase` calls of the prompt.  Both library searches answer `npos` on a blank line; the first
      `erase` then removes everything, and the second begins at `npos + 1 == 0`. */
  method TrimLine(input: string) returns (line: string)
    ensures IsTrimmed(input, line)
  {
    line := input;
    ghost var a := |input|;
    match FirstNotBlank(line, 0) {
      case Some(k) => line := line[k..]; a := k;
      case None => line := "";
    }
    match LastNotBlank(line, |line|) {
      case Some(k) => line := line[..k + 1];
      case None => line := line[..0];
    }
    ghost var b := a + |line|;
    assert line == input[a..b];
    assert a < b ==> input[b - 1] == line[|line| - 1];
  }

  /** There is only one way to trim a line. */
  lemma TrimUnique(line: string, x: string, y: string)
    requires IsTrimmed(line, x) && IsTrimmed(line, y)
    ensures x == y
  {
  }

  datatype Action = Skip | Quit | Help | Publishing(bytes: string) | Commanding(bytes: string) | Complain

  /** What the prompt does with a trimmed line. */
  function Dispatch(line: string): Action {
    if line == "" then Skip
    else if line == "quit" || line == "exit" then Quit
    else if line == "help" || line == "?" then Help
    else if "PUBLISH:" <= line then
      match Find(line, ':', 8)
      case Some(k) => Publishing(PublishLine(line[8..k], line[k + 1..]) + "\n")
      case None => Complain
    else if "SUBSCRIBE:" <= line || "UNSUBSCRIBE:" <= line || "PING" <= line then Commanding(line + "\n")
    else Complain
  }

  predicate Sends(line: string) {
    Dispatch(line).Publishing? || Dispatch(line).Commanding?
  }

  /** What the prompt does with a line, by its text. */
  lemma PromptText(line: string)
    ensures Sends(line) <==> || "SUBSCRIBE:" <= line || "UNSUBSCRIBE:" <= line || "PING" <= line
                             || ("PUBLISH:" <= line && !Lacks(line[8..], ':'))
    ensures Dispatch(line) == Quit <==> line == "quit" || line == "exit"
    ensures Dispatch(line) == Help <==> line == "help" || line == "?"
    ensures Dispatch(line) == Skip <==> line == ""
  {
    if "PUBLISH:" <= line {
      ColonAfter(line, 8);
      assert line[0] == 'P' && line[1] == 'U';
    }
    if "SUBSCRIBE:" <= line { assert line[0] == 'S'; }
    if "UNSUBSCRIBE:" <= line { assert line[0] == 'U'; }
    if "PING" <= line { assert line[0] == 'P' && line[1] == 'I'; }
  }

  lemma ColonAfter(line: string, from: nat)
    requires from <= |line|
    ensures Find(line, ':', from).Some? <==> !Lacks(line[from..], ':')
  {
    assert forall k | from <= k < |line| :: line[k] == line[from..][k - from];
    if k: nat :| k < |line[from..]| && line[from..][k] == ':' {
      assert line[from + k] == ':';
    }
  }

  /** Taking a PUBLISH line apart and putting it together again changes nothing: whatever the prompt sends
      is the line as typed, and the broker knows the command.  It turns down a PUBLISH only for its empty
      topic. */
  lemma SendsWhatWasTyped(line: string)
    requires Sends(line)
    ensures Dispatch(line).bytes == line + "\n"
    ensures !Parse(line).Rejected? || Parse(line).reason == InvalidFormat
    ensures Dispatch(line).Publishing? ==>
              (Parse(line).Publish? <==> Find(line, ':', 8).value != 8)
  {
    if "PUBLISH:" <= line {
      PutTogether(line, Find(line, ':', 8).value);
    }
  }

  lemma PutTogether(line: string, k: nat)
    requires "PUBLISH:" <= line && Find(line, ':', 8) == Some(k)
    ensures PublishLine(line[8..k], line[k + 1..]) == line
    ensures if k == 8 then Parse(line) == Rejected(InvalidFormat) else Parse(line).Publish?
  {
    SplitAt(line, "PUBLISH:", k);
  }

  /** The lines that are sent. */
  function Commands(lines: seq<string>): seq<string> {
    if lines == [] then []
    else
      var n := |lines| - 1;
      Commands(lines[..n]) + (if Sends(lines[n]) then [lines[n]] else [])
  }

  ghost predicate AllTrimmed(inputs: seq<string>, lines: seq<string>) {
    |lines| == |inputs| && forall i | 0 <= i < |lines| :: IsTrimmed(inputs[i], lines[i])
  }

  predicate NoQuit(lines: seq<string>) {
    forall i | 0 <= i < |lines| :: Dispatch(lines[i]) != Quit
  }

  /** One call of `asio::write` for each command, the bytes of the line as typed but for the blanks around it;
      `limits` says how many bytes each call gets out before it fails, if it does. */
  ghost predicate Asked(lines: seq<string>, writes: seq<Output>, limits: seq<nat>) {
    && AllLack(Commands(lines), '\n') && Handed(writes) == Terminated(Commands(lines))
    && |writes| <= |limits| && forall j | 0 <= j < |writes| :: writes[j].taken == limits[j]
  }

  /** The prompt: `inputs` are the lines typed, and `lines` those it reads, trimmed: all of them, or up to
      the first that quits.  Every command among them is handed to `asio::write`, whatever became of the writes
      before, and the broker reads the commands as typed if and only if none of the writes fails. */
  method Prompt(inputs: seq<string>, limits: seq<nat>) returns (writes: seq<Output>, lines: seq<string>)
    requires AllLack(inputs, '\n') && |limits| == |inputs|
    ensures |lines| <= |inputs| && AllTrimmed(inputs[..|lines|], lines)
    ensures NoQuit(lines) || (lines != [] && NoQuit(lines[..|lines| - 1]))
    ensures |lines| < |inputs| ==> !NoQuit(lines)
    ensures Asked(lines, writes, limits)
    ensures Lines(Left(writes)) == Commands(lines) <==> AllWhole(writes)
  {
    writes := [];
    lines := [];
    for i := 0 to |inputs|
      invariant |lines| == i && AllTrimmed(inputs[..i], lines) && NoQuit(lines)
      invariant |writes| <= i && Asked(lines, writes, limits)
    {
      var line := TrimLine(inputs[i]);
      TrimLacks(inputs[i], line);
      AskedPush(lines, line, writes, limits);
      ReadPush(inputs, lines, line);
      lines := lines + [line];
      match Dispatch(line) {
        case Quit => break;
        case Publishing(bytes) => writes := writes + [Output(bytes, limits[|writes|])];
        case Commanding(bytes) => writes := writes + [Output(bytes, limits[|writes|])];
        case _ =>
      }
    }
    LinesOfWrites(Commands(lines), writes);
  }

  lemma TrimLacks(input: string, line: string)
    requires IsTrimmed(input, line) && Lacks(input, '\n')
    ensures Lacks(line, '\n')
  {
  }

  /** What one more line adds to the commands. */
  lemma CommandsPush(lines: seq<string>, line: string)
    ensures Commands(lines + [line]) == if Sends(line) then Commands(lines) + [line] else Commands(lines)
  {
    assert (lines + [line])[..|lines|] == lines;
  }

  lemma ReadPush(inputs: seq<string>, lines: seq<string>, line: string)
    requires |lines| < |inputs| && AllTrimmed(inputs[..|lines|], lines) && IsTrimmed(inputs[|lines|], line)
    ensures AllTrimmed(inputs[..|lines| + 1], lines + [line])
    ensures (lines + [line])[..|lines|] == lines
    ensures NoQuit(lines + [line]) <==> NoQuit(lines) && Dispatch(line) != Quit
  {
    var more := lines + [line];
    assert forall i | 0 <= i < |lines| :: more[i] == lines[i] && inputs[..|lines|][i] == inputs[i];
  }

  lemma AskedPush(lines: seq<string>, line: string, writes: seq<Output>, limits: seq<nat>)
    requires Asked(lines, writes, limits) && |writes| < |limits| && Lacks(line, '\n')
    ensures Sends(line) ==>
              Asked(lines + [line], writes + [Output(Dispatch(line).bytes, limits[|writes|])], limits)
    ensures !Sends(line) ==> Asked(lines + [line], writes, limits)
  {
    CommandsPush(lines, line);
    if Sends(line) {
      SendsWhatWasTyped(line);
      AskedMore(lines, line, writes, limits);
    }
  }

  lemma AskedMore(lines: seq<string>, line: string, writes: seq<Output>, limits: seq<nat>)
    requires Asked(lines, writes, limits) && |writes| < |limits| && Lacks(line, '\n')
    requires Commands(lines + [line]) == Commands(lines) + [line]
    ensures Asked(lines + [line], writes + [Output(line + "\n", limits[|writes|])], limits)
  {
    var ls := Commands(lines);
    assert Handed(writes + [Output(line + "\n", limits[|writes|])]) == Handed(writes) + [line + "\n"];
    assert Terminated(ls + [line]) == Terminated(ls) + [line + "\n"];
  }
}
