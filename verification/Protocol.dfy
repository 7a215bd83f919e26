/** The line protocol: what the broker accepts, what it answers, and how the clients at both ends
    write and read it. */
module Protocol {
  import opened Text

  datatype Reason = EmptyMessage | InvalidFormat | EmptyTopic | UnknownCommand

  datatype Command =
    | Publish(topic: string, payload: string)
    | Subscribe(topic: string)
    | Unsubscribe(topic: string)
    | Ping
    | Rejected(reason: Reason)

  /** The dispatch of `Session::process_message`, branch by branch. */
  function Parse(m: string): Command {
    if m == "" then Rejected(EmptyMessage)
    else if "PUBLISH:" <= m then
      if |m| < 10 then Rejected(InvalidFormat)
      else
        match Find(m, ':', 8)
        case Some(k) =>
          if k > 8 then
            var topic := m[8..k];
            var payload := m[k + 1..];
            if topic == "" then Rejected(EmptyTopic) else Publish(topic, payload)
          else Rejected(InvalidFormat)
        case None => Rejected(InvalidFormat)
    else if "SUBSCRIBE:" <= m then
      if |m| <= 10 then Rejected(InvalidFormat)
      else
        var topic := m[10..];
        if topic == "" then Rejected(EmptyTopic) else Subscribe(topic)
    else if "UNSUBSCRIBE:" <= m then
      if |m| <= 12 then Rejected(InvalidFormat)
      else
        var topic := m[12..];
        if topic == "" then Rejected(EmptyTopic) else Unsubscribe(topic)
    else if "PING" <= m then Ping
    else Rejected(UnknownCommand)
  }

  function ErrorText(r: Reason): string {
    match r
    case EmptyMessage => "ERROR:EMPTY_MESSAGE"
    case InvalidFormat => "ERROR:INVALID_FORMAT"
    case EmptyTopic => "ERROR:EMPTY_TOPIC"
    case UnknownCommand => "ERROR:UNKNOWN_COMMAND"
  }

  /** The one line the broker answers to a command with, without its newline. */
  function ReplyLine(cmd: Command): string {
    match cmd
    case Publish(_, _) => "OK:PUBLISHED"
    case Subscribe(t) => "OK:SUBSCRIBED:" + t
    case Unsubscribe(t) => "OK:UNSUBSCRIBED:" + t
    case Ping => "PONG"
    case Rejected(r) => ErrorText(r)
  }

  /** The line sent to each subscriber, without its newline. */
  function NotificationLine(topic: string, payload: string): string {
    "MESSAGE:" + topic + ":" + payload
  }

  /** The line a producer or logger sends to publish, without its newline. */
  function PublishLine(topic: string, payload: string): string {
    "PUBLISH:" + topic + ":" + payload
  }

  /** What `ConsumerClient::start_listening` shows for one line. */
  datatype Item =
    | Message(topic: string, payload: string)
    | Status(line: string)
    | Pong
    | Plain(line: string)
    | Nothing

  function Show(line: string): Item {
    if "MESSAGE:" <= line then
      match Find(line, ':', 8)
      case Some(k) => Message(line[8..k], line[k + 1..])
      case None => Nothing
    else if "OK:" <= line || "ERROR:" <= line then Status(line)
    else if line == "PONG" then Pong
    else if line != "" then Plain(line)
    else Nothing
  }

  function ShowAll(ls: seq<string>): (r: seq<Item>)
    ensures |r| == |ls|
    ensures forall i | 0 <= i < |ls| :: r[i] == Show(ls[i])
  {
    seq(|ls|, i requires 0 <= i < |ls| => Show(ls[i]))
  }

  /** A topic that a PUBLISH command can name. */
  predicate Publishable(topic: string) {
    topic != "" && Lacks(topic, ':')
  }

  /** The first colon after a known head splits the rest in only one way. */
  lemma {:induction false} FindAfter(head: string, topic: string, payload: string)
    requires Lacks(topic, ':')
    ensures var s := head + topic + ":" + payload;
            Find(s, ':', |head|) == Some(|head| + |topic|)
            && s[|head|..|head| + |topic|] == topic && s[|head| + |topic| + 1..] == payload
  {
    var front, back := head + topic, ":" + payload;
    var s := head + topic + ":" + payload;
    assert s == front + back;
    Parts(front, back);
    Parts(head, topic);
    Parts(":", payload);
    FindFirst(s, ':', |head|, |front|);
  }

  lemma SplitAt(s: string, head: string, k: nat)
    requires head <= s && |head| <= k < |s| && s[k] == ':'
    ensures s == head + s[|head|..k] + ":" + s[k + 1..]
  {
  }

  /** PUBLISH is accepted for exactly the lines of the documented form with a publishable topic: the
      length check turns away nothing else. */
  lemma PublishAcceptance(m: string, topic: string, payload: string)
    ensures Parse(m) == Publish(topic, payload) <==> Publishable(topic) && m == PublishLine(topic, payload)
  {
    if Parse(m) == Publish(topic, payload) {
      SplitAt(m, "PUBLISH:", Find(m, ':', 8).value);
    }
    if Publishable(topic) && m == PublishLine(topic, payload) {
      FindAfter("PUBLISH:", topic, payload);
    }
  }

  /** SUBSCRIBE and UNSUBSCRIBE are accepted for exactly the lines that name a non-empty topic, which may
      hold colons. */
  lemma SubscribeAcceptance(m: string, topic: string)
    ensures Parse(m) == Subscribe(topic) <==> topic != "" && m == "SUBSCRIBE:" + topic
    ensures Parse(m) == Unsubscribe(topic) <==> topic != "" && m == "UNSUBSCRIBE:" + topic
  {
    if m == "SUBSCRIBE:" + topic {
      assert m[0] == 'S' && m[10..] == topic;
    }
    if m == "UNSUBSCRIBE:" + topic {
      assert m[0] == 'U' && m[12..] == topic;
    }
    if "SUBSCRIBE:" <= m { assert m == "SUBSCRIBE:" + m[10..]; }
    if "UNSUBSCRIBE:" <= m { assert m == "UNSUBSCRIBE:" + m[12..]; }
  }

  /** Which lines are turned away, and with what: the empty topic error is never the one. */
  lemma Rejections(m: string)
    ensures Parse(m) != Rejected(EmptyTopic)
    ensures Parse(m) == Rejected(EmptyMessage) <==> m == ""
    ensures Parse(m) == Ping <==> "PING" <= m
    ensures Parse(m) == Rejected(InvalidFormat) <==>
            || ("PUBLISH:" <= m && forall t, p :: Publishable(t) ==> m != PublishLine(t, p))
            || m == "SUBSCRIBE:" || m == "UNSUBSCRIBE:"
  {
    if "PUBLISH:" <= m {
      assert m[0] == 'P' && m[1] == 'U';
      forall t, p | Publishable(t) ensures m == PublishLine(t, p) ==> Parse(m).Publish? {
        PublishAcceptance(m, t, p);
      }
      if Parse(m).Publish? {
        PublishAcceptance(m, Parse(m).topic, Parse(m).payload);
      }
    }
    if "SUBSCRIBE:" <= m { assert m[0] == 'S'; assert m == "SUBSCRIBE:" + m[10..]; }
    if "UNSUBSCRIBE:" <= m { assert m[0] == 'U'; assert m == "UNSUBSCRIBE:" + m[12..]; }
    if "PING" <= m { assert m[0] == 'P' && m[1] == 'I'; }
  }

  /** Publish through the broker and show at the consumer: the same pair comes out, for every topic a
      PUBLISH can name and every payload. */
  lemma RoundTrip(topic: string, payload: string)
    requires Publishable(topic)
    ensures Parse("PUBLISH:" + topic + ":" + payload) == Publish(topic, payload)
    ensures Parse(PublishLine(topic, payload)) == Publish(topic, payload)
    ensures Show("MESSAGE:" + topic + ":" + payload) == Message(topic, payload)
    ensures Show(NotificationLine(topic, payload)) == Message(topic, payload)
  {
    PublishAcceptance(PublishLine(topic, payload), topic, payload);
    FindAfter("MESSAGE:", topic, payload);
  }

  /** What a consumer shows, by the text of the line. */
  lemma ShowText(line: string, topic: string, payload: string)
    ensures Lacks(topic, ':') && line == "MESSAGE:" + topic + ":" + payload ==> Show(line) == Message(topic, payload)
    ensures "MESSAGE:" <= line && Lacks(line[8..], ':') ==> Show(line) == Nothing
    ensures "OK:" <= line || "ERROR:" <= line ==> Show(line) == Status(line)
    ensures line == "PONG" ==> Show(line) == Pong
    ensures line == "" ==> Show(line) == Nothing
    ensures line != "" && line != "PONG" && !("MESSAGE:" <= line) && !("OK:" <= line) && !("ERROR:" <= line) ==>
              Show(line) == Plain(line)
  {
    if line == "PONG" {
      assert line[0] == 'P';
    }
    if "MESSAGE:" <= line {
      assert line[0] == 'M';
      if Lacks(topic, ':') && line == "MESSAGE:" + topic + ":" + payload {
        FindAfter("MESSAGE:", topic, payload);
        assert line[8..][|topic|] == ':';
      } else if Lacks(line[8..], ':') {
        assert forall k | 8 <= k < |line| :: line[k] == line[8..][k - 8];
      }
    }
  }

  /** A consumer takes a line of the broker for a notification exactly when it is one. */
  lemma RepliesAreNotNotifications(cmd: Command)
    ensures !("MESSAGE:" <= ReplyLine(cmd))
    ensures cmd.Ping? ==> Show(ReplyLine(cmd)) == Pong
    ensures !cmd.Ping? ==> Show(ReplyLine(cmd)) == Status(ReplyLine(cmd))
  {
    var r := ReplyLine(cmd);
    assert r[0] == 'O' || r[0] == 'E' || r[0] == 'P';
    assert !cmd.Ping? ==> "OK:" <= r || "ERROR:" <= r;
  }

  /** Notifications name their topic and payload uniquely. */
  lemma NotificationInjective(t1: string, p1: string, t2: string, p2: string)
    requires Publishable(t1) && Publishable(t2)
    requires NotificationLine(t1, p1) == NotificationLine(t2, p2)
    ensures t1 == t2 && p1 == p2
  {
    RoundTrip(t1, p1);
    RoundTrip(t2, p2);
  }

  lemma FixedTextsLack()
    ensures Lacks("PUBLISH:", '\n') && Lacks("MESSAGE:", '\n')
    ensures Lacks("OK:SUBSCRIBED:", '\n') && Lacks("OK:UNSUBSCRIBED:", '\n')
    ensures Lacks("OK:PUBLISHED", '\n') && Lacks("PONG", '\n')
  {
  }

  lemma ErrorTextsLack(r: Reason)
    ensures Lacks(ErrorText(r), '\n')
  {
  }

  lemma TopicLacks(m: string, topic: string)
    requires Lacks(m, '\n')
    requires m == "SUBSCRIBE:" + topic || m == "UNSUBSCRIBE:" + topic
    ensures Lacks(topic, '\n')
  {
    var head := if m[0] == 'S' then "SUBSCRIBE:" else "UNSUBSCRIBE:";
    LacksConcat(head, topic, '\n');
  }

  /** A command read from a newline-free line is answered, and passed on, in newline-free lines. */
  lemma {:induction false} LinesStayLines(m: string)
    requires Lacks(m, '\n')
    ensures Lacks(ReplyLine(Parse(m)), '\n')
    ensures Parse(m).Publish? ==>
            Publishable(Parse(m).topic) && Lacks(Parse(m).topic, '\n')
            && Lacks(NotificationLine(Parse(m).topic, Parse(m).payload), '\n')
  {
    var cmd := Parse(m);
    FixedTextsLack();
    match cmd
    case Publish(t, p) =>
      PublishAcceptance(m, t, p);
      FramedLacks("PUBLISH:", t, p);
      FramedLacks("MESSAGE:", t, p);
    case Subscribe(t) =>
      SubscribeAcceptance(m, t);
      TopicLacks(m, t);
      LacksConcat("OK:SUBSCRIBED:", t, '\n');
    case Unsubscribe(t) =>
      SubscribeAcceptance(m, t);
      TopicLacks(m, t);
      LacksConcat("OK:UNSUBSCRIBED:", t, '\n');
    case Ping =>
    case Rejected(r) =>
      ErrorTextsLack(r);
  }

  lemma FramedLacks(head: string, topic: string, payload: string)
    ensures Lacks(head + topic + ":" + payload, '\n')
            <==> Lacks(head, '\n') && Lacks(topic, '\n') && Lacks(payload, '\n')
  {
    LacksConcat(head + topic + ":", payload, '\n');
    LacksConcat(head + topic, ":", '\n');
    LacksConcat(head, topic, '\n');
    assert Lacks(":", '\n');
  }
}
