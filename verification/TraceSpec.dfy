/** What a client must see, said from the trace alone: no queues, no buffers, no subscription map. */
module TraceSpec {
  import opened Text
  import opened Protocol
  import opened BrokerModel

  /** `i` settles whether `s` is subscribed to `t`, and how. */
  function Decides(i: Input, s: nat, t: string): Option<bool> {
    if i.client != s then None
    else if i.Gone? then Some(false)
    else
      match Parse(i.text)
      case Subscribe(u) => if u == t then Some(true) else None
      case Unsubscribe(u) => if u == t then Some(false) else None
      case _ => None
  }

  /** `s` is subscribed to `t` after `trace`: the last thing that settled it says so. */
  predicate Subscribed(trace: seq<Input>, s: nat, t: string) {
    if trace == [] then false
    else
      var n := |trace| - 1;
      match Decides(trace[n], s, t)
      case Some(b) => b
      case None => Subscribed(trace[..n], s, t)
  }

  /** Somebody is subscribed to `t`. */
  ghost predicate Live(trace: seq<Input>, t: string) {
    exists s: nat :: Subscribed(trace, s, t)
  }

  /** The broker keeps an entry for `t`: a SUBSCRIBE makes one, an UNSUBSCRIBE that leaves nobody drops it,
      and a disconnect never does. */
  ghost predicate Listed(trace: seq<Input>, t: string) {
    if trace == [] then false
    else
      var n := |trace| - 1;
      match trace[n]
      case Gone(_) => Listed(trace[..n], t)
      case Line(_, text) =>
        match Parse(text)
        case Subscribe(u) => u == t || Listed(trace[..n], t)
        case Unsubscribe(u) => Listed(trace[..n], t) && (u == t ==> Live(trace, t))
        case _ => Listed(trace[..n], t)
  }

  ghost predicate NoneGone(trace: seq<Input>) {
    forall i | 0 <= i < |trace| :: trace[i].Line?
  }

  /** Without a disconnect every entry has a subscriber. */
  lemma {:induction false} ListedIsLive(trace: seq<Input>, t: string)
    requires NoneGone(trace) && Listed(trace, t)
    ensures Live(trace, t)
  {
    var n := |trace| - 1;
    var Line(from, text) := trace[n];
    if Parse(text) == Subscribe(t) {
      assert Subscribed(trace, from, t);
    } else if Parse(text) != Unsubscribe(t) {
      ListedIsLive(trace[..n], t);
      var s: nat :| Subscribed(trace[..n], s, t);
      assert Decides(trace[n], s, t).None?;
      assert Subscribed(trace, s, t);
    }
  }

  /** The lines sent to `s` when `cmd` of client `from` is processed after `before`. */
  function Sent(before: seq<Input>, from: nat, cmd: Command, s: nat): seq<string> {
    (match cmd
     case Publish(t, p) => if Subscribed(before, s, t) then [NotificationLine(t, p)] else []
     case _ => [])
    + (if from == s then [ReplyLine(cmd)] else [])
  }

  /** Every line for `s`, in order. */
  function Expected(trace: seq<Input>, s: nat): seq<string> {
    if trace == [] then []
    else
      var n := |trace| - 1;
      Expected(trace[..n], s)
      + (match trace[n]
         case Line(from, text) => Sent(trace[..n], from, Parse(text), s)
         case Gone(_) => [])
  }

  /** What a client showing its lines shows for one processed command. */
  function Shown(before: seq<Input>, from: nat, cmd: Command, s: nat): seq<Item> {
    (match cmd
     case Publish(t, p) => if Subscribed(before, s, t) then [Message(t, p)] else []
     case _ => [])
    + (if from != s then [] else if cmd.Ping? then [Pong] else [Status(ReplyLine(cmd))])
  }

  /** An item owed to a client, and the client whose line caused it. */
  datatype Owed = Owed(from: nat, item: Item)

  function Tag(from: nat, items: seq<Item>): (r: seq<Owed>)
    ensures |r| == |items|
    ensures forall i | 0 <= i < |items| :: r[i] == Owed(from, items[i])
  {
    seq(|items|, i requires 0 <= i < |items| => Owed(from, items[i]))
  }

  function Items(owed: seq<Owed>): (r: seq<Item>)
    ensures |r| == |owed|
    ensures forall i | 0 <= i < |owed| :: r[i] == owed[i].item
  {
    seq(|owed|, i requires 0 <= i < |owed| => owed[i].item)
  }

  /** Every item a client of session `s` must show, in order, each with its origin: the messages published
      while it was subscribed to their topic, among the replies to its own commands. */
  function ExpectedFrom(trace: seq<Input>, s: nat): seq<Owed> {
    if trace == [] then []
    else
      var n := |trace| - 1;
      ExpectedFrom(trace[..n], s)
      + (match trace[n]
         case Line(from, text) => Tag(from, Shown(trace[..n], from, Parse(text), s))
         case Gone(_) => [])
  }

  function ExpectedItems(trace: seq<Input>, s: nat): seq<Item> {
    Items(ExpectedFrom(trace, s))
  }

  /** The lines processed for `s`. */
  function LinesOf(trace: seq<Input>, s: nat): seq<string> {
    if trace == [] then []
    else
      var n := |trace| - 1;
      LinesOf(trace[..n], s) + (if trace[n].Line? && trace[n].client == s then [trace[n].text] else [])
  }

  /** The topics and payloads published. */
  function Published(trace: seq<Input>): seq<(string, string)> {
    if trace == [] then []
    else
      var n := |trace| - 1;
      Published(trace[..n])
      + (match trace[n]
         case Line(_, text) =>
           (match Parse(text)
            case Publish(t, p) => [(t, p)]
            case _ => [])
         case Gone(_) => [])
  }

  /** Handlers only ever see lines without a newline. */
  ghost predicate Clean(trace: seq<Input>) {
    forall i | 0 <= i < |trace| && trace[i].Line? :: Lacks(trace[i].text, '\n')
  }

  ghost predicate Mentions(trace: seq<Input>, s: nat) {
    exists i | 0 <= i < |trace| :: trace[i].client == s
  }

  lemma {:induction false} NeverMentioned(trace: seq<Input>, s: nat)
    requires !Mentions(trace, s)
    ensures Expected(trace, s) == [] && LinesOf(trace, s) == []
    ensures forall t :: !Subscribed(trace, s, t)
  {
    if trace == [] {
    } else {
      var n := |trace| - 1;
      assert trace[n].client != s;
      assert !Mentions(trace[..n], s);
      NeverMentioned(trace[..n], s);
    }
  }

  lemma LineShows(before: seq<Input>, from: nat, text: string, s: nat)
    requires Lacks(text, '\n')
    ensures AllLack(Sent(before, from, Parse(text), s), '\n')
    ensures ShowAll(Sent(before, from, Parse(text), s)) == Shown(before, from, Parse(text), s)
  {
    LinesStayLines(text);
    SentShows(before, from, Parse(text), s);
  }

  lemma ShowAllAppend(a: seq<string>, b: seq<string>)
    ensures ShowAll(a + b) == ShowAll(a) + ShowAll(b)
    ensures AllLack(a + b, '\n') <==> AllLack(a, '\n') && AllLack(b, '\n')
  {
    assert forall i | 0 <= i < |b| :: (a + b)[|a| + i] == b[i];
    assert forall i | 0 <= i < |a| :: (a + b)[i] == a[i];
  }

  /** The text of a sent line is one line, and shows as the item it stands for. */
  lemma {:induction false} ExpectedShows(trace: seq<Input>, s: nat)
    requires Clean(trace)
    ensures AllLack(Expected(trace, s), '\n')
    ensures ShowAll(Expected(trace, s)) == ExpectedItems(trace, s)
  {
    if trace == [] {
    } else {
      var n := |trace| - 1;
      ExpectedShows(trace[..n], s);
      match trace[n]
      case Line(from, text) =>
        LineShows(trace[..n], from, text, s);
        ShowAllAppend(Expected(trace[..n], s), Sent(trace[..n], from, Parse(text), s));
        ItemsAppend(ExpectedFrom(trace[..n], s), from, Shown(trace[..n], from, Parse(text), s));
      case Gone(_) =>
        assert Expected(trace, s) == Expected(trace[..n], s) && ExpectedFrom(trace, s) == ExpectedFrom(trace[..n], s);
    }
  }

  lemma ItemsAppend(owed: seq<Owed>, from: nat, items: seq<Item>)
    ensures Items(owed + Tag(from, items)) == Items(owed) + items
  {
  }

  /** The first thing a session is sent is the reply to its first line: before it has sent a line it is owed
      nothing. */
  lemma {:induction false} FirstReply(trace: seq<Input>, s: nat)
    requires Expected(trace, s) != []
    ensures LinesOf(trace, s) != [] && Expected(trace, s)[0] == ReplyTo(LinesOf(trace, s)[0])
  {
    var n := |trace| - 1;
    if Expected(trace[..n], s) != [] {
      FirstReply(trace[..n], s);
    } else {
      var Line(from, text) := trace[n];
      NothingSentNobodyHeard(trace[..n], s);
      assert from == s;
    }
  }

  lemma {:induction false} NothingSentNobodyHeard(trace: seq<Input>, s: nat)
    requires Expected(trace, s) == []
    ensures LinesOf(trace, s) == [] && forall t :: !Subscribed(trace, s, t)
  {
    forall t ensures !Subscribed(trace, s, t) {
      if Subscribed(trace, s, t) {
        SubscribedMeansAcknowledged(trace, s, t);
      }
    }
    RequestReply(trace, s);
  }

  lemma {:induction false} SentShows(before: seq<Input>, from: nat, cmd: Command, s: nat)
    requires Lacks(ReplyLine(cmd), '\n')
    requires cmd.Publish? ==> Publishable(cmd.topic) && Lacks(NotificationLine(cmd.topic, cmd.payload), '\n')
    ensures AllLack(Sent(before, from, cmd, s), '\n')
    ensures ShowAll(Sent(before, from, cmd, s)) == Shown(before, from, cmd, s)
  {
    RepliesAreNotNotifications(cmd);
    if cmd.Publish? {
      RoundTrip(cmd.topic, cmd.payload);
    }
  }

  /** The lines that are not notifications. */
  function Replies(ls: seq<string>): seq<string> {
    if ls == [] then []
    else
      var n := |ls| - 1;
      Replies(ls[..n]) + (if "MESSAGE:" <= ls[n] then [] else [ls[n]])
  }

  function ReplyTo(line: string): string {
    ReplyLine(Parse(line))
  }

  /** What the broker answers, by the text of the line alone. */
  lemma ReplyText(m: string)
    ensures m == "" ==> ReplyTo(m) == "ERROR:EMPTY_MESSAGE"
    ensures forall t, p | t != "" && Lacks(t, ':') && m == "PUBLISH:" + t + ":" + p :: ReplyTo(m) == "OK:PUBLISHED"
    ensures "PUBLISH:" <= m && (forall t, p | t != "" && Lacks(t, ':') :: m != "PUBLISH:" + t + ":" + p) ==>
              ReplyTo(m) == "ERROR:INVALID_FORMAT"
    ensures m == "SUBSCRIBE:" || m == "UNSUBSCRIBE:" ==> ReplyTo(m) == "ERROR:INVALID_FORMAT"
    ensures forall t | t != "" && m == "SUBSCRIBE:" + t :: ReplyTo(m) == "OK:SUBSCRIBED:" + t
    ensures forall t | t != "" && m == "UNSUBSCRIBE:" + t :: ReplyTo(m) == "OK:UNSUBSCRIBED:" + t
    ensures "PING" <= m ==> ReplyTo(m) == "PONG"
    ensures m != "" && !("PUBLISH:" <= m) && !("SUBSCRIBE:" <= m) && !("UNSUBSCRIBE:" <= m) && !("PING" <= m) ==>
              ReplyTo(m) == "ERROR:UNKNOWN_COMMAND"
  {
    Rejections(m);
    forall t, p | t != "" && Lacks(t, ':') && m == "PUBLISH:" + t + ":" + p ensures ReplyTo(m) == "OK:PUBLISHED" {
      PublishAcceptance(m, t, p);
    }
    forall t | t != "" && m == "SUBSCRIBE:" + t ensures ReplyTo(m) == "OK:SUBSCRIBED:" + t {
      SubscribeAcceptance(m, t);
    }
    forall t | t != "" && m == "UNSUBSCRIBE:" + t ensures ReplyTo(m) == "OK:UNSUBSCRIBED:" + t {
      SubscribeAcceptance(m, t);
    }
  }

  function RepliesTo(ls: seq<string>): (r: seq<string>)
    ensures |r| == |ls|
    ensures forall i | 0 <= i < |ls| :: r[i] == ReplyTo(ls[i])
  {
    seq(|ls|, i requires 0 <= i < |ls| => ReplyTo(ls[i]))
  }

  lemma {:induction false} RepliesAppend(a: seq<string>, b: seq<string>)
    ensures Replies(a + b) == Replies(a) + Replies(b)
    decreases |b|
  {
    if b == [] {
      assert a + b == a;
    } else {
      var n := |b| - 1;
      RepliesAppend(a, b[..n]);
      assert (a + b)[..|a + b| - 1] == a + b[..n];
    }
  }

  lemma SentReplies(before: seq<Input>, from: nat, cmd: Command, s: nat)
    ensures Replies(Sent(before, from, cmd, s)) == if from == s then [ReplyLine(cmd)] else []
  {
    RepliesAreNotNotifications(cmd);
    var out := Sent(before, from, cmd, s);
    if |out| == 2 {
      assert out[..1] == [out[0]];
      RepliesAppend([out[0]], [out[1]]);
    }
  }

  /** Leave out the notifications: what remains is one reply for each processed line of the client, in
      order, and each reply depends on that line alone. */
  lemma {:induction false} RequestReply(trace: seq<Input>, s: nat)
    ensures Replies(Expected(trace, s)) == RepliesTo(LinesOf(trace, s))
  {
    if trace == [] {
    } else {
      var n := |trace| - 1;
      RequestReply(trace[..n], s);
      match trace[n]
      case Line(from, text) =>
        SentReplies(trace[..n], from, Parse(text), s);
        RepliesAppend(Expected(trace[..n], s), Sent(trace[..n], from, Parse(text), s));
      case Gone(_) =>
        assert Expected(trace, s) == Expected(trace[..n], s);
    }
  }

  /** The last subscribe or unsubscribe acknowledgement for `t`: was it a subscribe? */
  function LastAck(ls: seq<string>, t: string): Option<bool> {
    if ls == [] then None
    else
      var n := |ls| - 1;
      if ls[n] == "OK:SUBSCRIBED:" + t then Some(true)
      else if ls[n] == "OK:UNSUBSCRIBED:" + t then Some(false)
      else LastAck(ls[..n], t)
  }

  lemma {:induction false} LastAckAppend(a: seq<string>, b: seq<string>, t: string)
    ensures LastAck(a + b, t) == if LastAck(b, t).Some? then LastAck(b, t) else LastAck(a, t)
    decreases |b|
  {
    if b == [] {
      assert a + b == a;
    } else {
      LastAckAppend(a, b[..|b| - 1], t);
      assert (a + b)[..|a + b| - 1] == a + b[..|b| - 1];
    }
  }

  /** What a reply acknowledges for `t`. */
  function Acknowledges(cmd: Command, t: string): Option<bool> {
    match cmd
    case Subscribe(u) => if u == t then Some(true) else None
    case Unsubscribe(u) => if u == t then Some(false) else None
    case _ => None
  }

  lemma ReplyAck(cmd: Command, t: string)
    ensures LastAck([ReplyLine(cmd)], t) == Acknowledges(cmd, t)
  {
    var r := ReplyLine(cmd);
    var yes, no := "OK:SUBSCRIBED:" + t, "OK:UNSUBSCRIBED:" + t;
    assert yes[3] == 'S' && no[3] == 'U' && yes[0] == no[0] == 'O';
    assert yes[14..] == t && no[16..] == t;
    match cmd
    case Publish(_, _) => assert r[3] == 'P';
    case Subscribe(u) => assert r[3] == 'S' && r[14..] == u;
    case Unsubscribe(u) => assert r[3] == 'U' && r[16..] == u;
    case Ping => assert r[0] == 'P';
    case Rejected(_) => assert r[0] == 'E';
  }

  lemma NotificationAck(topic: string, payload: string, t: string)
    ensures LastAck([NotificationLine(topic, payload)], t) == None
  {
    assert NotificationLine(topic, payload)[0] == 'M';
    assert ("OK:SUBSCRIBED:" + t)[0] == ("OK:UNSUBSCRIBED:" + t)[0] == 'O';
  }

  lemma SentAck(before: seq<Input>, from: nat, cmd: Command, s: nat, t: string)
    ensures LastAck(Sent(before, from, cmd, s), t) == if from == s then Acknowledges(cmd, t) else None
  {
    ReplyAck(cmd, t);
    if cmd.Publish? {
      NotificationAck(cmd.topic, cmd.payload, t);
      LastAckAppend([NotificationLine(cmd.topic, cmd.payload)], [ReplyLine(cmd)], t);
    }
  }

  /** How one line moves the last acknowledgement. */
  lemma AckStep(before: seq<Input>, from: nat, cmd: Command, s: nat, t: string)
    ensures LastAck(Expected(before, s) + Sent(before, from, cmd, s), t)
            == if from == s && Acknowledges(cmd, t).Some? then Acknowledges(cmd, t) else LastAck(Expected(before, s), t)
  {
    SentAck(before, from, cmd, s, t);
    LastAckAppend(Expected(before, s), Sent(before, from, cmd, s), t);
  }

  lemma DecidesLine(from: nat, text: string, s: nat, t: string)
    ensures Decides(Line(from, text), s, t) == if from == s then Acknowledges(Parse(text), t) else None
  {
  }

  /** Whoever is subscribed has been told so, and has not been told otherwise since. */
  lemma {:induction false} SubscribedMeansAcknowledged(trace: seq<Input>, s: nat, t: string)
    requires Subscribed(trace, s, t)
    ensures LastAck(Expected(trace, s), t) == Some(true)
  {
    var n := |trace| - 1;
    if Decides(trace[n], s, t).None? {
      SubscribedMeansAcknowledged(trace[..n], s, t);
    }
    match trace[n]
    case Line(from, text) =>
      DecidesLine(from, text, s, t);
      AckStep(trace[..n], from, Parse(text), s, t);
    case Gone(_) =>
      assert Expected(trace, s) == Expected(trace[..n], s);
  }

  /** Every notification for `t` that a client is sent comes after an OK:SUBSCRIBED:t with no
      OK:UNSUBSCRIBED:t in between, through any number of re-subscriptions and failures. */
  lemma {:induction false} NotificationsFollowAcks(trace: seq<Input>, s: nat, i: nat, t: string, p: string)
    requires Publishable(t)
    requires i < |Expected(trace, s)| && Expected(trace, s)[i] == NotificationLine(t, p)
    ensures LastAck(Expected(trace, s)[..i], t) == Some(true)
  {
    var n := |trace| - 1;
    var earlier := Expected(trace[..n], s);
    if i < |earlier| {
      assert Expected(trace, s)[..i] == earlier[..i];
      NotificationsFollowAcks(trace[..n], s, i, t, p);
    } else {
      var cmd := Parse(trace[n].text);
      var out := Sent(trace[..n], trace[n].client, cmd, s);
      RepliesAreNotNotifications(cmd);
      assert out[i - |earlier|] == NotificationLine(t, p);
      assert cmd.Publish? && i == |earlier| && Subscribed(trace[..n], s, cmd.topic);
      PublishAcceptance(trace[n].text, cmd.topic, cmd.payload);
      NotificationInjective(t, p, cmd.topic, cmd.payload);
      SubscribedMeansAcknowledged(trace[..n], s, t);
      assert Expected(trace, s)[..i] == earlier;
    }
  }
}
