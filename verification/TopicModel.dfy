/** The topic manager as a value: the subscriptions, the per-topic message queues and the sequence
    counter.  `log` and `consumed` are histories. */
module TopicModel {
  import opened Text

  /** `Message`, without its timestamp. */
  datatype Stored = Stored(topic: string, payload: string, sequence: nat)

  /** `sequence_counter_` is a `uint64_t`. */
  const SEQUENCE_LIMIT: nat := 0x1_0000_0000_0000_0000

  datatype TopicState = TopicState(
    subs: map<string, set<nat>>,         // `subscriptions_`
    queues: map<string, seq<Stored>>,    // `topic_queues_`
    counter: nat,                        // `sequence_counter_`
    log: seq<Stored>,                    // every message published
    consumed: map<string, seq<Stored>>)  // every message consumed, by topic
  {
    function Subscribers(t: string): set<nat> {
      if t in subs then subs[t] else {}
    }

    function Queued(t: string): seq<Stored> {
      if t in queues then queues[t] else []
    }

    function Consumed(t: string): seq<Stored> {
      if t in consumed then consumed[t] else []
    }

    function Subscribe(t: string, s: nat): TopicState {
      this.(subs := subs[t := Subscribers(t) + {s}])
    }

    /** Drops the topic when its last subscriber leaves. */
    function Unsubscribe(t: string, s: nat): TopicState {
      if t !in subs then this
      else if subs[t] - {s} == {} then this.(subs := subs - {t})
      else this.(subs := subs[t := subs[t] - {s}])
    }

    /** Leaves emptied topics behind. */
    function UnsubscribeAll(s: nat): TopicState {
      this.(subs := map t | t in subs :: subs[t] - {s})
    }

    /** The locked part of `publish`: number the message and queue it. */
    function Store(t: string, p: string): TopicState {
      var m := Stored(t, p, counter);
      this.(counter := (counter + 1) % SEQUENCE_LIMIT,
            queues := queues[t := Queued(t) + [m]],
            log := log + [m])
    }

    /** `consume_message`; nothing changes when there is no message. */
    function Consume(t: string): TopicState {
      if Queued(t) == [] then this
      else this.(queues := queues[t := queues[t][1..]], consumed := consumed[t := Consumed(t) + [queues[t][0]]])
    }
  }

  const NO_TOPICS := TopicState(map[], map[], 0, [], map[])

  /** The messages of one topic, in order. */
  function OnTopic(log: seq<Stored>, t: string): seq<Stored> {
    if log == [] then []
    else
      var n := |log| - 1;
      OnTopic(log[..n], t) + (if log[n].topic == t then [log[n]] else [])
  }

  /** Conservation: what was consumed and then what is queued is what was published on the topic, in
      order; the topic has a queue exactly when something was published on it. */
  ghost predicate Conserved(s: TopicState, t: string) {
    && s.Consumed(t) + s.Queued(t) == OnTopic(s.log, t)
    && (t in s.queues <==> OnTopic(s.log, t) != [])
  }

  /** Messages are numbered from zero, with 64-bit wrap-around. */
  ghost predicate Counted(s: TopicState) {
    && s.counter == |s.log| % SEQUENCE_LIMIT
    && forall i | 0 <= i < |s.log| :: s.log[i].sequence == i % SEQUENCE_LIMIT
  }

  ghost predicate QueueInv(s: TopicState) {
    Counted(s) && forall t :: Conserved(s, t)
  }

  lemma StoreConserves(s: TopicState, t: string, p: string, u: string)
    requires Conserved(s, u)
    ensures Conserved(s.Store(t, p), u)
  {
  }

  lemma StoreKeeps(s: TopicState, t: string, p: string)
    requires QueueInv(s)
    ensures QueueInv(s.Store(t, p))
  {
    forall u ensures Conserved(s.Store(t, p), u) {
      StoreConserves(s, t, p, u);
    }
  }

  lemma ConsumeConserves(s: TopicState, t: string, u: string)
    requires Conserved(s, u)
    ensures Conserved(s.Consume(t), u)
  {
  }

  lemma ConsumeKeeps(s: TopicState, t: string)
    requires QueueInv(s)
    ensures QueueInv(s.Consume(t))
    ensures s.Consume(t).Queued(t) == if s.Queued(t) == [] then [] else s.Queued(t)[1..]
    ensures forall u | u != t :: s.Consume(t).Queued(u) == s.Queued(u)
  {
    forall u ensures Conserved(s.Consume(t), u) {
      ConsumeConserves(s, t, u);
    }
  }

  ghost predicate Numbered(log: seq<Stored>) {
    forall i | 0 <= i < |log| :: log[i].sequence == i
  }

  ghost predicate Increasing(q: seq<Stored>) {
    forall j, k | 0 <= j < k < |q| :: q[j].sequence < q[k].sequence
  }

  ghost predicate TakenFrom(q: seq<Stored>, log: seq<Stored>, t: string) {
    forall k | 0 <= k < |q| :: q[k].sequence < |log| && log[q[k].sequence] == q[k] && q[k].topic == t
  }

  /** The messages of a topic, as positions in the log. */
  lemma {:induction false} OnTopicSound(log: seq<Stored>, t: string)
    requires Numbered(log)
    ensures TakenFrom(OnTopic(log, t), log, t)
    ensures Increasing(OnTopic(log, t))
  {
    if log == [] {
    } else {
      var front := log[..|log| - 1];
      OnTopicSound(front, t);
      TakenPush(OnTopic(front, t), front, log[|log| - 1], t);
      assert front + [log[|log| - 1]] == log;
    }
  }

  lemma TakenPush(q: seq<Stored>, log: seq<Stored>, m: Stored, t: string)
    requires TakenFrom(q, log, t) && Increasing(q) && m.sequence == |log|
    ensures TakenFrom(q, log + [m], t)
    ensures m.topic == t ==> TakenFrom(q + [m], log + [m], t) && Increasing(q + [m])
  {
  }

  lemma {:induction false} OnTopicComplete(log: seq<Stored>, n: nat)
    requires n < |log|
    ensures log[n] in OnTopic(log, log[n].topic)
  {
    if n < |log| - 1 {
      OnTopicComplete(log[..|log| - 1], n);
    }
  }

  /** Message number `n` is the `k`th ever on topic `t`, consumed or still queued. */
  ghost predicate Holds(s: TopicState, t: string, k: nat, n: nat) {
    var q := s.Consumed(t) + s.Queued(t);
    k < |q| && q[k].sequence == n
  }

  ghost predicate Present(s: TopicState, n: nat) {
    exists t, k :: Holds(s, t, k, n)
  }

  lemma OnTopicQueue(s: TopicState, t: string)
    requires QueueInv(s) && |s.log| <= 0x1_0000_0000_0000_0000
    ensures TakenFrom(s.Consumed(t) + s.Queued(t), s.log, t)
    ensures Increasing(s.Consumed(t) + s.Queued(t))
  {
    assert Conserved(s, t);
    OnTopicSound(s.log, t);
  }

  /** Below the wrap-around: sequence numbers strictly increase along each topic, and over all topics the
      consumed and queued messages carry each of 0 .. published-1 exactly once. */
  lemma Sequencing(s: TopicState)
    requires QueueInv(s) && |s.log| <= 0x1_0000_0000_0000_0000
    ensures forall t :: Increasing(s.Consumed(t) + s.Queued(t))
    ensures forall n: nat :: Present(s, n) <==> n < |s.log|
    ensures forall t: string, k: nat, u: string, l: nat, n: nat ::
              Holds(s, t, k, n) && Holds(s, u, l, n) ==> t == u && k == l
  {
    forall t ensures Increasing(s.Consumed(t) + s.Queued(t))
             ensures TakenFrom(s.Consumed(t) + s.Queued(t), s.log, t) {
      OnTopicQueue(s, t);
    }
    forall n: nat | n < |s.log| ensures Present(s, n) {
      var t := s.log[n].topic;
      OnTopicComplete(s.log, n);
      assert Conserved(s, t);
      var q := s.Consumed(t) + s.Queued(t);
      var k: nat :| k < |q| && q[k] == s.log[n];
      assert Holds(s, t, k, n);
    }
    forall n: nat | Present(s, n) ensures n < |s.log| {
      var t, k :| Holds(s, t, k, n);
      OnTopicQueue(s, t);
    }
    forall t: string, k: nat, u: string, l: nat, n: nat | Holds(s, t, k, n) && Holds(s, u, l, n)
      ensures t == u && k == l {
      OnTopicQueue(s, t);
      OnTopicQueue(s, u);
    }
  }

  /** No two published messages share a number exactly as long as the counter has not wrapped around past
      the first message. */
  lemma DistinctUntilWrap(s: TopicState)
    requires QueueInv(s)
    ensures (forall i, j | 0 <= i < j < |s.log| :: s.log[i].sequence != s.log[j].sequence)
            <==> |s.log| <= 0x1_0000_0000_0000_0000
  {
    if |s.log| > SEQUENCE_LIMIT {
      assert s.log[0].sequence == s.log[SEQUENCE_LIMIT].sequence;
    }
  }

  function LiveTopics(s: TopicState): set<string> {
    set t | t in s.subs && s.subs[t] != {}
  }

  /** `get_topic_count` counts the topics with a subscriber exactly when no emptied topic was left behind. */
  lemma TopicCount(s: TopicState)
    ensures |LiveTopics(s)| <= |s.subs|
    ensures |s.subs| == |LiveTopics(s)| <==> forall t | t in s.subs :: s.subs[t] != {}
  {
    var live, all := LiveTopics(s), s.subs.Keys;
    assert |s.subs| == |all|;
    assert all == live + (all - live);
    if t :| t in s.subs && s.subs[t] == {} {
      assert t in all - live;
    } else {
      assert live == all;
    }
  }
}
