/** `ThreadSafeQueue`: a queue under one mutex with a condition variable.  Threads make calls; what happens
    between taking the mutex and giving it up (or waiting on the condition) is one step, and the steps of
    different threads interleave in any way. */
module BlockingQueue {
  import opened Text

  datatype Op<T> = Push(value: T) | TryPop | WaitPop | Clear

  datatype Call<T> = Call(thread: nat, op: Op<T>)

  /** A call is not begun, asleep in `cond_.wait`, woken but not yet holding the mutex again, or over. */
  datatype Status = Unstarted | Sleeping | Notified | Returned

  /** `got` is what each call has handed to its caller.  `pushed` and `removed` are histories; `takers` says
      which call took each removed value, if it was not cleared. */
  datatype State<T> = State(queue: seq<T>, status: seq<Status>, got: seq<Option<T>>,
                            pushed: seq<T>, removed: seq<T>, takers: seq<Option<nat>>)
  {
    function With(i: nat, s: Status): State<T>
      requires i < |status|
    {
      this.(status := status[i := s])
    }

    function Pop(i: nat): State<T>
      requires queue != [] && i < |got|
    {
      this.(queue := queue[1..], got := got[i := Some(queue[0])],
            removed := removed + [queue[0]], takers := takers + [Some(i)])
    }

    function Empty(): State<T> {
      this.(queue := [], removed := removed + queue, takers := takers + seq(|queue|, _ => None))
    }

    /** The loop of `wait_and_pop`, from holding the mutex to giving it up. */
    function PopOrSleep(i: nat): State<T>
      requires i < |status| == |got|
    {
      if queue == [] then With(i, Sleeping) else Pop(i).With(i, Returned)
    }

    /** `notify_one` wakes one sleeper if there is one; which one is not specified. */
    predicate MayWake(wake: Option<nat>) {
      match wake
      case Some(j) => j < |status| && status[j] == Sleeping
      case None => Sleeping !in status
    }

    function Wake(wake: Option<nat>): State<T>
      requires MayWake(wake)
    {
      match wake
      case Some(j) => With(j, Notified)
      case None => this
    }
  }

  datatype Event = Begin(call: nat, wake: Option<nat>) | Resume(call: nat) | Spurious(call: nat)

  /** A thread makes its calls one after the other. */
  predicate CanBegin<T>(calls: seq<Call<T>>, status: seq<Status>, i: nat)
    requires |status| == |calls|
  {
    && i < |calls| && status[i] == Unstarted
    && forall k | 0 <= k < i && calls[k].thread == calls[i].thread :: status[k] == Returned
  }

  predicate Enabled<T>(calls: seq<Call<T>>, st: State<T>, e: Event)
    requires |st.status| == |calls|
  {
    match e
    case Begin(i, wake) => CanBegin(calls, st.status, i) && (calls[i].op.Push? ==> st.MayWake(wake))
    case Resume(i) => i < |calls| && st.status[i] == Notified
    case Spurious(i) => i < |calls| && st.status[i] == Sleeping
  }

  function Step<T>(calls: seq<Call<T>>, st: State<T>, e: Event): (d: State<T>)
    requires |st.status| == |st.got| == |calls| && Enabled(calls, st, e)
    ensures |d.status| == |d.got| == |calls|
  {
    match e
    case Begin(i, wake) =>
      (match calls[i].op
       case Push(v) => st.(queue := st.queue + [v], pushed := st.pushed + [v]).Wake(wake).With(i, Returned)
       case TryPop => (if st.queue == [] then st else st.Pop(i)).With(i, Returned)
       case WaitPop => st.PopOrSleep(i)
       case Clear => st.Empty().With(i, Returned))
    case Resume(i) => st.PopOrSleep(i)
    case Spurious(i) => st.With(i, Notified)
  }

  function Initial<T>(calls: seq<Call<T>>): (st: State<T>)
    ensures |st.status| == |st.got| == |calls|
  {
    State([], seq(|calls|, _ => Unstarted), seq(|calls|, _ => None), [], [], [])
  }

  /** Any sequence of events is a run; those that cannot happen are passed over. */
  function Run<T>(calls: seq<Call<T>>, es: seq<Event>): (st: State<T>)
    ensures |st.status| == |st.got| == |calls|
  {
    if es == [] then Initial(calls)
    else
      var st := Run(calls, es[..|es| - 1]);
      if Enabled(calls, st, es[|es| - 1]) then Step(calls, st, es[|es| - 1]) else st
  }

  function Count(ss: seq<Status>, x: Status): nat {
    if ss == [] then 0 else Count(ss[1..], x) + (if ss[0] == x then 1 else 0)
  }

  lemma {:induction false} CountUpdate(ss: seq<Status>, i: nat, y: Status, x: Status)
    requires i < |ss|
    ensures Count(ss[i := y], x)
            == Count(ss, x) - (if ss[i] == x then 1 else 0) + (if y == x then 1 else 0)
  {
    if i == 0 {
      assert ss[0 := y][1..] == ss[1..];
    } else {
      assert ss[i := y][1..] == ss[1..][i - 1 := y];
      CountUpdate(ss[1..], i - 1, y, x);
    }
  }

  lemma {:induction false} CountZero(ss: seq<Status>, x: Status)
    ensures Count(ss, x) == 0 <==> x !in ss
  {
    if ss == [] {
    } else {
      CountZero(ss[1..], x);
      assert x in ss <==> ss[0] == x || x in ss[1..];
    }
  }

  /** No wake-up is lost: while some call sleeps, the queue holds no more values than there are calls woken
      and on their way to it.  And values leave in the order in which they came. */
  ghost predicate Inv<T>(st: State<T>) {
    && (Sleeping in st.status ==> |st.queue| <= Count(st.status, Notified))
    && st.pushed == st.removed + st.queue
  }

  lemma WithCounts<T>(st: State<T>, i: nat, s: Status)
    requires i < |st.status|
    ensures Count(st.With(i, s).status, Notified)
            == Count(st.status, Notified)
               - (if st.status[i] == Notified then 1 else 0) + (if s == Notified then 1 else 0)
    ensures s != Sleeping && Sleeping in st.With(i, s).status ==> Sleeping in st.status
  {
    CountUpdate(st.status, i, s, Notified);
  }

  lemma PopOrSleepKeeps<T>(st: State<T>, i: nat)
    requires Inv(st) && i < |st.status| == |st.got|
    ensures Inv(st.PopOrSleep(i))
  {
    if st.queue == [] {
      WithCounts(st, i, Sleeping);
    } else {
      WithCounts(st.Pop(i), i, Returned);
      assert st.queue == [st.queue[0]] + st.queue[1..];
      Assoc(st.removed, [st.queue[0]], st.queue[1..]);
    }
  }

  lemma PushKeeps<T>(st: State<T>, i: nat, v: T, wake: Option<nat>)
    requires Inv(st) && i < |st.status| && st.status[i] == Unstarted && st.MayWake(wake)
    ensures Inv(st.(queue := st.queue + [v], pushed := st.pushed + [v]).Wake(wake).With(i, Returned))
  {
    var mid := st.(queue := st.queue + [v], pushed := st.pushed + [v]);
    Assoc(st.removed, st.queue, [v]);
    if wake.Some? {
      WithCounts(mid, wake.value, Notified);
    }
    WithCounts(mid.Wake(wake), i, Returned);
  }

  lemma StepKeeps<T>(calls: seq<Call<T>>, st: State<T>, e: Event)
    requires |st.status| == |st.got| == |calls| && Enabled(calls, st, e) && Inv(st)
    ensures Inv(Step(calls, st, e))
  {
    match e
    case Begin(i, wake) =>
      match calls[i].op {
        case Push(v) => PushKeeps(st, i, v, wake);
        case TryPop =>
          if st.queue == [] { WithCounts(st, i, Returned); } else { PopOrSleepKeeps(st, i); }
        case WaitPop => PopOrSleepKeeps(st, i);
        case Clear => WithCounts(st, i, Returned);
      }
    case Resume(i) => PopOrSleepKeeps(st, i);
    case Spurious(i) => WithCounts(st, i, Notified);
  }

  lemma {:induction false} NoLostWakeUp<T>(calls: seq<Call<T>>, es: seq<Event>)
    ensures Inv(Run(calls, es))
  {
    if es == [] {
    } else {
      NoLostWakeUp(calls, es[..|es| - 1]);
      var st := Run(calls, es[..|es| - 1]);
      if Enabled(calls, st, es[|es| - 1]) {
        StepKeeps(calls, st, es[|es| - 1]);
      }
    }
  }

  /** So a sleeper beside a non-empty queue never means that everyone is stuck: some woken call can go on,
      and will find a value. */
  lemma SomeoneCanGoOn<T>(calls: seq<Call<T>>, es: seq<Event>)
    requires Sleeping in Run(calls, es).status && Run(calls, es).queue != []
    ensures exists i: nat :: i < |calls| && Run(calls, es).status[i] == Notified
                       && Enabled(calls, Run(calls, es), Resume(i))
                       && Step(calls, Run(calls, es), Resume(i)).status[i] == Returned
  {
    NoLostWakeUp(calls, es);
    var st := Run(calls, es);
    CountZero(st.status, Notified);
    var i: nat :| i < |st.status| && st.status[i] == Notified;
    assert Enabled(calls, st, Resume(i));
  }

  // ---------------------------------------------------------------- termination

  function Measure(ss: seq<Status>): nat {
    2 * Count(ss, Unstarted) + Count(ss, Notified)
  }

  /** The steps of a run that are not spurious wake-ups, and those that are. */
  function Steps<T>(calls: seq<Call<T>>, es: seq<Event>, spurious: bool): nat {
    if es == [] then 0
    else
      var e := es[|es| - 1];
      Steps(calls, es[..|es| - 1], spurious)
      + (if Enabled(calls, Run(calls, es[..|es| - 1]), e) && e.Spurious? == spurious then 1 else 0)
  }

  lemma MeasureWith(ss: seq<Status>, i: nat, y: Status)
    requires i < |ss|
    ensures Measure(ss[i := y])
            == Measure(ss) - Weight(ss[i]) + Weight(y)
  {
    CountUpdate(ss, i, y, Unstarted);
    CountUpdate(ss, i, y, Notified);
  }

  function Weight(s: Status): nat {
    match s
    case Unstarted => 2
    case Notified => 1
    case _ => 0
  }

  /** Every step but a spurious wake-up makes the measure smaller. */
  lemma MeasureDrops<T>(calls: seq<Call<T>>, st: State<T>, e: Event)
    requires |st.status| == |st.got| == |calls| && Enabled(calls, st, e)
    ensures !e.Spurious? ==> Measure(Step(calls, st, e).status) < Measure(st.status)
    ensures e.Spurious? ==> Measure(Step(calls, st, e).status) == Measure(st.status) + 1
  {
    var d := Step(calls, st, e);
    var i := e.call;
    if e.Begin? && calls[i].op.Push? && e.wake.Some? {
      MeasureWith(st.status, e.wake.value, Notified);
      MeasureWith(st.status[e.wake.value := Notified], i, Returned);
    } else {
      MeasureWith(st.status, i, d.status[i]);
    }
  }

  lemma {:induction false} InitialMeasure(n: nat)
    ensures Measure(seq(n, _ => Unstarted)) == 2 * n
  {
    if n == 0 {
    } else {
      InitialMeasure(n - 1);
      assert seq(n, _ => Unstarted)[1..] == seq(n - 1, _ => Unstarted);
    }
  }

  /** Every run of finitely many calls halts: it has at most two steps for each call, and one more for each
      spurious wake-up. */
  lemma {:induction false} Halts<T>(calls: seq<Call<T>>, es: seq<Event>)
    ensures Steps(calls, es, false) + Measure(Run(calls, es).status) <= 2 * |calls| + Steps(calls, es, true)
  {
    if es == [] {
      InitialMeasure(|calls|);
    } else {
      Halts(calls, es[..|es| - 1]);
      var st := Run(calls, es[..|es| - 1]);
      if Enabled(calls, st, es[|es| - 1]) {
        MeasureDrops(calls, st, es[|es| - 1]);
      }
    }
  }

  // ---------------------------------------------------------------- who gets which value

  ghost predicate Took<T>(got: seq<Option<T>>, value: T, taker: Option<nat>) {
    taker.Some? ==> taker.value < |got| && got[taker.value] == Some(value)
  }

  /** Each removed value that was not cleared is what exactly one call returned, and each value returned was
      removed. */
  ghost predicate HandedOver<T>(got: seq<Option<T>>, removed: seq<T>, takers: seq<Option<nat>>) {
    && |takers| == |removed|
    && (forall k | 0 <= k < |takers| :: Took(got, removed[k], takers[k]))
    && (forall k, l | 0 <= k < l < |takers| && takers[k].Some? :: takers[k] != takers[l])
    && (forall i | 0 <= i < |got| && got[i].Some? :: Some(i) in takers)
  }

  /** Only waits sleep. */
  ghost predicate WaitsSleep<T>(calls: seq<Call<T>>, status: seq<Status>)
    requires |status| == |calls|
  {
    forall i | 0 <= i < |calls| && (status[i] == Sleeping || status[i] == Notified) :: calls[i].op.WaitPop?
  }

  /** A wait has a value exactly when it has returned, and only calls that take, and have returned, have
      one. */
  ghost predicate GotRightly<T>(calls: seq<Call<T>>, status: seq<Status>, got: seq<Option<T>>)
    requires |status| == |got| == |calls|
  {
    forall i | 0 <= i < |calls| :: Rightly(calls[i].op, status[i], got[i])
  }

  predicate Rightly<T>(op: Op<T>, s: Status, got: Option<T>) {
    && (op.WaitPop? ==> (s == Returned <==> got.Some?))
    && (got.Some? ==> s == Returned && (op.WaitPop? || op.TryPop?))
  }

  lemma OneMoreTaken<T>(got: seq<Option<T>>, removed: seq<T>, takers: seq<Option<nat>>, i: nat, v: T)
    requires HandedOver(got, removed, takers) && i < |got| && got[i].None?
    ensures HandedOver(got[i := Some(v)], removed + [v], takers + [Some(i)])
  {
    var g, r, t := got[i := Some(v)], removed + [v], takers + [Some(i)];
    forall k | 0 <= k < |t| ensures Took(g, r[k], t[k]) && (k < |takers| ==> t[k] != Some(i)) {
      assert k < |takers| ==> Took(got, removed[k], takers[k]);
    }
    forall j | 0 <= j < |g| && g[j].Some? ensures Some(j) in t {
      if j == i {
        assert t[|takers|] == Some(j);
      } else {
        assert got[j].Some?;
        var k :| 0 <= k < |takers| && takers[k] == Some(j);
        assert t[k] == Some(j);
      }
    }
  }

  lemma Cleared<T>(got: seq<Option<T>>, removed: seq<T>, takers: seq<Option<nat>>, more: seq<T>)
    requires HandedOver(got, removed, takers)
    ensures HandedOver(got, removed + more, takers + seq(|more|, _ => None))
  {
    var r, t := removed + more, takers + seq(|more|, _ => None);
    forall k | 0 <= k < |t| ensures Took(got, r[k], t[k]) {
      assert k < |takers| ==> Took(got, removed[k], takers[k]);
    }
    forall i | 0 <= i < |got| && got[i].Some? ensures Some(i) in t {
      var k :| 0 <= k < |takers| && takers[k] == Some(i);
      assert t[k] == Some(i);
    }
  }

  lemma WaitsSleepStep<T>(calls: seq<Call<T>>, st: State<T>, e: Event)
    requires |st.status| == |st.got| == |calls| && Enabled(calls, st, e) && WaitsSleep(calls, st.status)
    ensures WaitsSleep(calls, Step(calls, st, e).status)
  {
  }

  lemma GotRightlyStep<T>(calls: seq<Call<T>>, st: State<T>, e: Event)
    requires |st.status| == |st.got| == |calls| && Enabled(calls, st, e)
    requires WaitsSleep(calls, st.status) && GotRightly(calls, st.status, st.got)
    ensures var d := Step(calls, st, e); GotRightly(calls, d.status, d.got)
  {
    var d := Step(calls, st, e);
    forall i | 0 <= i < |calls| ensures Rightly(calls[i].op, d.status[i], d.got[i]) {
      assert Rightly(calls[i].op, st.status[i], st.got[i]);
    }
  }

  lemma HandedOverStep<T>(calls: seq<Call<T>>, st: State<T>, e: Event)
    requires |st.status| == |st.got| == |calls| && Enabled(calls, st, e)
    requires GotRightly(calls, st.status, st.got) && HandedOver(st.got, st.removed, st.takers)
    ensures var d := Step(calls, st, e); HandedOver(d.got, d.removed, d.takers)
  {
    var i := e.call;
    assert Rightly(calls[i].op, st.status[i], st.got[i]);
    if st.queue != [] {
      OneMoreTaken(st.got, st.removed, st.takers, i, st.queue[0]);
    }
    Cleared(st.got, st.removed, st.takers, st.queue);
  }

  /** In every run a value goes to at most one call, and a call gets at most one value: what was pushed is
      what was cleared or returned, each once, and what is still queued. */
  lemma {:induction false} EachValueOnce<T>(calls: seq<Call<T>>, es: seq<Event>)
    ensures var st := Run(calls, es);
            && HandedOver(st.got, st.removed, st.takers) && GotRightly(calls, st.status, st.got)
            && WaitsSleep(calls, st.status) && st.pushed == st.removed + st.queue
  {
    NoLostWakeUp(calls, es);
    if es == [] {
    } else {
      EachValueOnce(calls, es[..|es| - 1]);
      var st := Run(calls, es[..|es| - 1]);
      if Enabled(calls, st, es[|es| - 1]) {
        WaitsSleepStep(calls, st, es[|es| - 1]);
        GotRightlyStep(calls, st, es[|es| - 1]);
        HandedOverStep(calls, st, es[|es| - 1]);
      }
    }
  }

  // ---------------------------------------------------------------- linearizability

  /** A call that has returned, and what it returned. */
  datatype Entry<T> = Entry(call: nat, result: Option<T>)

  /** A queue used by one thread: what it holds after an operation that returns `result`; `None` if the
      operation cannot return that, or cannot return. */
  function Effect<T(==)>(op: Op<T>, queue: seq<T>, result: Option<T>): Option<seq<T>> {
    match op
    case Push(v) => if result == None then Some(queue + [v]) else None
    case Clear => if result == None then Some([]) else None
    case TryPop =>
      if queue == [] then (if result == None then Some([]) else None)
      else if result == Some(queue[0]) then Some(queue[1..]) else None
    case WaitPop =>
      if queue != [] && result == Some(queue[0]) then Some(queue[1..]) else None
  }

  /** The same for calls made one after the other. */
  function Replay<T(==)>(calls: seq<Call<T>>, entries: seq<Entry<T>>): Option<seq<T>> {
    if entries == [] then Some([])
    else
      var last := entries[|entries| - 1];
      match Replay(calls, entries[..|entries| - 1])
      case None => None
      case Some(q) => if last.call < |calls| then Effect(calls[last.call].op, q, last.result) else None
  }

  function NewEntry<T>(st: State<T>, d: State<T>, i: nat): seq<Entry<T>> {
    if i < |st.status| && i < |d.status| && i < |d.got| && st.status[i] != Returned && d.status[i] == Returned then
      [Entry(i, d.got[i])]
    else []
  }

  /** The calls of a run in the order in which they returned. */
  function History<T>(calls: seq<Call<T>>, es: seq<Event>): seq<Entry<T>> {
    if es == [] then []
    else
      var before := es[..|es| - 1];
      History(calls, before) + NewEntry(Run(calls, before), Run(calls, es), es[|es| - 1].call)
  }

  /** What was pushed, by the calls that have returned. */
  function PushValues<T>(calls: seq<Call<T>>, entries: seq<Entry<T>>): seq<T> {
    if entries == [] then []
    else
      var i := entries[|entries| - 1].call;
      PushValues(calls, entries[..|entries| - 1])
      + (if i < |calls| && calls[i].op.Push? then [calls[i].op.value] else [])
  }

  /** One step is one operation of the sequential queue, or leaves the queue as it is. */
  lemma StepEffect<T>(calls: seq<Call<T>>, st: State<T>, e: Event)
    requires |st.status| == |st.got| == |calls| && Enabled(calls, st, e)
    requires WaitsSleep(calls, st.status) && GotRightly(calls, st.status, st.got)
    ensures var d, i := Step(calls, st, e), e.call;
            && st.status[i] != Returned
            && (d.status[i] == Returned ==>
                  && Effect(calls[i].op, st.queue, d.got[i]) == Some(d.queue)
                  && d.pushed == st.pushed + if calls[i].op.Push? then [calls[i].op.value] else [])
            && (d.status[i] != Returned ==> d.queue == st.queue && d.pushed == st.pushed)
            && forall j | 0 <= j < |calls| && j != i ::
                 (d.status[j] == Returned <==> st.status[j] == Returned) && d.got[j] == st.got[j]
  {
    assert Rightly(calls[e.call].op, st.status[e.call], st.got[e.call]);
  }

  /** `entries` are the calls that have returned, each once, with what each returned. */
  ghost predicate Records<T>(entries: seq<Entry<T>>, st: State<T>) {
    && (forall k | 0 <= k < |entries| :: Recorded(entries[k], st))
    && (forall k, l | 0 <= k < l < |entries| :: entries[k].call != entries[l].call)
    && (forall i | 0 <= i < |st.status| && i < |st.got| && st.status[i] == Returned :: Entry(i, st.got[i]) in entries)
  }

  ghost predicate Recorded<T>(entry: Entry<T>, st: State<T>) {
    && entry.call < |st.status| && entry.call < |st.got|
    && st.status[entry.call] == Returned && st.got[entry.call] == entry.result
  }

  lemma RecordsStep<T>(entries: seq<Entry<T>>, st: State<T>, d: State<T>, i: nat)
    requires Records(entries, st) && |d.status| == |d.got| == |st.status| == |st.got| && i < |st.status|
    requires st.status[i] != Returned
    requires forall j | 0 <= j < |st.status| && j != i ::
               (d.status[j] == Returned <==> st.status[j] == Returned) && d.got[j] == st.got[j]
    ensures Records(entries + NewEntry(st, d, i), d)
  {
    var more := entries + NewEntry(st, d, i);
    forall k | 0 <= k < |more| ensures Recorded(more[k], d) && (k < |entries| ==> more[k].call != i) {
      assert k < |entries| ==> Recorded(entries[k], st);
    }
    forall j | 0 <= j < |d.status| && d.status[j] == Returned ensures Entry(j, d.got[j]) in more {
      if j != i {
        assert Entry(j, st.got[j]) in entries;
      } else {
        assert more[|entries|] == Entry(j, d.got[j]);
      }
    }
  }

  lemma ReplayMore<T>(calls: seq<Call<T>>, entries: seq<Entry<T>>, i: nat, result: Option<T>)
    requires i < |calls| && Replay(calls, entries).Some?
    ensures Replay(calls, entries + [Entry(i, result)]) == Effect(calls[i].op, Replay(calls, entries).value, result)
    ensures PushValues(calls, entries + [Entry(i, result)])
         == PushValues(calls, entries) + if calls[i].op.Push? then [calls[i].op.value] else []
  {
    assert (entries + [Entry(i, result)])[..|entries|] == entries;
  }

  /** Linearizability: however the threads interleave, the calls that have returned, taken one after the other
      in the order in which they returned, are what a queue used by one thread allows; each returned once;
      and what they leave is what the queue holds. */
  lemma {:induction false} Linearizable<T>(calls: seq<Call<T>>, es: seq<Event>)
    ensures Replay(calls, History(calls, es)) == Some(Run(calls, es).queue)
    ensures Records(History(calls, es), Run(calls, es))
    ensures Run(calls, es).pushed == PushValues(calls, History(calls, es))
  {
    if es == [] {
    } else {
      var before, e := es[..|es| - 1], es[|es| - 1];
      var st, d := Run(calls, before), Run(calls, es);
      Linearizable(calls, before);
      if Enabled(calls, st, e) {
        EachValueOnce(calls, before);
        StepEffect(calls, st, e);
        RecordsStep(History(calls, before), st, d, e.call);
        ReplayMore(calls, History(calls, before), e.call, d.got[e.call]);
      }
      assert NewEntry(st, d, e.call) == [] ==> History(calls, es) == History(calls, before);
    }
  }

  // ---------------------------------------------------------------- everybody returns

  /** How many of the pushes, or of the other calls, are in `ran`. */
  function In<T>(calls: seq<Call<T>>, ran: seq<bool>, pushes: bool): nat
    requires |ran| == |calls|
  {
    if calls == [] then 0
    else In(calls[1..], ran[1..], pushes) + (if ran[0] && calls[0].op.Push? == pushes then 1 else 0)
  }

  function All(n: nat): seq<bool> {
    seq(n, _ => true)
  }

  /** The calls that have returned. */
  function Over(status: seq<Status>): (ran: seq<bool>)
    ensures |ran| == |status|
    ensures forall i | 0 <= i < |status| :: ran[i] <==> status[i] == Returned
  {
    seq(|status|, i requires 0 <= i < |status| => status[i] == Returned)
  }

  lemma {:induction false} InUpdate<T>(calls: seq<Call<T>>, ran: seq<bool>, i: nat, b: bool, pushes: bool)
    requires |ran| == |calls| && i < |calls|
    ensures In(calls, ran[i := b], pushes)
            == In(calls, ran, pushes)
               - (if ran[i] && calls[i].op.Push? == pushes then 1 else 0)
               + (if b && calls[i].op.Push? == pushes then 1 else 0)
  {
    if i == 0 {
      assert ran[0 := b][1..] == ran[1..];
    } else {
      assert ran[i := b][1..] == ran[1..][i - 1 := b];
      InUpdate(calls[1..], ran[1..], i - 1, b, pushes);
    }
  }

  lemma {:induction false} InNone<T>(calls: seq<Call<T>>, ran: seq<bool>, pushes: bool)
    requires |ran| == |calls| && true !in ran
    ensures In(calls, ran, pushes) == 0
  {
    if calls == [] {
    } else {
      InNone(calls[1..], ran[1..], pushes);
    }
  }

  /** Each return of a push has put one value in, each return of a wait has taken one out. */
  ghost predicate CountsInv<T>(calls: seq<Call<T>>, st: State<T>)
    requires |st.status| == |calls|
  {
    && |st.pushed| == In(calls, Over(st.status), true)
    && |st.removed| == In(calls, Over(st.status), false)
  }

  ghost predicate PushesAndWaits<T>(calls: seq<Call<T>>) {
    forall i | 0 <= i < |calls| :: calls[i].op.Push? || calls[i].op.WaitPop?
  }

  lemma CountsStep<T>(calls: seq<Call<T>>, st: State<T>, e: Event)
    requires PushesAndWaits(calls) && |st.status| == |st.got| == |calls| && Enabled(calls, st, e)
    requires CountsInv(calls, st) && WaitsSleep(calls, st.status)
    ensures CountsInv(calls, Step(calls, st, e))
  {
    var d := Step(calls, st, e);
    var i := e.call;
    assert st.status[i] != Returned;
    assert Over(d.status) == Over(st.status)[i := d.status[i] == Returned];
    InUpdate(calls, Over(st.status), i, d.status[i] == Returned, true);
    InUpdate(calls, Over(st.status), i, d.status[i] == Returned, false);
  }

  lemma {:induction false} CountsRun<T>(calls: seq<Call<T>>, es: seq<Event>)
    requires PushesAndWaits(calls)
    ensures CountsInv(calls, Run(calls, es))
  {
    if es == [] {
      InNone(calls, Over(Initial(calls).status), true);
      InNone(calls, Over(Initial(calls).status), false);
    } else {
      CountsRun(calls, es[..|es| - 1]);
      var st := Run(calls, es[..|es| - 1]);
      if Enabled(calls, st, es[|es| - 1]) {
        EachValueOnce(calls, es[..|es| - 1]);
        CountsStep(calls, st, es[|es| - 1]);
      }
    }
  }

  /** Nothing can happen any more except a spurious wake-up. */
  ghost predicate Halted<T>(calls: seq<Call<T>>, st: State<T>)
    requires |st.status| == |calls|
  {
    forall e :: Enabled(calls, st, e) ==> e.Spurious?
  }

  /** Call `i` has nothing to do. */
  ghost predicate Idle<T>(calls: seq<Call<T>>, status: seq<Status>, i: nat)
    requires |status| == |calls| && i < |calls|
  {
    !CanBegin(calls, status, i) && status[i] != Notified
  }

  ghost predicate AllReturned(status: seq<Status>) {
    forall i | 0 <= i < |status| :: status[i] == Returned
  }

  ghost predicate Earlier<T>(calls: seq<Call<T>>, i: nat, j: nat)
    requires j < |calls|
  {
    i < j && calls[i].thread == calls[j].thread
  }

  /** The step that a call which is not idle can take. */
  lemma Move<T>(calls: seq<Call<T>>, st: State<T>, i: nat) returns (e: Event)
    requires |st.status| == |calls| && i < |calls| && !Idle(calls, st.status, i)
    ensures Enabled(calls, st, e) && e.call == i && !e.Spurious?
  {
    if st.status[i] == Notified {
      e := Resume(i);
    } else {
      var wake := if j: nat :| j < |calls| && st.status[j] == Sleeping then Some(j) else None;
      e := Begin(i, wake);
    }
  }

  lemma HaltedIsIdle<T>(calls: seq<Call<T>>, st: State<T>)
    requires |st.status| == |calls|
    ensures Halted(calls, st) <==> forall i | 0 <= i < |calls| :: Idle(calls, st.status, i)
  {
    forall i | 0 <= i < |calls| && !Idle(calls, st.status, i) ensures !Halted(calls, st) {
      var e := Move(calls, st, i);
    }
    forall e | Enabled(calls, st, e) && !e.Spurious? ensures !Idle(calls, st.status, e.call) {
    }
  }

  /** A thread is held up at its first call that has not returned. */
  lemma {:induction false} HeldUpAt<T>(calls: seq<Call<T>>, ran: seq<bool>, j: nat) returns (k: nat)
    requires |ran| == |calls| && j < |calls| && !ran[j]
    ensures k == j || Earlier(calls, k, j)
    ensures !ran[k] && Reached(calls, ran, k)
  {
    if i: nat :| Earlier(calls, i, j) && !ran[i] {
      k := HeldUpAt(calls, ran, i);
    } else {
      k := j;
    }
  }

  /** Calls that threads can have behind them while every thread that has not finished is at a wait. */
  ghost predicate Cut<T>(calls: seq<Call<T>>, ran: seq<bool>) {
    && |ran| == |calls| && false in ran
    && Closed(calls, ran)
    && forall j | 0 <= j < |calls| && !ran[j] && Reached(calls, ran, j) :: calls[j].op.WaitPop?
  }

  ghost predicate Closed<T>(calls: seq<Call<T>>, ran: seq<bool>)
    requires |ran| == |calls|
  {
    forall j | 0 <= j < |calls| && ran[j] :: Reached(calls, ran, j)
  }

  ghost predicate Reached<T>(calls: seq<Call<T>>, ran: seq<bool>, j: nat)
    requires |ran| == |calls| && j < |calls|
  {
    forall i: nat | Earlier(calls, i, j) :: ran[i]
  }

  /** Every thread does its calls in order. */
  ghost predicate InOrder<T>(calls: seq<Call<T>>, status: seq<Status>)
    requires |status| == |calls|
  {
    forall j | 0 <= j < |calls| && status[j] != Unstarted :: Reached(calls, Over(status), j)
  }

  lemma {:induction false} OrderRun<T>(calls: seq<Call<T>>, es: seq<Event>)
    ensures InOrder(calls, Run(calls, es).status)
  {
    if es == [] {
    } else {
      OrderRun(calls, es[..|es| - 1]);
      var st := Run(calls, es[..|es| - 1]);
      if Enabled(calls, st, es[|es| - 1]) {
        OrderStep(calls, st, es[|es| - 1]);
      }
    }
  }

  lemma OrderStep<T>(calls: seq<Call<T>>, st: State<T>, e: Event)
    requires |st.status| == |st.got| == |calls| && Enabled(calls, st, e) && InOrder(calls, st.status)
    ensures InOrder(calls, Step(calls, st, e).status)
  {
    var d := Step(calls, st, e);
    forall j | 0 <= j < |calls| && d.status[j] != Unstarted ensures Reached(calls, Over(d.status), j) {
      assert Reached(calls, Over(st.status), j);
      assert forall i | 0 <= i < |calls| && st.status[i] == Returned :: d.status[i] == Returned;
    }
  }

  /** Where a run has halted, the calls that have returned are a cut, or all of them. */
  lemma HaltIsCut<T>(calls: seq<Call<T>>, es: seq<Event>)
    requires Halted(calls, Run(calls, es)) && !AllReturned(Run(calls, es).status)
    ensures Cut(calls, Over(Run(calls, es).status))
    ensures Run(calls, es).queue == []
  {
    var st := Run(calls, es);
    var ran := Over(st.status);
    OrderRun(calls, es);
    EachValueOnce(calls, es);
    HaltedIsIdle(calls, st);
    assert Closed(calls, ran);
    forall j | 0 <= j < |calls| && !ran[j] && Reached(calls, ran, j) ensures st.status[j] == Sleeping {
      assert Idle(calls, st.status, j);
    }
    var i: nat :| i < |calls| && st.status[i] != Returned;
    assert !ran[i];
    var k := HeldUpAt(calls, ran, i);
    NoLostWakeUp(calls, es);
    NobodyWoken(calls, st);
  }

  lemma NobodyWoken<T>(calls: seq<Call<T>>, st: State<T>)
    requires |st.status| == |calls| && forall i | 0 <= i < |calls| :: Idle(calls, st.status, i)
    ensures Count(st.status, Notified) == 0
  {
    forall i | 0 <= i < |calls| ensures st.status[i] != Notified {
      assert Idle(calls, st.status, i);
    }
    CountZero(st.status, Notified);
  }

  /** Only calls of `ran` have begun. */
  ghost predicate Within(status: seq<Status>, ran: seq<bool>)
    requires |ran| == |status|
  {
    forall i | 0 <= i < |status| && !ran[i] :: status[i] == Unstarted
  }

  ghost predicate IdleWithin<T>(calls: seq<Call<T>>, status: seq<Status>, ran: seq<bool>)
    requires |ran| == |status| == |calls|
  {
    forall i | 0 <= i < |calls| && ran[i] :: Idle(calls, status, i)
  }

  lemma RunOn<T>(calls: seq<Call<T>>, es: seq<Event>, e: Event)
    requires Enabled(calls, Run(calls, es), e)
    ensures Run(calls, es + [e]) == Step(calls, Run(calls, es), e)
  {
    assert (es + [e])[..|es + [e]| - 1] == es;
  }

  lemma StepWithin<T>(calls: seq<Call<T>>, st: State<T>, ran: seq<bool>, e: Event)
    requires |ran| == |st.status| == |st.got| == |calls| && Enabled(calls, st, e)
    requires Within(st.status, ran) && ran[e.call]
    ensures Within(Step(calls, st, e).status, ran)
  {
  }

  /** Let only the calls of `ran` run, until they can do no more. */
  lemma {:induction false} RunWithin<T>(calls: seq<Call<T>>, es: seq<Event>, ran: seq<bool>) returns (fs: seq<Event>)
    requires |ran| == |calls| && Within(Run(calls, es).status, ran)
    ensures Within(Run(calls, fs).status, ran) && IdleWithin(calls, Run(calls, fs).status, ran)
    decreases Measure(Run(calls, es).status)
  {
    var st := Run(calls, es);
    if i: nat :| i < |calls| && ran[i] && !Idle(calls, st.status, i) {
      var e := Move(calls, st, i);
      RunOn(calls, es, e);
      MeasureDrops(calls, st, e);
      StepWithin(calls, st, ran, e);
      fs := RunWithin(calls, es + [e], ran);
    } else {
      fs := es;
    }
  }

  /** The calls of a cut that have had their run, and no more pushes than waits among them, leave the queue
      empty. */
  lemma CutDrains<T>(calls: seq<Call<T>>, es: seq<Event>, ran: seq<bool>)
    requires PushesAndWaits(calls) && Cut(calls, ran) && In(calls, ran, true) <= In(calls, ran, false)
    requires Within(Run(calls, es).status, ran) && IdleWithin(calls, Run(calls, es).status, ran)
    ensures Run(calls, es).queue == [] && Notified !in Run(calls, es).status
  {
    var st := Run(calls, es);
    NoLostWakeUp(calls, es);
    CountsRun(calls, es);
    forall i | 0 <= i < |calls| ensures st.status[i] != Notified {
      assert ran[i] ==> Idle(calls, st.status, i);
    }
    CountZero(st.status, Notified);
    if Sleeping !in st.status {
      AllOfCutReturned(calls, st, ran);
      assert Over(st.status) == ran;
    }
  }

  lemma AllOfCutReturned<T>(calls: seq<Call<T>>, st: State<T>, ran: seq<bool>)
    requires |st.status| == |calls| && Cut(calls, ran)
    requires Within(st.status, ran) && IdleWithin(calls, st.status, ran)
    requires Notified !in st.status && Sleeping !in st.status
    ensures forall i | 0 <= i < |calls| :: ran[i] <==> st.status[i] == Returned
  {
    forall i: nat | i < |calls| && ran[i] ensures st.status[i] == Returned {
      if st.status[i] != Returned {
        var k := HeldUpAt(calls, Over(st.status), i);
      }
    }
  }

  /** Beyond a cut whose calls can do no more, with nothing queued, every call that begins is a wait and falls
      asleep. */
  ghost predicate Stranded<T>(calls: seq<Call<T>>, st: State<T>, ran: seq<bool>)
    requires |st.status| == |calls| == |ran|
  {
    && st.queue == [] && IdleWithin(calls, st.status, ran)
    && forall i | 0 <= i < |calls| && !ran[i] :: st.status[i] == Unstarted || st.status[i] == Sleeping
  }

  lemma StrandedStep<T>(calls: seq<Call<T>>, st: State<T>, ran: seq<bool>, e: Event)
    requires |st.status| == |st.got| == |calls| && Cut(calls, ran) && Stranded(calls, st, ran)
    requires Enabled(calls, st, e) && !e.Spurious?
    ensures Stranded(calls, Step(calls, st, e), ran)
  {
    var i := e.call;
    assert !Idle(calls, st.status, i);
    assert Reached(calls, ran, i);
    var d := Step(calls, st, e);
    assert d.status == st.status[i := Sleeping];
    forall j | 0 <= j < |calls| && ran[j] ensures Idle(calls, d.status, j) {
      assert Idle(calls, st.status, j);
    }
  }

  lemma {:induction false} RunStranded<T>(calls: seq<Call<T>>, es: seq<Event>, ran: seq<bool>) returns (fs: seq<Event>)
    requires Cut(calls, ran) && Stranded(calls, Run(calls, es), ran)
    ensures Halted(calls, Run(calls, fs)) && !AllReturned(Run(calls, fs).status)
    decreases Measure(Run(calls, es).status)
  {
    var st := Run(calls, es);
    if i: nat :| i < |calls| && !Idle(calls, st.status, i) {
      var e := Move(calls, st, i);
      RunOn(calls, es, e);
      MeasureDrops(calls, st, e);
      StrandedStep(calls, st, ran, e);
      fs := RunStranded(calls, es + [e], ran);
    } else {
      fs := es;
      HaltedIsIdle(calls, st);
      var i: nat :| i < |calls| && !ran[i];
      assert st.status[i] != Returned;
    }
  }

  ghost predicate EveryHaltReturns<T>(calls: seq<Call<T>>) {
    forall es | Halted(calls, Run(calls, es)) :: AllReturned(Run(calls, es).status)
  }

  ghost predicate CutsHaveValues<T>(calls: seq<Call<T>>) {
    forall ran | Cut(calls, ran) :: In(calls, ran, true) > In(calls, ran, false)
  }

  /** With pushes and waits only, it can be read off the calls whether all of them return however the threads
      are scheduled: they do if and only if wherever every unfinished thread stands at a wait, the calls
      behind them have pushed more values than they have taken. */
  lemma ReturnsExactly<T>(calls: seq<Call<T>>)
    requires PushesAndWaits(calls)
    ensures EveryHaltReturns(calls) <==> CutsHaveValues(calls)
  {
    if CutsHaveValues(calls) {
      forall es | Halted(calls, Run(calls, es)) ensures AllReturned(Run(calls, es).status) {
        if !AllReturned(Run(calls, es).status) {
          HaltIsCut(calls, es);
          CountsRun(calls, es);
          NoLostWakeUp(calls, es);
        }
      }
    }
    forall ran | Cut(calls, ran) && In(calls, ran, true) <= In(calls, ran, false)
      ensures !EveryHaltReturns(calls) {
      var es := RunWithin(calls, [], ran);
      CutDrains(calls, es, ran);
      var fs := RunStranded(calls, es, ran);
    }
  }

  // ---------------------------------------------------------------- two conditions on the calls

  lemma {:induction false} InAll<T>(calls: seq<Call<T>>, ran: seq<bool>, pushes: bool)
    requires |ran| == |calls|
    ensures In(calls, ran, pushes) <= In(calls, All(|calls|), pushes)
    ensures In(calls, ran, pushes) == In(calls, All(|calls|), pushes)
            <==> forall i | 0 <= i < |calls| && calls[i].op.Push? == pushes :: ran[i]
  {
    if calls == [] {
    } else {
      InAll(calls[1..], ran[1..], pushes);
      assert All(|calls|)[1..] == All(|calls[1..]|);
      assert calls == [calls[0]] + calls[1..] && ran == [ran[0]] + ran[1..];
    }
  }

  /** No thread pushes after it has waited. */
  ghost predicate PushesFirst<T>(calls: seq<Call<T>>) {
    forall i: nat, j: nat | j < |calls| && Earlier(calls, i, j) && calls[i].op.WaitPop? :: !calls[j].op.Push?
  }

  /** At least as many pushes as waits, and no thread pushing after it waited: every call returns. */
  lemma {:induction false} EverybodyReturns<T>(calls: seq<Call<T>>)
    requires PushesAndWaits(calls) && PushesFirst(calls)
    requires In(calls, All(|calls|), true) >= In(calls, All(|calls|), false)
    ensures EveryHaltReturns(calls)
  {
    ReturnsExactly(calls);
    forall ran | Cut(calls, ran) ensures In(calls, ran, true) > In(calls, ran, false) {
      forall j: nat | j < |calls| && calls[j].op.Push? ensures ran[j] {
        if !ran[j] {
          var k := HeldUpAt(calls, ran, j);
        }
      }
      InAll(calls, ran, true);
      InAll(calls, ran, false);
    }
  }

  /** Enough pushes are not enough: a thread that waits before it pushes can be held up for good. */
  lemma WaitBeforePushCanHang<T>(v: T)
    ensures var calls := [Call(0, WaitPop), Call(0, Push(v))];
            && In(calls, All(2), true) == In(calls, All(2), false) && !EveryHaltReturns(calls)
  {
    var calls := [Call(0, WaitPop), Call(0, Push(v))];
    var none := [false, false];
    forall pushes: bool ensures In(calls, none, pushes) == 0 && In(calls, All(2), pushes) == 1 {
      InNone(calls, none, pushes);
      InUpdate(calls, none, 0, true, pushes);
      InUpdate(calls, none[0 := true], 1, true, pushes);
      assert none[0 := true][1 := true] == All(2);
    }
    assert Cut(calls, none);
    ReturnsExactly(calls);
  }

  /** And the order is not needed when another thread has a value to spare. */
  lemma AnotherThreadCanHelp<T>(v: T)
    ensures var calls := [Call(0, WaitPop), Call(0, Push(v)), Call(1, Push(v))];
            !PushesFirst(calls) && EveryHaltReturns(calls)
  {
    var calls := [Call(0, WaitPop), Call(0, Push(v)), Call(1, Push(v))];
    var none := [false, false, false];
    assert Earlier(calls, 0, 1);
    ReturnsExactly(calls);
    InNone(calls, none, true);
    InNone(calls, none, false);
    forall ran | Cut(calls, ran) ensures In(calls, ran, true) > In(calls, ran, false) {
      assert Reached(calls, ran, 2) && Reached(calls, ran, 0);
      assert ran == none[2 := true];
      InUpdate(calls, none, 2, true, true);
      InUpdate(calls, none, 2, true, false);
    }
  }

  /** The class itself.  `status` is what the mutex and the condition variable know of the calls. */
  class ThreadSafeQueue<T> {
    const calls: seq<Call<T>>
    var queue: seq<T>
    var status: seq<Status>

    ghost var got: seq<Option<T>>
    ghost var pushed: seq<T>
    ghost var removed: seq<T>
    ghost var takers: seq<Option<nat>>

    ghost function View(): State<T>
      reads this
    {
      State(queue, status, got, pushed, removed, takers)
    }

    constructor (calls: seq<Call<T>>)
      ensures this.calls == calls && View() == Initial(calls)
    {
      this.calls := calls;
      queue, status := [], seq(|calls|, _ => Unstarted);
      got, pushed, removed, takers := seq(|calls|, _ => None), [], [], [];
    }

    method NotifyOne() returns (woken: Option<nat>)
      modifies this
      ensures old(View()).MayWake(woken) && View() == old(View()).Wake(woken)
    {
      if Sleeping in status {
        var j: nat :| j < |status| && status[j] == Sleeping;
        status := status[j := Notified];
        woken := Some(j);
      } else {
        woken := None;
      }
    }

    method PushValue(i: nat, value: T) returns (woken: Option<nat>)
      requires |status| == |got| == |calls| && CanBegin(calls, status, i) && calls[i].op == Push(value)
      modifies this
      ensures queue == old(queue) + [value]
      ensures Enabled(calls, old(View()), Begin(i, woken))
      ensures View() == Step(calls, old(View()), Begin(i, woken))
    {
      queue := queue + [value];
      pushed := pushed + [value];
      woken := NotifyOne();
      status := status[i := Returned];
    }

    method TryPopValue(i: nat) returns (value: Option<T>)
      requires |status| == |got| == |calls| && CanBegin(calls, status, i) && calls[i].op.TryPop?
      modifies this
      ensures View() == Step(calls, old(View()), Begin(i, None))
      ensures value == if old(queue) == [] then None else Some(old(queue)[0])
      ensures queue == if old(queue) == [] then [] else old(queue)[1..]
      ensures value.Some? ==> got[i] == value
    {
      status := status[i := Returned];
      if queue == [] {
        return None;
      }
      value := Some(queue[0]);
      got := got[i := value];
      removed, takers := removed + [queue[0]], takers + [Some(i)];
      queue := queue[1..];
    }

    /** `wait_and_pop` up to its return or its next wait, whether it has just been called or was woken. */
    method WaitAndPop(i: nat) returns (value: Option<T>)
      requires |status| == |got| == |calls| && i < |calls|
      requires status[i] == Notified || (CanBegin(calls, status, i) && calls[i].op.WaitPop?)
      modifies this
      ensures View() == Step(calls, old(View()), if old(status)[i] == Notified then Resume(i) else Begin(i, None))
      ensures value == if old(queue) == [] then None else Some(old(queue)[0])
      ensures queue == if old(queue) == [] then [] else old(queue)[1..]
      ensures value.Some? ==> got[i] == value
    {
      if queue == [] {
        status := status[i := Sleeping];
        return None;
      }
      value := Some(queue[0]);
      got := got[i := value];
      removed, takers := removed + [queue[0]], takers + [Some(i)];
      queue := queue[1..];
      status := status[i := Returned];
    }

    method ClearAll(i: nat)
      requires |status| == |got| == |calls| && CanBegin(calls, status, i) && calls[i].op.Clear?
      modifies this
      ensures queue == []
      ensures View() == Step(calls, old(View()), Begin(i, None))
    {
      removed, takers := removed + queue, takers + seq(|queue|, _ => None);
      queue := [];
      status := status[i := Returned];
    }
  }
}
