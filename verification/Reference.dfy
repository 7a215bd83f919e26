/** The broker without its buffers, queues, maps and outstanding operations: what each client has sent and
    received, as a function of the events alone.  Every run of the broker is this one. */
module Reference {
  import opened Text
  import opened Protocol
  import opened SessionModel
  import opened BrokerModel
  import opened TraceSpec
  import opened BrokerInvariant
  import opened BrokerTheorems

  /** A client: whether it is still heard, the bytes that arrived from it, how many of their lines were
      processed, and how many of the lines owed to it have left, and how many bytes of the next one. */
  datatype Peer = Peer(live: bool, arrived: string, taken: nat, failed: bool, done: nat, sent: nat)
  {
    /** There is a line to write to it. */
    predicate Owed(lines: seq<string>) {
      !failed && done < |lines|
    }

    predicate CanLeave(lines: seq<string>, w: nat, n: nat) {
      w == 0 && Owed(lines) && sent + n <= |lines[done]| + 1
    }

    predicate CanFinish(lines: seq<string>, w: nat) {
      w == 0 && Owed(lines) && sent == |lines[done]| + 1
    }

    /** Some bytes leave, if that many are left of the line. */
    function Leave(lines: seq<string>, w: nat, n: nat): Peer {
      if CanLeave(lines, w, n) then this.(sent := sent + n) else this
    }

    /** The line is done with, if all of it has left. */
    function Finish(lines: seq<string>, w: nat): Peer {
      if CanFinish(lines, w) then this.(done := done + 1, sent := 0) else this
    }

    predicate CanFail(lines: seq<string>, w: nat) {
      w == 0 && Owed(lines)
    }

    predicate HasLine() {
      taken < |Lines(arrived)|
    }

    /** The bytes that have left for it. */
    function Wire(lines: seq<string>): string
      requires done <= |lines|
    {
      Flatten(Terminated(lines[..done]))
      + if done < |lines| then (lines[done] + "\n")[..Least(sent, |lines[done]| + 1)] else ""
    }
  }

  datatype Account = Account(peers: map<nat, Peer>, trace: seq<Input>)
  {
    predicate Heard(s: nat) {
      s in peers && peers[s].live
    }

    function OwedTo(s: nat): seq<string> {
      Expected(trace, s)
    }

    function Set(s: nat, p: Peer): Account {
      this.(peers := peers[s := p])
    }

    function Lose(s: nat, p: Peer): Account {
      Set(s, p).(trace := trace + [Gone(s)])
    }

    function Then(e: Event): Account {
      match e
      case Accept(s) =>
        if s in peers then this else Set(s, Peer(true, "", 0, false, 0, 0))
      case Arrive(s, chunk) =>
        if Heard(s) then Set(s, peers[s].(arrived := peers[s].arrived + chunk)) else this
      case ReadLine(s) =>
        if Heard(s) && peers[s].HasLine() then
          Set(s, peers[s].(taken := peers[s].taken + 1)).(
            trace := trace + [Line(s, Lines(peers[s].arrived)[peers[s].taken])])
        else this
      case EndOfFile(s) =>
        if Heard(s) && !peers[s].HasLine() then Lose(s, peers[s].(live := false)) else this
      case ReadFail(s) =>
        if Heard(s) then Lose(s, peers[s].(live := false)) else this
      case Leave(s, w, n) =>
        if s in peers then Set(s, peers[s].Leave(OwedTo(s), w, n)) else this
      case WriteDone(s, w) =>
        if s in peers then Set(s, peers[s].Finish(OwedTo(s), w)) else this
      case WriteFail(s, w) =>
        if s in peers && peers[s].CanFail(OwedTo(s), w) then Lose(s, peers[s].(failed := true)) else this
      case Consume(_) => this
    }
  }

  function AccountOf(es: seq<Event>): Account {
    if es == [] then Account(map[], []) else AccountOf(es[..|es| - 1]).Then(es[|es| - 1])
  }

  /** A session is what the account says of its client. */
  ghost predicate Is(lines: seq<string>, p: Peer, c: SessionState) {
    && c.reading == p.live && c.input == p.arrived && |c.lines| == p.taken
    && c.failed == p.failed && c.done == p.done <= |lines|
    && (p.done == |lines| ==> p.sent == 0)
    && (!p.failed ==> p.sent == FrontSent(c))
    && c.wire == p.Wire(lines)
  }

  ghost predicate IsAt(x: Account, st: BrokerState, s: nat)
    requires s in x.peers && s in st.clients
  {
    Is(Expected(st.trace, s), x.peers[s], st.clients[s])
  }

  ghost predicate Agrees(x: Account, st: BrokerState) {
    && x.trace == st.trace && x.peers.Keys == st.clients.Keys
    && forall s | s in st.clients :: IsAt(x, st, s)
  }

  /** What the invariants say of a session that is owed `lines`. */
  ghost predicate Sound(lines: seq<string>, c: SessionState) {
    && Lines(c.input) == c.lines + Lines(c.buffer)
    && (c.writes != [] <==> !c.failed && c.done < |lines|)
    && (c.writes != [] ==> c.writes == [Write(lines[c.done] + "\n", FrontSent(c))])
  }

  lemma SessionSound(st: BrokerState, s: nat)
    requires ClientsInv(st) && s in st.clients
    ensures Sound(Expected(st.trace, s), st.clients[s])
  {
    assert ClientInv(st.trace, s, st.clients[s]);
    InvSound(st.trace, s, st.clients[s]);
  }

  lemma InvSound(trace: seq<Input>, s: nat, c: SessionState)
    requires ClientInv(trace, s, c)
    ensures Sound(Expected(trace, s), c)
  {
    Framing(c);
    if c.writes != [] {
      assert c.queue[0] == c.delivered[c.done];
    }
  }

  lemma WireGrows(p: Peer, lines: seq<string>, more: seq<string>)
    requires lines <= more && p.done <= |lines| && (p.done == |lines| ==> p.sent == 0)
    ensures p.Wire(lines) == p.Wire(more)
  {
    assert more[..p.done] == lines[..p.done];
  }

  /** More deliveries do not touch the write that is on its way. */
  lemma {:induction false} DeliveriesKeepFront(c: SessionState, ms: seq<string>)
    ensures FrontSent(c.DeliverAll(ms)) == FrontSent(c)
    decreases |ms|
  {
    if ms == [] {
    } else {
      DeliveriesKeepFront(c.Deliver(ms[0]), ms[1..]);
    }
  }

  /** One session changes and the trace does not. */
  lemma LocalAgrees(x: Account, st: BrokerState, s: nat, p: Peer, c: SessionState, y: Account, d: BrokerState)
    requires Agrees(x, st) && s in st.clients && Is(Expected(st.trace, s), p, c)
    requires y == x.Set(s, p) && d == Update(st, s, c)
    ensures Agrees(y, d)
  {
    forall z | z in d.clients ensures IsAt(y, d, z) {
      assert z != s ==> IsAt(x, st, z);
    }
  }

  /** One session changes and a disconnect is handled. */
  lemma LostAgrees(x: Account, st: BrokerState, s: nat, p: Peer, c: SessionState, y: Account, d: BrokerState)
    requires Agrees(x, st) && s in st.clients && Is(Expected(st.trace, s), p, c)
    requires y == x.Lose(s, p) && d == Disconnect(Update(st, s, c), s)
    ensures Agrees(y, d)
  {
    assert d.trace[..|d.trace| - 1] == st.trace;
    forall z | z in d.clients ensures IsAt(y, d, z) {
      assert Expected(d.trace, z) == Expected(st.trace, z);
      assert z != s ==> IsAt(x, st, z);
    }
  }

  lemma SendIs(lines: seq<string>, p: Peer, c: SessionState, w: nat, n: nat)
    requires Is(lines, p, c) && Sound(lines, c)
    ensures c.CanSend(w, n) <==> p.CanLeave(lines, w, n)
    ensures c.CanSend(w, n) ==> Is(lines, p.(sent := p.sent + n), c.Send(w, n))
  {
    if c.CanSend(w, n) {
      var m := lines[p.done] + "\n";
      assert m[..p.sent] + m[p.sent..p.sent + n] == m[..p.sent + n];
      Assoc(Flatten(Terminated(lines[..p.done])), m[..p.sent], m[p.sent..p.sent + n]);
    }
  }

  lemma WholeFront(lines: seq<string>, p: Peer)
    requires p.done < |lines| && p.sent == |lines[p.done]| + 1
    ensures p.(done := p.done + 1, sent := 0).Wire(lines) == p.Wire(lines)
  {
    var m := lines[p.done] + "\n";
    TerminatedPush(lines[..p.done], lines[p.done]);
    assert lines[..p.done] + [lines[p.done]] == lines[..p.done + 1];
    assert m[..p.sent] == m;
    Assoc(Flatten(Terminated(lines[..p.done])), lines[p.done], "\n");
    var q := p.(done := p.done + 1, sent := 0);
    assert q.Wire(lines) == Flatten(Terminated(lines[..p.done + 1])) + "";
  }

  lemma CompleteIs(lines: seq<string>, p: Peer, c: SessionState, w: nat)
    requires Is(lines, p, c) && Sound(lines, c)
    ensures c.CanComplete(w) <==> p.CanFinish(lines, w)
    ensures c.CanComplete(w) ==> Is(lines, p.(done := p.done + 1, sent := 0), c.Complete(w))
  {
    if c.CanComplete(w) {
      WholeFront(lines, p);
    }
  }

  lemma FailIs(lines: seq<string>, p: Peer, c: SessionState, w: nat)
    requires Is(lines, p, c) && Sound(lines, c)
    ensures w < |c.writes| <==> p.CanFail(lines, w)
    ensures w < |c.writes| ==> Is(lines, p.(failed := true), c.Fail(w))
  {
  }

  /** What the next line is, and whether there is one. */
  lemma NextLine(lines: seq<string>, p: Peer, c: SessionState)
    requires Is(lines, p, c) && Sound(lines, c)
    ensures Lacks(c.buffer, '\n') <==> !p.HasLine()
    ensures Find(c.buffer, '\n', 0).Some? <==> p.HasLine()
    ensures p.HasLine() ==> Lines(p.arrived)[p.taken] == c.buffer[..Find(c.buffer, '\n', 0).value]
  {
  }

  function Sending(c: SessionState, w: nat, n: nat): SessionState {
    if c.CanSend(w, n) then c.Send(w, n) else c
  }

  function Completing(c: SessionState, w: nat): SessionState {
    if c.CanComplete(w) then c.Complete(w) else c
  }

  lemma SendingIs(lines: seq<string>, p: Peer, c: SessionState, w: nat, n: nat)
    requires Is(lines, p, c) && Sound(lines, c)
    ensures Is(lines, p.Leave(lines, w, n), Sending(c, w, n))
  {
    SendIs(lines, p, c, w, n);
  }

  lemma CompletingIs(lines: seq<string>, p: Peer, c: SessionState, w: nat)
    requires Is(lines, p, c) && Sound(lines, c)
    ensures Is(lines, p.Finish(lines, w), Completing(c, w))
  {
    CompleteIs(lines, p, c, w);
  }

  lemma LeaveMeans(st: BrokerState, s: nat, w: nat, n: nat)
    requires s in st.clients
    ensures Next(st, Leave(s, w, n)) == Update(st, s, Sending(st.clients[s], w, n))
  {
    assert st.clients[s := st.clients[s]] == st.clients;
  }

  lemma DoneMeans(st: BrokerState, s: nat, w: nat)
    requires s in st.clients
    ensures Next(st, WriteDone(s, w)) == Update(st, s, Completing(st.clients[s], w))
  {
    assert st.clients[s := st.clients[s]] == st.clients;
  }

  /** What an event does to the account it does to the broker. */
  lemma LeaveStep(x: Account, st: BrokerState, s: nat, w: nat, n: nat) returns (y: Account, d: BrokerState)
    requires Agrees(x, st) && s in st.clients && Sound(Expected(st.trace, s), st.clients[s])
    ensures y == x.Then(Leave(s, w, n)) && d == Next(st, Leave(s, w, n)) && Agrees(y, d)
  {
    y, d := x.Then(Leave(s, w, n)), Next(st, Leave(s, w, n));
    assert IsAt(x, st, s);
    SendingIs(x.OwedTo(s), x.peers[s], st.clients[s], w, n);
    LeaveMeans(st, s, w, n);
    LocalAgrees(x, st, s, x.peers[s].Leave(x.OwedTo(s), w, n), Sending(st.clients[s], w, n), y, d);
  }

  lemma DoneStep(x: Account, st: BrokerState, s: nat, w: nat) returns (y: Account, d: BrokerState)
    requires Agrees(x, st) && s in st.clients && Sound(Expected(st.trace, s), st.clients[s])
    ensures y == x.Then(WriteDone(s, w)) && d == Next(st, WriteDone(s, w)) && Agrees(y, d)
  {
    y, d := x.Then(WriteDone(s, w)), Next(st, WriteDone(s, w));
    assert IsAt(x, st, s);
    CompletingIs(x.OwedTo(s), x.peers[s], st.clients[s], w);
    DoneMeans(st, s, w);
    LocalAgrees(x, st, s, x.peers[s].Finish(x.OwedTo(s), w), Completing(st.clients[s], w), y, d);
  }

  lemma FailStep(x: Account, st: BrokerState, s: nat, w: nat) returns (y: Account, d: BrokerState)
    requires Agrees(x, st) && s in st.clients && Sound(Expected(st.trace, s), st.clients[s])
    ensures y == x.Then(WriteFail(s, w)) && d == Next(st, WriteFail(s, w)) && Agrees(y, d)
  {
    var c, p := st.clients[s], x.peers[s];
    y, d := x, st;
    assert IsAt(x, st, s);
    FailIs(x.OwedTo(s), p, c, w);
    if w < |c.writes| {
      y, d := x.Lose(s, p.(failed := true)), Disconnect(Update(st, s, c.Fail(w)), s);
      LostAgrees(x, st, s, p.(failed := true), c.Fail(w), y, d);
    }
  }

  lemma ArriveStep(x: Account, st: BrokerState, s: nat, chunk: string) returns (y: Account, d: BrokerState)
    requires Agrees(x, st) && s in st.clients
    ensures y == x.Then(Arrive(s, chunk)) && d == Next(st, Arrive(s, chunk)) && Agrees(y, d)
  {
    var c, p := st.clients[s], x.peers[s];
    y, d := x, st;
    assert IsAt(x, st, s);
    if c.reading {
      y, d := x.Set(s, p.(arrived := p.arrived + chunk)), Update(st, s, c.Receive(chunk));
      LocalAgrees(x, st, s, p.(arrived := p.arrived + chunk), c.Receive(chunk), y, d);
    }
  }

  lemma EndStep(x: Account, st: BrokerState, e: Event) returns (y: Account, d: BrokerState)
    requires Agrees(x, st) && (e.EndOfFile? || e.ReadFail?)
    requires e.client in st.clients && Sound(Expected(st.trace, e.client), st.clients[e.client])
    ensures y == x.Then(e) && d == Next(st, e) && Agrees(y, d)
  {
    var s := e.client;
    var c, p := st.clients[s], x.peers[s];
    y, d := x, st;
    assert IsAt(x, st, s);
    NextLine(x.OwedTo(s), p, c);
    if Enabled(st, e) {
      y, d := x.Lose(s, p.(live := false)), Disconnect(Update(st, s, c.(reading := false)), s);
      LostAgrees(x, st, s, p.(live := false), c.(reading := false), y, d);
    }
  }

  lemma AcceptStep(x: Account, st: BrokerState, s: nat) returns (y: Account, d: BrokerState)
    requires Agrees(x, st) && TraceInv(st)
    ensures y == x.Then(Accept(s)) && d == Next(st, Accept(s)) && Agrees(y, d)
  {
    y, d := x.Then(Accept(s)), Next(st, Accept(s));
    if s !in st.clients {
      NeverMentioned(st.trace, s);
      forall z | z in d.clients ensures IsAt(y, d, z) {
        assert z != s ==> IsAt(x, st, z);
      }
    }
  }

  lemma DeliveriesAre(lines: seq<string>, more: seq<string>, p: Peer, c: SessionState, given: seq<string>)
    requires Is(lines, p, c) && lines <= more
    ensures Is(more, p, c.DeliverAll(given))
  {
    WireGrows(p, lines, more);
    DeliverAllFrame(c, given);
    DeliveriesKeepFront(c, given);
  }

  lemma TakenIs(lines: seq<string>, p: Peer, c: SessionState, k: nat)
    requires Is(lines, p, c) && k < |c.buffer|
    ensures Is(lines, p.(taken := p.taken + 1), c.TakeLine(k))
  {
  }

  lemma ExpectedGrows(trace: seq<Input>, i: Input, s: nat)
    ensures Expected(trace, s) <= Expected(trace + [i], s)
  {
    assert (trace + [i])[..|trace|] == trace;
  }

  /** What processing a line of `s` is, session by session. */
  ghost predicate Handled(st: BrokerState, s: nat, k: nat, d: BrokerState)
    requires s in st.clients && k < |st.clients[s].buffer|
  {
    && d.trace == st.trace + [Line(s, st.clients[s].buffer[..k])]
    && d.clients.Keys == st.clients.Keys
    && forall z | z in d.clients :: HandledAt(st, s, k, d, z)
  }

  ghost predicate HandledAt(st: BrokerState, s: nat, k: nat, d: BrokerState, z: nat)
    requires s in st.clients && k < |st.clients[s].buffer| && z in st.clients && z in d.clients
  {
    var c := if z == s then st.clients[z].TakeLine(k) else st.clients[z];
    d.clients[z] == c.DeliverAll(Given(st, s, Parse(st.clients[s].buffer[..k]), z))
  }

  lemma LineIsHandled(st: BrokerState, s: nat, k: nat)
    requires s in st.clients && k < |st.clients[s].buffer|
    ensures Handled(st, s, k, HandleLine(st, s, k))
  {
    var d := HandleLine(st, s, k);
    ReadLineFrame(st, s, k);
    forall z | z in d.clients ensures HandledAt(st, s, k, d, z) {
      LineAsDeliveries(st, s, k, z);
    }
  }

  /** One session across a line of client `s`. */
  lemma LineIs(x: Account, y: Account, st: BrokerState, s: nat, k: nat, d: BrokerState, z: nat)
    requires Agrees(x, st) && s in st.clients && k < |st.clients[s].buffer| && Handled(st, s, k, d)
    requires y.peers == x.peers[s := x.peers[s].(taken := x.peers[s].taken + 1)] && z in d.clients
    ensures IsAt(y, d, z)
  {
    var p, c := x.peers[z], st.clients[z];
    assert IsAt(x, st, z) && HandledAt(st, s, k, d, z);
    var lines, more := Expected(st.trace, z), Expected(d.trace, z);
    var given := Given(st, s, Parse(st.clients[s].buffer[..k]), z);
    ExpectedGrows(st.trace, Line(s, st.clients[s].buffer[..k]), z);
    if z == s {
      TakenIs(lines, p, c, k);
      DeliveriesAre(lines, more, p.(taken := p.taken + 1), c.TakeLine(k), given);
    } else {
      DeliveriesAre(lines, more, p, c, given);
    }
  }

  ghost predicate AllSound(st: BrokerState) {
    forall z | z in st.clients :: Sound(Expected(st.trace, z), st.clients[z])
  }

  lemma LineAgrees(x: Account, y: Account, st: BrokerState, d: BrokerState, s: nat, k: nat)
    requires Agrees(x, st) && s in st.clients && k < |st.clients[s].buffer|
    requires y.peers == x.peers[s := x.peers[s].(taken := x.peers[s].taken + 1)] && y.trace == d.trace
    requires Handled(st, s, k, d)
    ensures Agrees(y, d)
  {
    forall z | z in d.clients {
      LineIs(x, y, st, s, k, d, z);
    }
  }

  lemma LineStep(x: Account, st: BrokerState, s: nat) returns (y: Account, d: BrokerState)
    requires Agrees(x, st) && AllSound(st) && s in st.clients
    ensures y == x.Then(ReadLine(s)) && d == Next(st, ReadLine(s)) && Agrees(y, d)
  {
    var c, p := st.clients[s], x.peers[s];
    y, d := x, st;
    assert IsAt(x, st, s) && Sound(Expected(st.trace, s), c);
    NextLine(x.OwedTo(s), p, c);
    LineMeans(x, st, s);
    if c.reading && p.HasLine() {
      var k := Find(c.buffer, '\n', 0).value;
      y := x.Set(s, p.(taken := p.taken + 1)).(trace := x.trace + [Line(s, Lines(p.arrived)[p.taken])]);
      d := HandleLine(st, s, k);
      LineIsHandled(st, s, k);
      LineAgrees(x, y, st, d, s, k);
    }
  }

  lemma LineMeans(x: Account, st: BrokerState, s: nat)
    requires s in st.clients && s in x.peers
    ensures var p := x.peers[s];
            x.Then(ReadLine(s))
            == if p.live && p.HasLine() then
                 x.Set(s, p.(taken := p.taken + 1)).(trace := x.trace + [Line(s, Lines(p.arrived)[p.taken])])
               else x
    ensures var c := st.clients[s];
            Next(st, ReadLine(s)) == match Find(c.buffer, '\n', 0)
                                     case None => st
                                     case Some(k) => if c.reading then HandleLine(st, s, k) else st
  {
  }

  lemma ConsumeAgrees(x: Account, st: BrokerState, t: string) returns (y: Account, d: BrokerState)
    requires Agrees(x, st)
    ensures y == x.Then(Consume(t)) && d == Next(st, Consume(t)) && Agrees(y, d)
  {
    y, d := x, Next(st, Consume(t));
    forall z | z in d.clients ensures IsAt(y, d, z) {
      assert IsAt(x, st, z);
    }
  }

  lemma InvAllSound(st: BrokerState)
    requires ClientsInv(st)
    ensures AllSound(st)
  {
    forall z | z in st.clients ensures Sound(Expected(st.trace, z), st.clients[z]) {
      SessionSound(st, z);
    }
  }

  lemma AnyStep(x: Account, st: BrokerState, e: Event) returns (y: Account, d: BrokerState)
    requires Agrees(x, st) && AllSound(st) && TraceInv(st)
    ensures y == x.Then(e) && d == Next(st, e) && Agrees(y, d)
  {
    if e.Accept? {
      y, d := AcceptStep(x, st, e.client);
    } else if e.Consume? {
      y, d := ConsumeAgrees(x, st, e.topic);
    } else if e.client !in st.clients {
      y, d := x, st;
    } else {
      match e
      case Arrive(s, chunk) => y, d := ArriveStep(x, st, s, chunk);
      case ReadLine(s) => y, d := LineStep(x, st, s);
      case Leave(s, w, n) => y, d := LeaveStep(x, st, s, w, n);
      case WriteDone(s, w) => y, d := DoneStep(x, st, s, w);
      case WriteFail(s, w) => y, d := FailStep(x, st, s, w);
      case _ => y, d := EndStep(x, st, e);
    }
  }

  /** Every run is the run of the account: which clients there are, what was processed and in what order, and
      for each client whether it is heard, what arrived, how many of its lines were processed, whether a write
      failed, and exactly which bytes have left for it. */
  lemma {:induction false} RunsAgree(es: seq<Event>)
    ensures Agrees(AccountOf(es), Run(es))
  {
    if es == [] {
    } else {
      var before := es[..|es| - 1];
      RunsAgree(before);
      RunInv(before);
      InvAllSound(Run(before));
      var y, d := AnyStep(AccountOf(before), Run(before), es[|es| - 1]);
    }
  }
}
