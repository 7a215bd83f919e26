/** One client connection as a value: its read buffer and read loop, its write queue and the
    asynchronous writes started for it.  `input`, `lines`, `done`, `delivered` and `wire` are histories. */
module SessionModel {
  import opened Text

  /** An `asio::async_write` that has been started and has not completed: what it was given, and how
      many of those bytes have left.  The content is a value here.  The program passes a buffer that points
      at a string local to `do_write`, which is gone when that call returns; every claim about `wire` is
      about the content that was meant. */
  datatype Write = Write(content: string, sent: nat)

  datatype SessionState = SessionState(
    reading: bool,          // a read is outstanding: the read loop is live
    input: string,          // every byte received
    buffer: string,         // `read_buffer_`
    lines: seq<string>,     // every line handed to `process_message`
    queue: seq<string>,     // `write_queue_`
    writes: seq<Write>,     // started, not completed
    failed: bool,           // a write has failed
    done: nat,              // how many writes have completed
    delivered: seq<string>, // every string passed to `deliver`
    wire: string)           // every byte written to the socket
  {
    /** `do_write`: start writing the front of the queue, if there is one. */
    function DoWrite(): SessionState {
      if queue == [] then this else this.(writes := writes + [Write(queue[0], 0)])
    }

    /** `deliver`: push, and start writing if the queue was empty before the push. */
    function Deliver(message: string): SessionState {
      var pushed := this.(queue := queue + [message], delivered := delivered + [message]);
      if queue == [] then pushed.DoWrite() else pushed
    }

    function DeliverAll(messages: seq<string>): SessionState
      decreases |messages|
    {
      if messages == [] then this else Deliver(messages[0]).DeliverAll(messages[1..])
    }

    /** Bytes arrive in the read buffer. */
    function Receive(chunk: string): SessionState {
      this.(input := input + chunk, buffer := buffer + chunk)
    }

    /** `std::getline` on a buffer whose first newline is at `k`. */
    function TakeLine(k: nat): SessionState
      requires k < |buffer|
    {
      this.(lines := lines + [buffer[..k]], buffer := buffer[k + 1..])
    }

    predicate CanSend(w: nat, n: nat) {
      w < |writes| && writes[w].sent + n <= |writes[w].content|
    }

    /** Some bytes of write `w` leave. */
    function Send(w: nat, n: nat): SessionState
      requires CanSend(w, n)
    {
      var Write(content, sent) := writes[w];
      this.(writes := writes[w := Write(content, sent + n)], wire := wire + content[sent..sent + n])
    }

    predicate CanComplete(w: nat) {
      w < |writes| && writes[w].sent == |writes[w].content|
    }

    function Without(w: nat): SessionState
      requires w < |writes|
    {
      this.(writes := writes[..w] + writes[w + 1..])
    }

    /** The write handler without an error: pop, then `do_write`.  Popping an empty queue would be
        undefined; `WriteInv` shows that it does not happen. */
    function Complete(w: nat): SessionState
      requires w < |writes|
    {
      var ended := Without(w).(done := done + 1);
      ended.(queue := if queue == [] then [] else queue[1..]).DoWrite()
    }

    /** The write handler with an error, up to the disconnect: the queue keeps its front. */
    function Fail(w: nat): SessionState
      requires w < |writes|
    {
      Without(w).(failed := true)
    }
  }

  /** A session as its constructor and `start` leave it. */
  const OPENED := SessionState(true, "", "", [], [], [], false, 0, [], "")

  /** The write queue machine.  At most one write is outstanding and it carries the front of the queue;
      with none outstanding the queue is empty unless a write has failed; after a failure none is
      outstanding; completed messages and queue make up everything delivered, and the bytes written are
      exactly those of the completed messages and of the part of the front that has left. */
  ghost predicate WriteInv(c: SessionState) {
    && |c.writes| <= 1
    && c.done <= |c.delivered|
    && c.queue == c.delivered[c.done..]
    && (c.writes == [] && !c.failed ==> c.queue == [] && c.wire == Flatten(c.delivered[..c.done]))
    && (c.writes != [] ==>
          && !c.failed
          && c.queue != [] && c.writes[0].content == c.queue[0]
          && c.writes[0].sent <= |c.queue[0]|
          && c.wire == Flatten(c.delivered[..c.done]) + c.queue[0][..c.writes[0].sent])
    && (c.failed ==>
          && c.queue != []
          && exists k: nat | k <= |c.queue[0]| :: c.wire == Flatten(c.delivered[..c.done]) + c.queue[0][..k])
  }

  /** The read side: the bytes received are the lines processed, each with its newline, and then the
      buffer. */
  ghost predicate ReadInv(c: SessionState) {
    AllLack(c.lines, '\n') && c.input == Flatten(Terminated(c.lines)) + c.buffer
  }

  lemma OpenedInv()
    ensures WriteInv(OPENED) && ReadInv(OPENED)
  {
  }

  lemma DeliverKeeps(c: SessionState, m: string)
    requires WriteInv(c)
    ensures WriteInv(c.Deliver(m))
    ensures c.Deliver(m).delivered == c.delivered + [m]
    ensures c.failed ==> c.Deliver(m).writes == [] && c.Deliver(m).wire == c.wire
  {
    var d := c.Deliver(m);
    assert d.delivered[..d.done] == c.delivered[..c.done];
    assert d.queue == d.delivered[d.done..];
    if c.queue == [] {
      assert d.queue[0][..0] == "";
    } else {
      assert d.queue[0] == c.queue[0];
    }
  }

  lemma {:induction false} DeliverAllKeeps(c: SessionState, ms: seq<string>)
    requires WriteInv(c)
    ensures WriteInv(c.DeliverAll(ms))
    ensures c.DeliverAll(ms).delivered == c.delivered + ms
    ensures c.failed ==> c.DeliverAll(ms).writes == [] && c.DeliverAll(ms).wire == c.wire
    decreases |ms|
  {
    if ms == [] {
    } else {
      DeliverKeeps(c, ms[0]);
      DeliverAllKeeps(c.Deliver(ms[0]), ms[1..]);
      assert ms == [ms[0]] + ms[1..];
      Assoc(c.delivered, [ms[0]], ms[1..]);
    }
  }

  /** Delivering touches nothing but the queue, the writes and the delivered history. */
  lemma {:induction false} DeliverAllFrame(c: SessionState, ms: seq<string>)
    ensures var d := c.DeliverAll(ms);
            d == c.(queue := d.queue, writes := d.writes, delivered := d.delivered)
    decreases |ms|
  {
    if ms == [] {
    } else {
      DeliverAllFrame(c.Deliver(ms[0]), ms[1..]);
    }
  }

  lemma SendKeeps(c: SessionState, w: nat, n: nat)
    requires WriteInv(c) && c.CanSend(w, n)
    ensures WriteInv(c.Send(w, n))
  {
  }

  /** A successful write pops exactly the message it carried. */
  lemma CompleteKeeps(c: SessionState, w: nat)
    requires WriteInv(c) && c.CanComplete(w)
    ensures WriteInv(c.Complete(w))
    ensures c.queue != [] && c.Complete(w).queue == c.queue[1..]
    ensures c.Complete(w).done == c.done + 1
  {
    var d := c.Complete(w);
    FlattenTake(c.delivered, c.done);
    assert c.queue[0] == c.delivered[c.done];
    assert c.queue[0][..c.writes[0].sent] == c.queue[0];
    assert d.wire == Flatten(d.delivered[..d.done]);
    assert d.queue == d.delivered[d.done..];
    if d.queue != [] {
      assert d.queue[0][..0] == "";
    }
  }

  /** A failed write leaves the machine stopped for good, with its message still at the front. */
  lemma FailKeeps(c: SessionState, w: nat)
    requires WriteInv(c) && w < |c.writes|
    ensures WriteInv(c.Fail(w))
    ensures c.Fail(w).writes == [] && c.Fail(w).queue == c.queue
  {
  }

  lemma ReceiveKeeps(c: SessionState, chunk: string)
    requires ReadInv(c)
    ensures ReadInv(c.Receive(chunk))
  {
  }

  lemma TakeLineKeeps(c: SessionState, k: nat)
    requires ReadInv(c) && Find(c.buffer, '\n', 0) == Some(k)
    ensures ReadInv(c.TakeLine(k))
  {
    var line, rest := c.buffer[..k], c.buffer[k + 1..];
    var head := Flatten(Terminated(c.lines));
    TerminatedPush(c.lines, line);
    assert c.buffer == line + "\n" + rest;
    Assoc(head, line + "\n", rest);
    Assoc(head, line, "\n");
    assert Lacks(line, '\n');
  }

  /** However the bytes were cut into chunks: the lines processed and the lines still in the buffer are
      the lines of the whole stream.  An unterminated tail is no line and is never processed. */
  lemma Framing(c: SessionState)
    requires ReadInv(c)
    ensures Lines(c.input) == c.lines + Lines(c.buffer)
    ensures Lacks(c.buffer, '\n') ==> c.lines == Lines(c.input)
  {
    LinesOfTerminated(c.lines, c.buffer);
  }

  /** When the bytes received so far come from a stream of lines, the lines processed are the first of
      them; all of them when the whole stream has arrived and no line waits in the buffer. */
  lemma StreamProcessed(c: SessionState, ls: seq<string>)
    requires ReadInv(c) && AllLack(ls, '\n') && c.input <= Flatten(Terminated(ls))
    ensures c.lines + Lines(c.buffer) <= ls
    ensures c.input == Flatten(Terminated(ls)) && Lacks(c.buffer, '\n') ==> c.lines == ls
  {
    Framing(c);
    LinesMonotone(c.input, Flatten(Terminated(ls)));
    LinesOfTerminated(ls, "");
    assert Flatten(Terminated(ls)) + "" == Flatten(Terminated(ls));
  }

  /** The bytes written are a prefix of everything delivered; all of it when the machine has stopped
      without a failure. */
  lemma WirePrefix(c: SessionState)
    requires WriteInv(c)
    ensures c.wire <= Flatten(c.delivered)
    ensures c.writes == [] && !c.failed ==> c.wire == Flatten(c.delivered)
  {
    if c.queue == [] {
      assert c.delivered[..c.done] == c.delivered;
    } else {
      FlattenTake(c.delivered, c.done);
      FlattenPrefix(c.delivered, c.done + 1);
    }
  }
}
