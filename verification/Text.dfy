/** Strings as the programs use them: searching for a character, and the reading of a
    byte stream as newline-terminated lines. */
module Text {

  datatype Option<+T> = None | Some(value: T)

  /** `std::string::find(c, from)`; `None` stands for `npos`. */
  function Find(s: string, c: char, from: nat): (r: Option<nat>)
    ensures r.None? ==> forall k | from <= k < |s| :: s[k] != c
    ensures r.Some? ==> from <= r.value < |s| && s[r.value] == c
    ensures r.Some? ==> forall k | from <= k < r.value :: s[k] != c
    decreases |s| - from
  {
    if from >= |s| then None
    else if s[from] == c then Some(from)
    else Find(s, c, from + 1)
  }

  /** The character `c` does not occur in `s`. */
  predicate Lacks(s: string, c: char) {
    forall k | 0 <= k < |s| :: s[k] != c
  }

  ghost predicate AllLack(ss: seq<string>, c: char) {
    forall i | 0 <= i < |ss| :: Lacks(ss[i], c)
  }

  /** `ss[0] + ss[1] + ...` */
  function Flatten(ss: seq<string>): string {
    if ss == [] then "" else ss[0] + Flatten(ss[1..])
  }

  lemma {:induction false} FlattenAppend(a: seq<string>, b: seq<string>)
    ensures Flatten(a + b) == Flatten(a) + Flatten(b)
  {
    if a == [] {
      assert a + b == b;
    } else {
      assert (a + b)[1..] == a[1..] + b;
      FlattenAppend(a[1..], b);
    }
  }

  lemma FlattenPush(a: seq<string>, m: string)
    ensures Flatten(a + [m]) == Flatten(a) + m
  {
    FlattenAppend(a, [m]);
    assert Flatten([m]) == m + Flatten([]);
  }

  lemma FlattenTake(a: seq<string>, n: nat)
    requires n < |a|
    ensures Flatten(a[..n + 1]) == Flatten(a[..n]) + a[n]
  {
    assert a[..n + 1] == a[..n] + [a[n]];
    FlattenPush(a[..n], a[n]);
  }

  lemma FlattenPrefix(a: seq<string>, n: nat)
    requires n <= |a|
    ensures Flatten(a[..n]) <= Flatten(a)
  {
    assert a == a[..n] + a[n..];
    FlattenAppend(a[..n], a[n..]);
  }

  /** Every line followed by a newline. */
  function Terminated(ls: seq<string>): (r: seq<string>)
    ensures |r| == |ls|
    ensures forall i | 0 <= i < |ls| :: r[i] == ls[i] + "\n"
  {
    seq(|ls|, i requires 0 <= i < |ls| => ls[i] + "\n")
  }

  /** The newline-terminated lines of a byte stream, without their newlines.  What follows the last
      newline is not a line. */
  function Lines(s: string): (ls: seq<string>)
    decreases |s|
  {
    match Find(s, '\n', 0)
    case None => []
    case Some(k) => [s[..k]] + Lines(s[k + 1..])
  }

  lemma FindFirst(s: string, c: char, from: nat, k: nat)
    requires from <= k < |s| && s[k] == c
    requires forall j | from <= j < k :: s[j] != c
    ensures Find(s, c, from) == Some(k)
  {
  }

  /** Taking a concatenation apart. */
  lemma Parts<T>(a: seq<T>, b: seq<T>)
    ensures (a + b)[..|a|] == a && (a + b)[|a|..] == b
  {
  }

  lemma Assoc<T>(a: seq<T>, b: seq<T>, c: seq<T>)
    ensures (a + b) + c == a + (b + c)
  {
  }

  lemma LinesCons(l: string, rest: string)
    requires Lacks(l, '\n')
    ensures Lines(l + "\n" + rest) == [l] + Lines(rest)
  {
    var s := l + "\n" + rest;
    FindFirst(s, '\n', 0, |l|);
    assert s[..|l|] == l;
    assert s[|l| + 1..] == rest;
  }

  /** Reading lines undoes writing them: the one fact from which both the broker's framing and the
      client's follow. */
  lemma {:induction false} LinesOfTerminated(ls: seq<string>, rest: string)
    requires AllLack(ls, '\n')
    ensures Lines(Flatten(Terminated(ls)) + rest) == ls + Lines(rest)
    decreases |ls|
  {
    if ls == [] {
      assert Flatten(Terminated(ls)) + rest == rest;
    } else {
      var tail := Flatten(Terminated(ls[1..]));
      assert Terminated(ls)[1..] == Terminated(ls[1..]);
      Assoc(ls[0] + "\n", tail, rest);
      LinesCons(ls[0], tail + rest);
      LinesOfTerminated(ls[1..], rest);
      Assoc([ls[0]], ls[1..], Lines(rest));
      assert [ls[0]] + ls[1..] == ls;
    }
  }

  /** More bytes only ever add lines at the end. */
  lemma {:induction false} LinesMonotone(a: string, b: string)
    requires a <= b
    ensures Lines(a) <= Lines(b)
    decreases |a|
  {
    match Find(a, '\n', 0)
    case None =>
    case Some(k) =>
      FindFirst(b, '\n', 0, k);
      assert b[..k] == a[..k];
      LinesMonotone(a[k + 1..], b[k + 1..]);
  }

  lemma {:induction false} LinesLackNewline(s: string)
    ensures AllLack(Lines(s), '\n')
    decreases |s|
  {
    match Find(s, '\n', 0)
    case None =>
    case Some(k) =>
      LinesLackNewline(s[k + 1..]);
      assert Lacks(s[..k], '\n');
  }

  lemma LacksConcat(a: string, b: string, c: char)
    ensures Lacks(a + b, c) <==> Lacks(a, c) && Lacks(b, c)
  {
    var s := a + b;
    assert forall k | 0 <= k < |a| :: s[k] == a[k];
    assert forall k | 0 <= k < |b| :: s[|a| + k] == b[k];
  }

  lemma NoLines(s: string)
    requires Lacks(s, '\n')
    ensures Lines(s) == []
  {
  }

  lemma TerminatedAppend(a: seq<string>, b: seq<string>)
    ensures Terminated(a + b) == Terminated(a) + Terminated(b)
  {
  }

  lemma TerminatedPush(ls: seq<string>, l: string)
    ensures Flatten(Terminated(ls + [l])) == Flatten(Terminated(ls)) + l + "\n"
  {
    assert Terminated(ls + [l]) == Terminated(ls) + [l + "\n"];
    FlattenPush(Terminated(ls), l + "\n");
  }

  function Least(a: nat, b: nat): nat {
    if a < b then a else b
  }

  /** What follows the last newline. */
  function Tail(s: string): string
    decreases |s|
  {
    match Find(s, '\n', 0)
    case None => s
    case Some(k) => Tail(s[k + 1..])
  }

  lemma {:induction false} TailEmpty(s: string)
    ensures Tail(s) == "" <==> s == "" || s[|s| - 1] == '\n'
    decreases |s|
  {
    match Find(s, '\n', 0)
    case None =>
    case Some(k) => TailEmpty(s[k + 1..]);
  }

  /** The lines read after an unterminated `start`. */
  function Continued(start: string, ls: seq<string>): (r: seq<string>)
    ensures |r| == |ls|
  {
    if ls == [] then [] else [start + ls[0]] + ls[1..]
  }

  lemma FirstLineApart(s: string, k: nat)
    requires Find(s, '\n', 0) == Some(k)
    ensures s == s[..k] + "\n" + s[k + 1..] && Lacks(s[..k], '\n')
  {
  }

  lemma NoLinesAppend(a: string, b: string)
    requires Lacks(a, '\n')
    ensures Lines(a + b) == Continued(a, Lines(b))
  {
    LacksConcat(a, b, '\n');
    match Find(b, '\n', 0)
    case Some(k) =>
      FirstLineApart(b, k);
      LacksConcat(a, b[..k], '\n');
      Assoc(a, b[..k] + "\n", b[k + 1..]);
      Assoc(a, b[..k], "\n");
      LinesCons(a + b[..k], b[k + 1..]);
    case None => NoLines(a + b);
  }

  lemma FirstLineAppend(a: string, b: string, k: nat)
    requires Find(a, '\n', 0) == Some(k)
    ensures Lines(a + b) == [a[..k]] + Lines(a[k + 1..] + b)
  {
    FirstLineApart(a, k);
    Assoc(a[..k] + "\n", a[k + 1..], b);
    LinesCons(a[..k], a[k + 1..] + b);
  }

  /** A stream cut in two anywhere: only the line across the cut differs from what is read of the second
      part alone. */
  lemma {:induction false} LinesAppend(a: string, b: string)
    ensures Lines(a + b) == Lines(a) + Continued(Tail(a), Lines(b))
    decreases |a|
  {
    match Find(a, '\n', 0)
    case Some(k) =>
      FirstLineAppend(a, b, k);
      LinesAppend(a[k + 1..], b);
      Assoc([a[..k]], Lines(a[k + 1..]), Continued(Tail(a), Lines(b)));
    case None =>
      NoLinesAppend(a, b);
  }
}
