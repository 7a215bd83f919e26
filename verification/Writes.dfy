/** The clients' blocking writes: a line handed to each, and what of it gets out. */
module Writes {
  import opened Text

  /** One call of a write routine: the bytes handed to it, and how many of them it can get out. */
  datatype Output = Output(bytes: string, taken: nat)
  {
    predicate Whole() {
      taken >= |bytes|
    }

    function Left(): string {
      bytes[..Least(taken, |bytes|)]
    }
  }

  function Handed(ws: seq<Output>): (r: seq<string>)
    ensures |r| == |ws|
    ensures forall i | 0 <= i < |ws| :: r[i] == ws[i].bytes
  {
    seq(|ws|, i requires 0 <= i < |ws| => ws[i].bytes)
  }

  ghost predicate AllWhole(ws: seq<Output>) {
    forall i | 0 <= i < |ws| :: ws[i].Whole()
  }

  /** The bytes that leave. */
  function Left(ws: seq<Output>): string {
    if ws == [] then "" else ws[0].Left() + Left(ws[1..])
  }

  lemma PieceLines(l: string, w: Output)
    requires Lacks(l, '\n') && w.bytes == l + "\n"
    ensures if w.Whole() then w.Left() == l + "\n" && |Lines(w.Left())| == 1 else Lines(w.Left()) == []
  {
    if w.Whole() {
      assert l + "\n" + "" == l + "\n";
      LinesCons(l, "");
    } else {
      NoLines(w.Left());
    }
  }

  lemma {:induction false} WrittenLines(ls: seq<string>, ws: seq<Output>)
    requires AllLack(ls, '\n') && Handed(ws) == Terminated(ls)
    ensures |Lines(Left(ws))| <= |ls|
    ensures |Lines(Left(ws))| == |ls| ==> AllWhole(ws)
    ensures AllWhole(ws) ==> Left(ws) == Flatten(Terminated(ls))
    decreases |ls|
  {
    if ls == [] {
      assert |Handed(ws)| == 0;
    } else {
      assert Handed(ws)[0] == ls[0] + "\n";
      PieceLines(ls[0], ws[0]);
      assert Handed(ws)[1..] == Handed(ws[1..]) && Terminated(ls)[1..] == Terminated(ls[1..]);
      WrittenLines(ls[1..], ws[1..]);
      LinesAppend(ws[0].Left(), Left(ws[1..]));
      AllWholeCons(ws);
    }
  }

  lemma AllWholeCons(ws: seq<Output>)
    requires ws != []
    ensures AllWhole(ws) <==> ws[0].Whole() && AllWhole(ws[1..])
  {
    assert ws == [ws[0]] + ws[1..];
  }

  /** Lines written one by one are read back exactly when no write fell short; otherwise some line is lost or
      glued to a neighbour. */
  lemma LinesOfWrites(ls: seq<string>, ws: seq<Output>)
    requires AllLack(ls, '\n') && Handed(ws) == Terminated(ls)
    ensures Lines(Left(ws)) == ls <==> AllWhole(ws)
  {
    WrittenLines(ls, ws);
    LinesOfTerminated(ls, "");
    assert Flatten(Terminated(ls)) + "" == Flatten(Terminated(ls));
  }

  /** When only the last write may fall short, what leaves is the beginning of what was handed over. */
  lemma {:induction false} LeftPrefix(ws: seq<Output>)
    requires ws != [] ==> AllWhole(ws[..|ws| - 1])
    ensures Left(ws) <= Flatten(Handed(ws))
    ensures AllWhole(ws) ==> Left(ws) == Flatten(Handed(ws))
    decreases |ws|
  {
    if ws == [] {
    } else {
      assert Handed(ws)[1..] == Handed(ws[1..]);
      if |ws| == 1 {
        assert ws[0].Left() + "" == ws[0].Left();
        assert ws[0].bytes + "" == ws[0].bytes;
      } else {
        assert ws[..|ws| - 1][0] == ws[0] && ws[..|ws| - 1][1..] == ws[1..][..|ws| - 2];
        AllWholeCons(ws[..|ws| - 1]);
        AllWholeCons(ws);
        LeftPrefix(ws[1..]);
        WholeLeft(ws[0]);
        PrefixOn(ws[0].bytes, Left(ws[1..]), Flatten(Handed(ws[1..])));
      }
    }
  }

  lemma WholeLeft(w: Output)
    requires w.Whole()
    ensures w.Left() == w.bytes
  {
  }

  lemma PrefixOn(a: string, b: string, c: string)
    requires b <= c
    ensures a + b <= a + c
  {
  }
}
