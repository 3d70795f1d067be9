module Texts {
  /** The pieces one after the other. */
  function Concat(pieces: seq<string>): string {
    if pieces == [] then "" else Concat(pieces[..|pieces| - 1]) + pieces[|pieces| - 1]
  }

  lemma Associates(a: string, b: string, c: string)
    ensures a + b + c == a + (b + c)
  {
  }

  lemma ConcatLast(pieces: seq<string>, last: string)
    ensures Concat(pieces + [last]) == Concat(pieces) + last
  {
    assert (pieces + [last])[..|pieces|] == pieces;
  }

  lemma ConcatOne(piece: string)
    ensures Concat([piece]) == piece && Concat([]) == ""
  {
    ConcatLast([], piece);
    assert [] + [piece] == [piece] && "" + piece == piece;
  }

  lemma {:induction false} ConcatJoins(a: seq<string>, b: seq<string>)
    ensures Concat(a + b) == Concat(a) + Concat(b)
    decreases |b|
  {
    if b == [] {
      assert a + b == a && Concat(a) + "" == Concat(a);
    } else {
      var init, last := b[..|b| - 1], b[|b| - 1];
      ConcatJoins(a, init);
      ConcatLast(a + init, last);
      assert a + b == a + init + [last];
      Associates(Concat(a), Concat(init), last);
    }
  }
}
