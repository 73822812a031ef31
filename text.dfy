/** String helpers shared by the model: Python's `sep.join` and the
    concatenation of a sequence of chunks. */
module Text {
  /** `sep.join(items)`. */
  function Join(items: seq<string>, sep: string): (s: string)
    ensures items == [] ==> s == ""
    ensures |items| == 1 ==> s == items[0]
  {
    if items == [] then ""
    else if |items| == 1 then items[0]
    else items[0] + sep + Join(items[1..], sep)
  }

  /** The text of the chunks one after another. */
  function Concat(chunks: seq<string>): string
    decreases |chunks|
  {
    if chunks == [] then "" else Concat(chunks[..|chunks| - 1]) + chunks[|chunks| - 1]
  }

  lemma {:induction false} ConcatAppend(a: seq<string>, b: seq<string>)
    ensures Concat(a + b) == Concat(a) + Concat(b)
    decreases |b|
  {
    if b == [] {
      assert a + b == a;
    } else {
      var ab, init, last := a + b, b[..|b| - 1], b[|b| - 1];
      assert ab[..|ab| - 1] == a + init && ab[|ab| - 1] == last;
      ConcatAppend(a, init);
      assert Concat(ab) == (Concat(a) + Concat(init)) + last;
      assert Concat(b) == Concat(init) + last;
    }
  }
}
