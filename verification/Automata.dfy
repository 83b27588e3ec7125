/** Feeding text to a machine that reads one character at a time. */
module Automata {

  function Feed<S>(step: (S, char) -> S, start: S, text: string): S {
    if |text| == 0 then start else step(Feed(step, start, text[..|text| - 1]), text[|text| - 1])
  }

  lemma {:induction false} FeedConcat<S>(step: (S, char) -> S, start: S, a: string, b: string)
    ensures Feed(step, start, a + b) == Feed(step, Feed(step, start, a), b)
  {
    if |b| == 0 {
      assert a + b == a;
    } else {
      var front := b[..|b| - 1];
      FeedConcat(step, start, a, front);
      assert (a + b)[..|a + b| - 1] == a + front;
    }
  }

  lemma FeedOne<S>(step: (S, char) -> S, start: S, c: char)
    ensures Feed(step, start, [c]) == step(start, c)
  {
    assert [c][..0] == "";
  }

  lemma FeedTwo<S>(step: (S, char) -> S, start: S, c: char, d: char)
    ensures Feed(step, start, [c, d]) == step(step(start, c), d)
  {
    FeedConcat(step, start, [c], [d]);
    FeedOne(step, start, c);
    FeedOne(step, step(start, c), d);
    assert [c, d] == [c] + [d];
  }
}
