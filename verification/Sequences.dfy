/** Regrouping concatenations. */
module Sequences {
  lemma {:induction false} Assoc<T>(a: seq<T>, b: seq<T>, c: seq<T>)
    ensures a + (b + c) == (a + b) + c
  {
  }

  lemma {:induction false} Rejoin<T>(a: seq<T>, sep: seq<T>, b: seq<T>, c: seq<T>)
    ensures (a + sep + b) + sep + c == a + sep + (b + sep + c)
  {
  }

  lemma {:induction false} Cancel<T>(a: seq<T>, b: seq<T>, c: seq<T>)
    requires a + b == a + c
    ensures b == c
  {
    assert b == (a + b)[|a|..] && c == (a + c)[|a|..];
  }
}
