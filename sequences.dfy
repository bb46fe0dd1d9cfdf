/**
  * Small facts about sequences that the list-building proofs use again and
  * again, stated once for any element type, so that the proofs about build
  * statements never have to reason about sequence equality element by element.
  */
module Sequences {

  /** Appending a non-empty `b` to `a`: the front and the last element of the result. */
  lemma AppendDropLast<T>(a: seq<T>, b: seq<T>)
    requires b != []
    ensures (a + b)[..|a + b| - 1] == a + b[..|b| - 1]
    ensures (a + b)[|a + b| - 1] == b[|b| - 1]
  {
    assert (a + b)[..|a + b| - 1] == a + b[..|b| - 1];
  }

  lemma AppendEmpty<T>(a: seq<T>)
    ensures a + [] == a
  {
  }

  lemma AppendAssoc<T>(a: seq<T>, b: seq<T>, c: seq<T>)
    ensures (a + b) + c == a + (b + c)
  {
  }

  /** Three appends of one element each are one append of the three. */
  lemma AppendThree<T>(s: seq<T>, x: T, y: T, z: T)
    ensures s + [x] + [y] + [z] == s + [x, y, z]
  {
  }

  /** Growing a prefix by one element. */
  lemma PrefixStep<T>(s: seq<T>, i: nat)
    requires i < |s|
    ensures s[..i + 1] == s[..i] + [s[i]]
    ensures s[..i + 1][..i] == s[..i] && s[..i + 1][i] == s[i]
  {
  }

  lemma PrefixAll<T>(s: seq<T>)
    ensures s[..|s|] == s
  {
  }
}
