/**
  * Text helpers: Python's `' '.join(words)` and `itertools.chain` over lists
  * of words, which the script uses to build its flags, with `s.split(' ')`
  * as the inverse of the join (for stating the round trip), and prefix and
  * suffix tests for stating what paths and flags look like.
  */
module Strings {
  import opened Sequences

  predicate StartsWith(s: string, prefix: string) {
    |prefix| <= |s| && s[..|prefix|] == prefix
  }

  predicate EndsWith(s: string, suffix: string) {
    |suffix| <= |s| && s[|s| - |suffix|..] == suffix
  }

  lemma EndsWithTransitive(s: string, t: string, u: string)
    requires EndsWith(s, t) && EndsWith(t, u)
    ensures EndsWith(s, u)
  {
    assert s[|s| - |u|..] == t[|t| - |u|..];
  }

  lemma StartsWithTransitive(s: string, t: string, u: string)
    requires StartsWith(s, t) && StartsWith(t, u)
    ensures StartsWith(s, u)
  {
    assert s[..|u|] == t[..|u|];
  }

  /** Python's `' '.join(words)`: the words separated by single spaces. */
  function JoinWords(words: seq<string>): string {
    if |words| == 0 then ""
    else if |words| == 1 then words[0]
    else words[0] + " " + JoinWords(words[1..])
  }

  /**
    * Python's `s.split(' ')`: the pieces between single spaces, empty pieces
    * kept. It always yields at least one piece, none of the pieces holds a
    * space, and joining the pieces gives `s` back.
    */
  function SplitWords(s: string): (r: seq<string>)
    ensures |r| >= 1
    ensures forall k :: 0 <= k < |r| ==> ' ' !in r[k]
    ensures JoinWords(r) == s
  {
    if s == "" then [""]
    else
      var rest := SplitWords(s[1..]);
      assert s == [s[0]] + s[1..];
      if s[0] == ' ' then
        JoinAfterEmpty(rest);
        [""] + rest
      else
        JoinExtendFirst(s[0], rest);
        [[s[0]] + rest[0]] + rest[1..]
  }

  /** An empty first word contributes only its separating space. */
  lemma JoinAfterEmpty(rest: seq<string>)
    requires |rest| >= 1
    ensures JoinWords([""] + rest) == " " + JoinWords(rest)
  {
    assert ([""] + rest)[1..] == rest;
  }

  /** Putting a character in front of the first word puts it in front of the join. */
  lemma JoinExtendFirst(c: char, rest: seq<string>)
    requires |rest| >= 1
    ensures JoinWords([[c] + rest[0]] + rest[1..]) == [c] + JoinWords(rest)
  {
    var r := [[c] + rest[0]] + rest[1..];
    assert r[1..] == rest[1..];
    if |rest| >= 2 {
      AppendAssoc([c], rest[0], " " + JoinWords(rest[1..]));
      assert JoinWords(rest) == rest[0] + (" " + JoinWords(rest[1..]));
      assert JoinWords(r) == ([c] + rest[0]) + (" " + JoinWords(rest[1..]));
    }
  }

  /** Python's `itertools.chain(*lists)`: the lists one after the other. */
  function Concat(lists: seq<seq<string>>): seq<string> {
    if lists == [] then [] else Concat(lists[..|lists| - 1]) + lists[|lists| - 1]
  }

  /** Joining two non-empty word lists puts exactly one space between the two joins. */
  lemma {:induction false} JoinWordsAppend(a: seq<string>, b: seq<string>)
    requires a != [] && b != []
    ensures JoinWords(a + b) == JoinWords(a) + " " + JoinWords(b)
  {
    if |a| == 1 {
      assert (a + b)[1..] == b;
    } else {
      assert (a + b)[1..] == a[1..] + b;
      JoinWordsAppend(a[1..], b);
    }
  }

  /** Splitting text that starts with a space-free word `w` puts `w` at the head of the first piece. */
  lemma {:induction false} SplitAfterWord(w: string, t: string)
    requires ' ' !in w
    ensures SplitWords(w + t) == [w + SplitWords(t)[0]] + SplitWords(t)[1..]
  {
    if w != "" {
      assert (w + t)[1..] == w[1..] + t;
      assert w[0] != ' ';
      SplitAfterWord(w[1..], t);
      var r := SplitWords(t);
      var rest := SplitWords((w + t)[1..]);
      assert rest == [w[1..] + r[0]] + r[1..];
      assert (w + t)[0] == w[0];
      assert SplitWords(w + t) == [[w[0]] + rest[0]] + rest[1..];
      assert rest[1..] == r[1..];
      assert [w[0]] + (w[1..] + r[0]) == w + r[0];
    } else {
      var r := SplitWords(t);
      assert w + t == t;
      assert w + r[0] == r[0];
      assert r == [r[0]] + r[1..];
    }
  }

  /**
    * Round trip: splitting the join of space-free words gives the words back
    * (there is at least one word, since `' '.join([])` and `' '.join([""])`
    * are both the empty text).
    */
  lemma {:induction false} SplitJoinWords(words: seq<string>)
    requires |words| >= 1
    requires forall k :: 0 <= k < |words| ==> ' ' !in words[k]
    ensures SplitWords(JoinWords(words)) == words
  {
    if |words| == 1 {
      SplitAfterWord(words[0], "");
      assert words[0] + "" == words[0];
    } else {
      var tail := JoinWords(words[1..]);
      SplitJoinWords(words[1..]);
      SplitAfterWord(words[0], " " + tail);
      SplitLeadingSpace(tail);
      JoinWordsFirst(words);
      assert words[0] + "" == words[0];
      assert words == [words[0]] + words[1..];
    }
  }

  /** A leading space splits off an empty first piece. */
  lemma SplitLeadingSpace(t: string)
    ensures SplitWords(" " + t) == [""] + SplitWords(t)
  {
    assert (" " + t)[1..] == t;
  }

  /** The join of two or more words is the first word, a space, and the join of the rest. */
  lemma JoinWordsFirst(words: seq<string>)
    requires |words| >= 2
    ensures JoinWords(words) == words[0] + (" " + JoinWords(words[1..]))
  {
  }
}
