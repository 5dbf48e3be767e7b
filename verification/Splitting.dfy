/** Splitting text into its non-empty words, and joining words back. */
module Splitting {
  /** Leading characters that are not separators. */
  function WordLength(s: string, sep: char -> bool): (n: nat)
    ensures n <= |s| && (n < |s| ==> sep(s[n]))
    ensures forall i | 0 <= i < n :: !sep(s[i])
  {
    if s == [] || sep(s[0]) then 0 else 1 + WordLength(s[1..], sep)
  }

  function Words(s: string, sep: char -> bool): seq<string>
    decreases |s|
  {
    if s == [] then []
    else if sep(s[0]) then Words(s[1..], sep)
    else
      var n := WordLength(s, sep);
      [s[..n]] + Words(s[n..], sep)
  }

  function Join(words: seq<string>, glue: char): string {
    if words == [] then ""
    else if |words| == 1 then words[0]
    else words[0] + [glue] + Join(words[1..], glue)
  }

  predicate IsWord(w: string, sep: char -> bool) {
    w != "" && forall c | c in w :: !sep(c)
  }

  lemma {:induction false} WordsAreWords(s: string, sep: char -> bool)
    ensures forall w | w in Words(s, sep) :: IsWord(w, sep)
    decreases |s|
  {
    if s == [] {
    } else if sep(s[0]) {
      WordsAreWords(s[1..], sep);
    } else {
      WordsAreWords(s[WordLength(s, sep)..], sep);
    }
  }

  lemma FirstWord(w: string, rest: string, sep: char -> bool)
    requires IsWord(w, sep) && (rest == "" || sep(rest[0]))
    ensures Words(w + rest, sep) == [w] + Words(rest, sep)
  {
    var s := w + rest;
    assert s[0] == w[0] && w[0] in w;
    var n := WordLength(s, sep);
    assert forall i | 0 <= i < |w| :: s[i] == w[i] && w[i] in w;
    assert rest != "" ==> s[|w|] == rest[0];
    assert n == |w|;
    assert s[..n] == w && s[n..] == rest;
  }

  /** Words joined by a separator are read back one by one. */
  lemma {:induction false} WordsOfJoin(words: seq<string>, glue: char, sep: char -> bool)
    requires sep(glue) && forall w | w in words :: IsWord(w, sep)
    ensures Words(Join(words, glue), sep) == words
  {
    if |words| == 1 {
      assert words[0] in words;
      FirstWord(words[0], "", sep);
      assert words[0] + "" == words[0];
    } else if words != [] {
      assert words[0] in words;
      WordsOfJoin(words[1..], glue, sep);
      var rest := [glue] + Join(words[1..], glue);
      FirstWord(words[0], rest, sep);
      assert Join(words, glue) == words[0] + rest;
      assert rest[1..] == Join(words[1..], glue);
    }
  }
}
