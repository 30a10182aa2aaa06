/**
 * The string operations the app relies on: `contains(…, ignoreCase = true)`
 * and `split`. Case folding is ASCII-only.
 */
module Text {
  import opened Wrappers
  import opened Seqs

  function LowerChar(c: char): (l: char)
    ensures 'A' <= c <= 'Z' ==> l != c && l as int - c as int == 32
    ensures !('A' <= c <= 'Z') ==> l == c
  {
    if 'A' <= c <= 'Z' then (c as int + 32) as char else c
  }

  function Lower(s: string): (r: string)
    ensures |r| == |s|
    ensures forall i :: 0 <= i < |s| ==> r[i] == LowerChar(s[i])
  {
    Map(s, LowerChar)
  }

  /** `q` occurs in `text` at offset `i`, ignoring case. */
  predicate MatchesAt(text: string, q: string, i: int)
    requires 0 <= i && i + |q| <= |text|
  {
    Lower(text[i..i + |q|]) == Lower(q)
  }

  /** Some offset at or after `from` where `q` occurs, ignoring case. */
  function ContainsFrom(text: string, q: string, from: nat): (b: bool)
    ensures b <==> exists i :: from <= i && i + |q| <= |text| && MatchesAt(text, q, i)
    decreases |text| - from
  {
    if from + |q| > |text| then false
    else if MatchesAt(text, q, from) then true
    else ContainsFrom(text, q, from + 1)
  }

  /**
   * `text.contains(q, ignoreCase = true)`: `q` occurs somewhere in `text`
   * when both are compared case-insensitively.
   */
  function ContainsIgnoreCase(text: string, q: string): (b: bool)
    ensures b <==> exists i :: 0 <= i && i + |q| <= |text| && MatchesAt(text, q, i)
  {
    ContainsFrom(text, q, 0)
  }

  /** Every text contains the empty string. */
  lemma ContainsEmpty(text: string)
    ensures ContainsIgnoreCase(text, "")
  {
    assert MatchesAt(text, "", 0);
  }

  /** `indexOf(c)`: the first position of `c`, or `None` when `c` does not occur. */
  function IndexOf(s: string, c: char): (r: Option<nat>)
    ensures r.None? <==> c !in s
    ensures r.Some? ==> r.value < |s| && s[r.value] == c && c !in s[..r.value]
  {
    FirstIndex(s, (x: char) => x == c)
  }

  /** `s.split(sep)` for a one-character delimiter. */
  function Split(s: string, sep: char): (parts: seq<string>)
    ensures |parts| == Count(s, sep) + 1
    ensures forall k :: 0 <= k < |parts| ==> sep !in parts[k]
    decreases |s|
  {
    match IndexOf(s, sep)
    case None =>
      assert Count(s, sep) == 0 by { assert sep !in s; }
      [s]
    case Some(i) =>
      assert s == s[..i] + [sep] + s[i + 1..];
      CountAppend(s[..i] + [sep], s[i + 1..], sep);
      CountAppend(s[..i], [sep], sep);
      [s[..i]] + Split(s[i + 1..], sep)
  }

  lemma CountAppend(a: string, b: string, x: char)
    ensures Count(a + b, x) == Count(a, x) + Count(b, x)
  {
    assert multiset(a + b) == multiset(a) + multiset(b);
  }

  /** Joining two delimiter-free pieces with `sep` and splitting again gives the pieces back. */
  lemma SplitJoined(a: string, b: string, sep: char)
    requires sep !in a && sep !in b
    ensures Split(a + [sep] + b, sep) == [a, b]
  {
    var s := a + [sep] + b;
    assert s[..|a|] == a;
    assert s[|a| + 1..] == b;
    assert IndexOf(s, sep) == Some(|a|) by {
      assert s[|a|] == sep;
    }
    assert IndexOf(b, sep) == None;
  }
}
