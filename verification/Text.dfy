/** The few string operations the model needs. Case is folded for ASCII letters only. */
module Text {

  function Lower(c: char): char {
    if 'A' <= c <= 'Z' then (c as int + 32) as char else c
  }

  // `text` is `word`, ignoring case.
  predicate IsWord(text: string, word: string) {
    |text| == |word| && forall j :: 0 <= j < |word| ==> Lower(text[j]) == word[j]
  }

  predicate MatchesAt(path: string, i: nat, word: string) {
    i + |word| <= |path| && IsWord(path[i..i + |word|], word)
  }

  predicate Contains(path: string, word: string) {
    exists i :: 0 <= i <= |path| && MatchesAt(path, i, word)
  }

  predicate IsSpace(c: char) { c == ' ' || '\t' <= c <= '\r' }

  function StripLeft(s: string): string {
    if s != "" && IsSpace(s[0]) then StripLeft(s[1..]) else s
  }

  function StripRight(s: string): string {
    if s != "" && IsSpace(s[|s| - 1]) then StripRight(s[..|s| - 1]) else s
  }

  function Strip(s: string): string { StripLeft(StripRight(s)) }

  function Clip<T>(s: seq<T>, n: nat): seq<T> { if |s| <= n then s else s[..n] }

  // All of these are white space: a blank, a tab, or one of the line breaks.
  predicate Blank(s: string) { forall i :: 0 <= i < |s| ==> s[i] in {' ', '\t', '\n', 11 as char, 12 as char, '\r'} }

  lemma {:induction false} StripLeftSays(s: string) returns (front: string)
    ensures Blank(front) && s == front + StripLeft(s)
    ensures StripLeft(s) != "" ==> !Blank(StripLeft(s)[..1])
  {
    front := "";
    if s != "" {
      if IsSpace(s[0]) {
        var rest := StripLeftSays(s[1..]);
        front := [s[0]] + rest;
      } else {
        assert s[..1][0] == s[0];
      }
    }
  }

  lemma {:induction false} StripRightSays(s: string) returns (back: string)
    ensures Blank(back) && s == StripRight(s) + back
    ensures StripRight(s) != "" ==> !Blank(StripRight(s)[|StripRight(s)| - 1..])
  {
    back := "";
    if s != "" {
      var n := |s| - 1;
      if IsSpace(s[n]) {
        var rest := StripRightSays(s[..n]);
        back := rest + [s[n]];
      } else {
        assert s[n..][0] == s[n];
      }
    }
  }

  /** Stripping takes white space off both ends, and all of it. */
  lemma StripSays(s: string) returns (front: string, back: string)
    ensures Blank(front) && Blank(back) && s == front + Strip(s) + back
    ensures Strip(s) != "" ==> !Blank(Strip(s)[..1]) && !Blank(Strip(s)[|Strip(s)| - 1..])
  {
    back := StripRightSays(s);
    front := StripLeftSays(StripRight(s));
    var whole, inner := StripRight(s), Strip(s);
    if inner != "" { assert inner[|inner| - 1..] == whole[|whole| - 1..]; }
  }
}
