/**
 * Regular expressions: how internal/splitter/splitter.go prints a list of values as one pattern
 * (appendRegexSelector, escapeRegex), and which strings an anchored pattern matches.
 */
module Regexes {
  import opened Strings

  // ---------- printing ----------

  const SPECIAL := "\\.+*?^${}()[]|"

  function Escape(s: string): string {
    if s == "" then "" else (if s[0] in SPECIAL then ['\\', s[0]] else [s[0]]) + Escape(s[1..])
  }

  function EscapeAll(values: seq<string>): (r: seq<string>)
    ensures |r| == |values| && forall i :: 0 <= i < |r| ==> r[i] == Escape(values[i])
  {
    seq(|values|, i requires 0 <= i < |values| => Escape(values[i]))
  }

  function Alternation(values: seq<string>): string {
    Join(EscapeAll(values), '|')
  }

  method EscapeRegex(s: string) returns (b: string)
    ensures b == Escape(s)
    ensures forall w :: BranchMatches(b, w) <==> w == s
    ensures IsReadable(b) && BranchEnd(b) == |b|
  {
    b := "";
    for i := 0 to |s|
      invariant b + Escape(s[i..]) == Escape(s)
    {
      assert s[i..][1..] == s[i + 1..];
      if s[i] in SPECIAL {
        b := b + ['\\'];
      }
      b := b + [s[i]];
    }
    EscapedIsLiteral(s);
  }

  // ---------- reading ----------

  /** A backslash before one of these stands for the character itself (RE2: ASCII, neither letter nor digit). */
  predicate IsPunctuation(c: char) {
    c <= '\U{7F}' && !('0' <= c <= '9') && !('a' <= c <= 'z') && !('A' <= c <= 'Z')
  }

  /** The operators that are not interpreted here: anchors, repetitions, groups and classes. */
  predicate IsOperator(c: char) {
    || c == '+' || c == '*' || c == '?' || c == '^' || c == '$'
    || c == '{' || c == '}' || c == '(' || c == ')' || c == '[' || c == ']'
  }

  /** The characters a regular expression does not take for themselves. */
  predicate HasMeaning(c: char) {
    IsOperator(c) || c == '\\' || c == '.' || c == '|'
  }

  /** The pattern is made of literals, escaped punctuation, dots and bars. */
  predicate IsReadable(pattern: string)
    decreases |pattern|
  {
    if pattern == "" then true
    else if pattern[0] == '\\' then |pattern| >= 2 && IsPunctuation(pattern[1]) && IsReadable(pattern[2..])
    else !IsOperator(pattern[0]) && IsReadable(pattern[1..])
  }

  /** The first branch of a readable pattern matches the whole of w; a dot matches any one character. */
  predicate BranchMatches(pattern: string, w: string)
    decreases |pattern|
  {
    if pattern == "" || pattern[0] == '|' then w == ""
    else if pattern[0] == '\\' then
      |pattern| >= 2 && w != "" && w[0] == pattern[1] && BranchMatches(pattern[2..], w[1..])
    else w != "" && (pattern[0] == '.' || w[0] == pattern[0]) && BranchMatches(pattern[1..], w[1..])
  }

  /** Where the first branch ends: at a bar that is not escaped, or with the pattern. */
  function BranchEnd(pattern: string): (n: nat)
    ensures n <= |pattern| && (n < |pattern| ==> pattern[n] == '|')
    decreases |pattern|
  {
    if pattern == "" || pattern[0] == '|' then 0
    else if pattern[0] != '\\' then 1 + BranchEnd(pattern[1..])
    else if |pattern| >= 2 then 2 + BranchEnd(pattern[2..])
    else 1
  }

  /** Some branch of the pattern matches the whole of w. */
  predicate Matches(pattern: string, w: string)
    decreases |pattern|
  {
    || BranchMatches(pattern, w)
    || (BranchEnd(pattern) < |pattern| && Matches(pattern[BranchEnd(pattern) + 1..], w))
  }

  /** Every operator is escaped, and nothing that must not be. */
  lemma SpecialIsPunctuation(c: char)
    ensures c in SPECIAL <==> HasMeaning(c)
    ensures c in SPECIAL ==> IsPunctuation(c)
  {
  }

  /** An escaped value matches itself only, and ends where the text after it begins. */
  lemma {:induction false} EscapedBranch(v: string, rest: string, w: string)
    requires rest == "" || rest[0] == '|'
    ensures BranchMatches(Escape(v) + rest, w) <==> w == v
    ensures BranchEnd(Escape(v) + rest) == |Escape(v)|
    decreases |v|
  {
    var text := Escape(v) + rest;
    if v == "" {
      assert text == rest;
    } else {
      var head := if v[0] in SPECIAL then ['\\', v[0]] else [v[0]];
      assert text == head + (Escape(v[1..]) + rest);
      assert text[|head|..] == Escape(v[1..]) + rest;
      SpecialIsPunctuation(v[0]);
      if w != "" {
        EscapedBranch(v[1..], rest, w[1..]);
        assert w == v <==> w[0] == v[0] && w[1..] == v[1..];
      } else {
        EscapedBranch(v[1..], rest, "");
      }
    }
  }

  lemma {:induction false} EscapedIsReadable(v: string, rest: string)
    requires IsReadable(rest)
    ensures IsReadable(Escape(v) + rest)
    decreases |v|
  {
    var text := Escape(v) + rest;
    if v == "" {
      assert text == rest;
    } else {
      var head := if v[0] in SPECIAL then ['\\', v[0]] else [v[0]];
      assert text == head + (Escape(v[1..]) + rest);
      assert text[|head|..] == Escape(v[1..]) + rest;
      SpecialIsPunctuation(v[0]);
      EscapedIsReadable(v[1..], rest);
    }
  }

  lemma EscapedIsLiteral(v: string)
    ensures forall w :: BranchMatches(Escape(v), w) <==> w == v
    ensures IsReadable(Escape(v)) && BranchEnd(Escape(v)) == |Escape(v)|
  {
    assert Escape(v) + "" == Escape(v);
    EscapedIsReadable(v, "");
    EscapedBranch(v, "", v);
    forall w ensures BranchMatches(Escape(v), w) <==> w == v {
      EscapedBranch(v, "", w);
    }
  }

  lemma AlternationOfCons(values: seq<string>)
    requires |values| > 1
    ensures Alternation(values) == Escape(values[0]) + (['|'] + Alternation(values[1..]))
  {
    assert EscapeAll(values)[1..] == EscapeAll(values[1..]);
  }

  /** The printed alternation is readable and matches exactly the listed values, whatever characters they hold. */
  lemma {:induction false} AlternationMatches(values: seq<string>, w: string)
    requires values != []
    ensures IsReadable(Alternation(values))
    ensures Matches(Alternation(values), w) <==> w in values
  {
    if |values| == 1 {
      EscapedIsLiteral(values[0]);
    } else {
      var tail := ['|'] + Alternation(values[1..]);
      AlternationOfCons(values);
      AlternationMatches(values[1..], w);
      assert tail[1..] == Alternation(values[1..]);
      EscapedBranch(values[0], tail, w);
      EscapedIsReadable(values[0], tail);
      assert (Escape(values[0]) + tail)[|Escape(values[0])| + 1..] == tail[1..];
      assert w in values <==> w == values[0] || w in values[1..];
    }
  }

  /** A value longer than the pattern is not matched. */
  lemma {:induction false} MatchesAreShort(pattern: string, w: string)
    requires Matches(pattern, w)
    ensures |w| <= |pattern|
    decreases |pattern|
  {
    if BranchMatches(pattern, w) {
      BranchIsShort(pattern, w);
    } else {
      MatchesAreShort(pattern[BranchEnd(pattern) + 1..], w);
    }
  }

  lemma {:induction false} BranchIsShort(pattern: string, w: string)
    requires BranchMatches(pattern, w)
    ensures |w| <= |pattern|
    decreases |pattern|
  {
    if pattern != "" && pattern[0] != '|' {
      BranchIsShort(pattern[if pattern[0] == '\\' then 2 else 1..], w[1..]);
    }
  }
}
