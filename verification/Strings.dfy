/** The few operations of Go's `strings` package that selector building relies on. */
module Strings {

  /** unicode.IsSpace. */
  predicate IsSpace(c: char) {
    || c == ' ' || '\t' <= c <= '\r' || c == '\U{0085}' || c == '\U{00A0}' || c == '\U{1680}'
    || '\U{2000}' <= c <= '\U{200A}' || c == '\U{2028}' || c == '\U{2029}' || c == '\U{202F}'
    || c == '\U{205F}' || c == '\U{3000}'
  }

  /** Among the ASCII characters: tab, line feed, vertical tab, form feed, carriage return and space. */
  lemma AsciiSpaces(c: char)
    requires c <= '\U{7F}'
    ensures IsSpace(c) <==> c in "\U{9}\U{A}\U{B}\U{C}\U{D} "
  {
  }

  function TrimLeft(s: string): (r: string)
    ensures r != "" ==> !IsSpace(r[0])
  {
    if s != "" && IsSpace(s[0]) then TrimLeft(s[1..]) else s
  }

  function TrimRight(s: string): (r: string)
    ensures r <= s
    ensures r != "" ==> !IsSpace(r[|r| - 1])
  {
    if s != "" && IsSpace(s[|s| - 1]) then TrimRight(s[..|s| - 1]) else s
  }

  function TrimSpace(s: string): (r: string)
    ensures Trimmed(r)
  {
    TrimRight(TrimLeft(s))
  }

  predicate Trimmed(s: string) {
    s == "" || (!IsSpace(s[0]) && !IsSpace(s[|s| - 1]))
  }

  lemma TrimmedIsFixed(s: string)
    requires Trimmed(s)
    ensures TrimSpace(s) == s
  {
  }

  predicate AllSpaces(s: string) {
    forall i :: 0 <= i < |s| ==> IsSpace(s[i])
  }

  /** Surrounding space goes, and nothing else. */
  lemma {:induction false} TrimSpaceTrims(before: string, s: string, after: string)
    requires AllSpaces(before) && AllSpaces(after) && Trimmed(s) && s != ""
    ensures TrimSpace(before + s + after) == s
  {
    if before != "" {
      assert before + s + after == [before[0]] + (before[1..] + s + after);
      TrimSpaceTrims(before[1..], s, after);
    } else {
      assert before + s + after == s + after;
      assert TrimLeft(s + after) == s + after;
      TrimRightTrims(s, after);
    }
  }

  lemma {:induction false} TrimRightTrims(s: string, after: string)
    requires AllSpaces(after) && s != "" && !IsSpace(s[|s| - 1])
    ensures TrimRight(s + after) == s
  {
    if after == "" {
      assert s + after == s;
    } else {
      var n := |after| - 1;
      assert (s + after)[..|s + after| - 1] == s + after[..n];
      TrimRightTrims(s, after[..n]);
    }
  }

  function TrimPrefix(s: string, c: char): string {
    if s != "" && s[0] == c then s[1..] else s
  }

  function TrimSuffix(s: string, c: char): string {
    if s != "" && s[|s| - 1] == c then s[..|s| - 1] else s
  }

  predicate OccursAt(s: string, pattern: string, i: int) {
    0 <= i <= |s| && pattern <= s[i..]
  }

  /** strings.Contains. */
  predicate Contains(s: string, pattern: string) {
    exists i :: 0 <= i <= |s| && OccursAt(s, pattern, i)
  }

  /** strings.Join. */
  function Join(parts: seq<string>, separator: char): string {
    if parts == [] then ""
    else if |parts| == 1 then parts[0]
    else parts[0] + [separator] + Join(parts[1..], separator)
  }

  /** An occurrence of a pattern cannot straddle a character the pattern does not contain. */
  lemma ContainsSplit(a: string, c: char, b: string, pattern: string)
    requires c !in pattern
    ensures Contains(a + [c] + b, pattern) ==> Contains(a, pattern) || Contains(b, pattern)
  {
    var s := a + [c] + b;
    assert s[|a|] == c;
    if Contains(s, pattern) {
      var i :| 0 <= i <= |s| && OccursAt(s, pattern, i);
      forall k | i <= k < i + |pattern| ensures s[k] in pattern {
        assert s[k] == pattern[k - i];
      }
      if i + |pattern| <= |a| {
        assert OccursAt(a, pattern, i);
      } else if |a| < i {
        assert s[i..] == b[i - |a| - 1..];
        assert OccursAt(b, pattern, i - |a| - 1);
      } else {
        assert false;
      }
    }
  }

  lemma {:induction false} ContainsJoin(parts: seq<string>, separator: char, pattern: string)
    requires separator !in pattern && pattern != ""
    requires forall i :: 0 <= i < |parts| ==> !Contains(parts[i], pattern)
    ensures !Contains(Join(parts, separator), pattern)
  {
    if |parts| > 1 {
      ContainsJoin(parts[1..], separator, pattern);
      ContainsSplit(parts[0], separator, Join(parts[1..], separator), pattern);
    }
  }
}
