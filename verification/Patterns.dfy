/** Reading a printed pattern back as its list of values, and what becomes of it in a string literal. */
module Patterns {
  import opened Selectors
  import opened Regexes

  // ---------- reading the alternatives ----------

  /**
   * The alternatives of a fully anchored pattern, read at its unescaped bars; None when the pattern
   * uses any other operator or ends inside an escape.
   */
  function Alternatives(pattern: string, current: string): Option<seq<string>>
    decreases |pattern|
  {
    if pattern == "" then Some([current])
    else if pattern[0] == '\\' then
      if |pattern| >= 2 && IsPunctuation(pattern[1]) then Alternatives(pattern[2..], current + [pattern[1]]) else None
    else if pattern[0] == '|' then
      match Alternatives(pattern[1..], "")
      case Some(rest) => Some([current] + rest)
      case None => None
    else if IsOperator(pattern[0]) || pattern[0] == '.' then None
    else Alternatives(pattern[1..], current + [pattern[0]])
  }

  /** Unescaping undoes escaping, one value at a time. */
  lemma {:induction false} AlternativesOfEscaped(v: string, rest: string, current: string)
    ensures Alternatives(Escape(v) + rest, current) == Alternatives(rest, current + v)
    decreases |v|
  {
    if v == "" {
      assert Escape(v) + rest == rest && current + v == current;
    } else {
      var head := if v[0] in SPECIAL then ['\\', v[0]] else [v[0]];
      var text := Escape(v) + rest;
      assert text == head + (Escape(v[1..]) + rest);
      assert text[|head|..] == Escape(v[1..]) + rest;
      assert current + [v[0]] + v[1..] == current + v;
      SpecialIsPunctuation(v[0]);
      AlternativesOfEscaped(v[1..], rest, current + [v[0]]);
    }
  }

  /** Reading the printed alternation recovers the list of values, whatever characters they hold. */
  lemma {:induction false} AlternativesOfAlternation(values: seq<string>)
    requires values != []
    ensures Alternatives(Alternation(values), "") == Some(values)
  {
    if |values| == 1 {
      AlternativesOfEscaped(values[0], "", "");
      assert Escape(values[0]) + "" == Escape(values[0]) && "" + values[0] == values[0];
      assert values == [values[0]];
    } else {
      var tail := ['|'] + Alternation(values[1..]);
      AlternationOfCons(values);
      AlternativesOfEscaped(values[0], tail, "");
      assert "" + values[0] == values[0] && tail[1..] == Alternation(values[1..]);
      AlternativesOfAlternation(values[1..]);
      assert Alternatives(tail, values[0]) == Some([values[0]] + values[1..]);
      assert [values[0]] + values[1..] == values;
    }
  }

  /** Two lists of values printed alike are the same list; in particular escaping is injective. */
  lemma AlternationIsInjective(a: seq<string>, b: seq<string>)
    requires a != [] && b != [] && Alternation(a) == Alternation(b)
    ensures a == b
  {
    AlternativesOfAlternation(a);
    AlternativesOfAlternation(b);
  }

  lemma {:induction false} AlternativesAreReadable(pattern: string, current: string)
    requires Alternatives(pattern, current).Some?
    ensures IsReadable(pattern)
    decreases |pattern|
  {
    if pattern != "" {
      if pattern[0] == '\\' {
        AlternativesAreReadable(pattern[2..], current + [pattern[1]]);
      } else if pattern[0] == '|' {
        AlternativesAreReadable(pattern[1..], "");
      } else {
        AlternativesAreReadable(pattern[1..], current + [pattern[0]]);
      }
    }
  }

  /** The length of the first literal of a pattern, with its backslash. */
  function Step(pattern: string): nat {
    if pattern != "" && pattern[0] == '\\' then 2 else 1
  }

  predicate StartsLiteral(pattern: string) {
    |pattern| >= Step(pattern) && pattern[0] != '|' && pattern[0] != '.'
  }

  /** After a literal the branch ends where it ends without it. */
  lemma EndAfterLiteral(pattern: string)
    requires StartsLiteral(pattern)
    ensures var n, rest := Step(pattern), pattern[Step(pattern)..];
            && BranchEnd(pattern) == n + BranchEnd(rest)
            && (BranchEnd(rest) < |rest| ==> pattern[BranchEnd(pattern) + 1..] == rest[BranchEnd(rest) + 1..])
  {
  }

  /** A branch that starts with a literal matches what starts with that character and goes on with the rest. */
  lemma BranchAfterLiteral(pattern: string, current: string, w: string)
    requires StartsLiteral(pattern)
    ensures var n, rest := Step(pattern), pattern[Step(pattern)..];
            var longer := current + [pattern[n - 1]];
            (current <= w && BranchMatches(pattern, w[|current|..]))
            <==> (longer <= w && BranchMatches(rest, w[|longer|..]))
  {
    var longer := current + [pattern[Step(pattern) - 1]];
    assert longer <= w <==> current <= w && w[|current|..] != "" && w[|current|..][0] == longer[|current|];
    if longer <= w {
      assert w[|longer|..] == w[|current|..][1..];
    }
  }

  /** The values read at the unescaped bars are exactly what the pattern matches. */
  lemma {:induction false} AlternativesMatch(pattern: string, current: string, w: string)
    requires Alternatives(pattern, current).Some?
    ensures w in Alternatives(pattern, current).value <==>
            || (current <= w && BranchMatches(pattern, w[|current|..]))
            || (BranchEnd(pattern) < |pattern| && Matches(pattern[BranchEnd(pattern) + 1..], w))
    decreases |pattern|
  {
    if pattern == "" || pattern[0] == '|' {
      assert w == current <==> current <= w && w[|current|..] == "" by {
        assert current <= w ==> w == current + w[|current|..];
      }
      if pattern != "" {
        AlternativesMatch(pattern[1..], "", w);
      }
    } else {
      var n := Step(pattern);
      AlternativesMatch(pattern[n..], current + [pattern[n - 1]], w);
      EndAfterLiteral(pattern);
      BranchAfterLiteral(pattern, current, w);
    }
  }

  // ---------- string literals ----------

  /**
   * The text of a double-quoted literal as a reader with Go's escapes takes it: an escaped backslash or
   * quote stands for itself. Go's other escapes start with a letter or a digit, which the printers never
   * put after a backslash; everything else is an error.
   */
  function Unescape(content: string): Option<string>
    decreases |content|
  {
    if content == "" then Some("")
    else if content[0] != '\\' then Prepend(content[0], Unescape(content[1..]))
    else if |content| >= 2 && content[1] in "\\\"" then Prepend(content[1], Unescape(content[2..]))
    else None
  }

  function Prepend(c: char, rest: Option<string>): Option<string> {
    match rest
    case Some(text) => Some([c] + text)
    case None => None
  }

  lemma {:induction false} UnescapeShortens(content: string)
    ensures Unescape(content).Some? ==> |Unescape(content).value| <= |content|
    ensures Unescape(content).Some? && '\\' in content ==> |Unescape(content).value| < |content|
    ensures '\\' !in content ==> Unescape(content) == Some(content)
    decreases |content|
  {
    if content != "" {
      if content[0] == '\\' {
        if |content| >= 2 {
          UnescapeShortens(content[2..]);
        }
      } else {
        UnescapeShortens(content[1..]);
        assert content == [content[0]] + content[1..];
      }
    }
  }

  predicate IsOrdinary(v: string) {
    forall c :: c in v ==> !HasMeaning(c)
  }

  lemma {:induction false} EscapeAddsBackslash(v: string)
    ensures '\\' in Escape(v) <==> !IsOrdinary(v)
  {
    if v != "" {
      EscapeAddsBackslash(v[1..]);
      SpecialIsPunctuation(v[0]);
      assert v == [v[0]] + v[1..];
      assert IsOrdinary(v) <==> !HasMeaning(v[0]) && IsOrdinary(v[1..]);
    }
  }

  lemma {:induction false} AlternationAddsBackslash(values: seq<string>)
    ensures '\\' in Alternation(values) <==> exists i :: 0 <= i < |values| && !IsOrdinary(values[i])
  {
    if |values| == 1 {
      EscapeAddsBackslash(values[0]);
    } else if |values| > 1 {
      AlternationOfCons(values);
      EscapeAddsBackslash(values[0]);
      AlternationAddsBackslash(values[1..]);
    }
  }

  /** A reader that unescapes literals sees the printed pattern unchanged exactly when no value needs escaping. */
  lemma LiteralIsVerbatimIff(values: seq<string>)
    ensures Unescape(Alternation(values)) == Some(Alternation(values))
       <==> forall i :: 0 <= i < |values| ==> IsOrdinary(values[i])
  {
    AlternationAddsBackslash(values);
    UnescapeShortens(Alternation(values));
  }

  /** No character but the backslash needs escaping. */
  predicate IsPlainExceptBackslash(v: string) {
    forall c :: c in v && HasMeaning(c) ==> c == '\\'
  }

  lemma PlainCons(v: string)
    requires v != ""
    ensures IsPlainExceptBackslash(v) <==> (HasMeaning(v[0]) ==> v[0] == '\\') && IsPlainExceptBackslash(v[1..])
  {
    assert forall c :: c in v <==> c == v[0] || c in v[1..];
  }

  /** The printed form of one character is accepted when it is not special or a backslash. */
  lemma UnescapeOne(c: char, rest: string)
    ensures var head := if c in SPECIAL then ['\\', c] else [c];
            Unescape(head + rest).Some? <==> (HasMeaning(c) ==> c == '\\') && Unescape(rest).Some?
  {
    var head := if c in SPECIAL then ['\\', c] else [c];
    SpecialIsPunctuation(c);
    assert (head + rest)[|head|..] == rest;
  }

  lemma {:induction false} UnescapeOfEscaped(v: string, rest: string)
    ensures Unescape(Escape(v) + rest).Some? <==> IsPlainExceptBackslash(v) && Unescape(rest).Some?
    decreases |v|
  {
    if v == "" {
      assert Escape(v) + rest == rest;
    } else {
      var head := if v[0] in SPECIAL then ['\\', v[0]] else [v[0]];
      assert Escape(v) + rest == head + (Escape(v[1..]) + rest);
      UnescapeOne(v[0], Escape(v[1..]) + rest);
      PlainCons(v);
      UnescapeOfEscaped(v[1..], rest);
    }
  }

  /**
   * Such a reader rejects the printed pattern exactly when a value holds a special character other than a
   * backslash, say a dot.
   */
  lemma {:induction false} LiteralIsAcceptedIff(values: seq<string>)
    ensures Unescape(Alternation(values)).Some? <==> forall i :: 0 <= i < |values| ==> IsPlainExceptBackslash(values[i])
  {
    if |values| == 1 {
      UnescapeOfEscaped(values[0], "");
      assert Escape(values[0]) + "" == Escape(values[0]);
    } else if |values| > 1 {
      var tail := ['|'] + Alternation(values[1..]);
      AlternationOfCons(values);
      UnescapeOfEscaped(values[0], tail);
      assert tail[1..] == Alternation(values[1..]);
      LiteralIsAcceptedIff(values[1..]);
    }
  }
}
