/**
 * The matcher-list scanner of internal/orchestrator/orchestrator.go (splitMatchers): a quote/escape
 * state machine that cuts a selector at its top-level commas.
 */
module Matchers {
  import opened Strings

  /** The scanner's two flags. */
  datatype Mode = Mode(inQuote: bool, escaped: bool)

  const TOP := Mode(false, false)

  function Next(m: Mode, c: char): Mode {
    if m.escaped then Mode(m.inQuote, false)
    else if c == '\\' then Mode(m.inQuote, true)
    else if c == '"' then Mode(!m.inQuote, false)
    else m
  }

  function Scan(m: Mode, s: string): Mode
    decreases |s|
  {
    if s == "" then m else Scan(Next(m, s[0]), s[1..])
  }

  /** A comma read in this mode separates two matchers. */
  predicate Cuts(m: Mode, c: char) {
    c == ',' && m == TOP
  }

  predicate NoCut(m: Mode, s: string)
    decreases |s|
  {
    s == "" || (!Cuts(m, s[0]) && NoCut(Next(m, s[0]), s[1..]))
  }

  /** One complete matcher: no top-level comma inside, every quote and escape closed. */
  predicate Balanced(s: string) {
    NoCut(TOP, s) && Scan(TOP, s) == TOP
  }

  /** The pieces still to be produced when `current` has been read and `s` is left. */
  function Pieces(s: string, current: string, m: Mode): seq<string> {
    if s == "" then (if current == "" then [] else [current])
    else if Cuts(m, s[0]) then [current] + Pieces(s[1..], "", TOP)
    else Pieces(s[1..], current + [s[0]], Next(m, s[0]))
  }

  function Split(s: string): seq<string> {
    Pieces(s, "", TOP)
  }

  /** The source's loop. */
  method SplitMatchers(s: string) returns (result: seq<string>)
    ensures result == Split(s)
  {
    result := [];
    var current := "";
    var inQuote, escaped := false, false;
    for i := 0 to |s|
      invariant result + Pieces(s[i..], current, Mode(inQuote, escaped)) == Split(s)
    {
      var c := s[i];
      assert s[i..][1..] == s[i + 1..];
      if escaped {
        current := current + [c];
        escaped := false;
      } else if c == '\\' {
        escaped := true;
        current := current + [c];
      } else if c == '"' {
        inQuote := !inQuote;
        current := current + [c];
      } else if c == ',' && !inQuote {
        result := result + [current];
        current := "";
      } else {
        current := current + [c];
      }
    }
    if |current| > 0 {
      result := result + [current];
    }
  }

  // ---------- joining what was split ----------

  /** The text ends in a comma that the scanner takes for a separator. */
  predicate EndsWithSeparator(s: string) {
    s != "" && Cuts(Scan(TOP, s[..|s| - 1]), s[|s| - 1])
  }

  function WithoutFinalSeparator(s: string): string {
    if EndsWithSeparator(s) then s[..|s| - 1] else s
  }

  /** Nothing but one trailing separator is lost by splitting. */
  lemma JoinOfSplit(s: string)
    ensures Join(Split(s), ',') == WithoutFinalSeparator(s)
  {
    JoinOfPieces(s, "", TOP);
  }

  lemma {:induction false} JoinOfPieces(s: string, current: string, m: Mode)
    ensures Join(Pieces(s, current, m), ',')
         == current + (if s != "" && Cuts(Scan(m, s[..|s| - 1]), s[|s| - 1]) then s[..|s| - 1] else s)
    decreases |s|
  {
    if s != "" {
      var rest := s[1..];
      if rest != "" {
        assert s[..|s| - 1][1..] == rest[..|rest| - 1];
      }
      if Cuts(m, s[0]) {
        JoinOfPieces(rest, "", TOP);
        assert s == [','] + rest;
        if rest != "" {
          assert Pieces(rest, "", TOP) != [] by { PiecesNonempty(rest, "", TOP); }
          assert Next(m, s[0]) == TOP;
        }
      } else {
        JoinOfPieces(rest, current + [s[0]], Next(m, s[0]));
        assert current + [s[0]] + rest == current + s;
      }
    }
  }

  lemma {:induction false} PiecesNonempty(s: string, current: string, m: Mode)
    requires s != "" || current != ""
    ensures Pieces(s, current, m) != []
  {
    if s != "" && !Cuts(m, s[0]) {
      PiecesNonempty(s[1..], current + [s[0]], Next(m, s[0]));
    }
  }

  // ---------- splitting what was joined ----------

  lemma {:induction false} ScanAppend(m: Mode, a: string, b: string)
    ensures Scan(m, a + b) == Scan(Scan(m, a), b)
    decreases |a|
  {
    if a == "" {
      assert a + b == b;
    } else {
      assert (a + b)[1..] == a[1..] + b;
      ScanAppend(Next(m, a[0]), a[1..], b);
    }
  }

  lemma {:induction false} NoCutAppend(m: Mode, a: string, b: string)
    requires NoCut(m, a) && NoCut(Scan(m, a), b)
    ensures NoCut(m, a + b)
    decreases |a|
  {
    if a == "" {
      assert a + b == b;
    } else {
      assert (a + b)[1..] == a[1..] + b;
      NoCutAppend(Next(m, a[0]), a[1..], b);
    }
  }

  /** Text without top-level commas goes to the current piece. */
  lemma {:induction false} PiecesOfUncut(p: string, rest: string, current: string, m: Mode)
    requires NoCut(m, p)
    ensures Pieces(p + rest, current, m) == Pieces(rest, current + p, Scan(m, p))
    decreases |p|
  {
    if p == "" {
      assert p + rest == rest && current + p == current;
    } else {
      assert (p + rest)[1..] == p[1..] + rest;
      assert current + [p[0]] + p[1..] == current + p;
      PiecesOfUncut(p[1..], rest, current + [p[0]], Next(m, p[0]));
    }
  }

  /** A list that is closed and does not end in a comma is split independently of what follows it. */
  lemma {:induction false} PiecesOfList(a: string, b: string, current: string, m: Mode)
    requires Scan(m, a) == TOP
    requires if a == "" then current != "" else a[|a| - 1] != ','
    ensures Pieces(a + [','] + b, current, m) == Pieces(a, current, m) + Split(b)
    decreases |a|
  {
    var s := a + [','] + b;
    if a == "" {
      assert s[1..] == b;
    } else {
      assert s[1..] == a[1..] + [','] + b;
      if |a| == 1 {
        assert a[1..] == "";
      }
      if Cuts(m, a[0]) {
        PiecesOfList(a[1..], b, "", TOP);
      } else {
        PiecesOfList(a[1..], b, current + [a[0]], Next(m, a[0]));
      }
    }
  }

  lemma SplitOfBalanced(p: string)
    requires Balanced(p) && p != ""
    ensures Split(p) == [p]
  {
    PiecesOfUncut(p, "", "", TOP);
    assert p + "" == p && "" + p == p;
  }

  lemma SplitOfCons(p: string, rest: string)
    requires Balanced(p)
    ensures Split(p + [','] + rest) == [p] + Split(rest)
  {
    PiecesOfUncut(p, [','] + rest, "", TOP);
    assert p + [','] + rest == p + ([','] + rest) && "" + p == p;
    assert ([','] + rest)[1..] == rest;
  }

  /** Splitting undoes joining: balanced pieces come back unchanged and in order. */
  lemma {:induction false} SplitOfJoin(parts: seq<string>)
    requires forall i :: 0 <= i < |parts| ==> Balanced(parts[i])
    requires parts != [] ==> parts[|parts| - 1] != ""
    ensures Split(Join(parts, ',')) == parts
  {
    if |parts| == 1 {
      SplitOfBalanced(parts[0]);
    } else if |parts| > 1 {
      SplitOfJoin(parts[1..]);
      SplitOfCons(parts[0], Join(parts[1..], ','));
    }
  }

  /** Every piece but the last is balanced, and no piece holds a top-level comma. */
  lemma PiecesAreUncut(s: string)
    ensures forall i :: 0 <= i < |Split(s)| ==> NoCut(TOP, Split(s)[i])
    ensures forall i :: 0 <= i < |Split(s)| - 1 ==> Balanced(Split(s)[i])
  {
    PiecesUncutFrom(s, "", TOP);
  }

  lemma {:induction false} PiecesUncutFrom(s: string, current: string, m: Mode)
    requires NoCut(TOP, current) && Scan(TOP, current) == m
    ensures forall i :: 0 <= i < |Pieces(s, current, m)| ==> NoCut(TOP, Pieces(s, current, m)[i])
    ensures forall i :: 0 <= i < |Pieces(s, current, m)| - 1 ==> Balanced(Pieces(s, current, m)[i])
    decreases |s|
  {
    if s != "" {
      if Cuts(m, s[0]) {
        PiecesUncutFrom(s[1..], "", TOP);
      } else {
        ScanAppend(TOP, current, [s[0]]);
        NoCutAppend(TOP, current, [s[0]]);
        PiecesUncutFrom(s[1..], current + [s[0]], Next(m, s[0]));
      }
    }
  }

  // ---------- where a comma separates ----------

  /** An odd number of backslashes comes right before position i. */
  predicate IsEscaped(s: string, i: nat)
    requires i <= |s|
  {
    i > 0 && s[i - 1] == '\\' && !IsEscaped(s, i - 1)
  }

  /** The quotes before position i that are not escaped. */
  function QuotesBefore(s: string, i: nat): nat
    requires i <= |s|
  {
    if i == 0 then 0
    else QuotesBefore(s, i - 1) + if s[i - 1] == '"' && !IsEscaped(s, i - 1) then 1 else 0
  }

  /** The scanner's flags after i characters: an odd number of quotes is open, and the next character is escaped. */
  lemma {:induction false} ScanMeans(s: string, i: nat)
    requires i <= |s|
    ensures Scan(TOP, s[..i]) == Mode(QuotesBefore(s, i) % 2 == 1, IsEscaped(s, i))
  {
    if i > 0 {
      ScanMeans(s, i - 1);
      ScanAppend(TOP, s[..i - 1], [s[i - 1]]);
      assert s[..i] == s[..i - 1] + [s[i - 1]];
      assert [s[i - 1]][1..] == "";
    }
  }

  /** A comma separates two matchers exactly when no quotation is open and it is not escaped. */
  lemma SeparatesIff(s: string, i: nat)
    requires i < |s|
    ensures Cuts(Scan(TOP, s[..i]), s[i]) <==> s[i] == ',' && QuotesBefore(s, i) % 2 == 0 && !IsEscaped(s, i)
  {
    ScanMeans(s, i);
  }
}
