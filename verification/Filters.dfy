/**
 * The configured filter and its base selector (extractBaseSelector of
 * internal/orchestrator/orchestrator.go).
 */
module Filters {
  import opened Strings
  import opened Matchers
  import opened Selectors

  predicate IsKept(piece: string) {
    TrimSpace(piece) != "" && !(NAME <= TrimSpace(piece))
  }

  /** The trimmed matchers that do not start with "__name__", in order. */
  function Kept(pieces: seq<string>): seq<string> {
    if pieces == [] then []
    else (if IsKept(pieces[0]) then [TrimSpace(pieces[0])] else []) + Kept(pieces[1..])
  }

  function BaseMatchers(filter: string): seq<string> {
    Kept(Split(Body(filter)))
  }

  method KeepMatchers(pieces: seq<string>) returns (matchers: seq<string>)
    ensures matchers == Kept(pieces)
  {
    matchers := [];
    assert pieces[..0] == [];
    for i := 0 to |pieces|
      invariant matchers == Kept(pieces[..i])
    {
      KeptSnoc(pieces, i);
      var m := TrimSpace(pieces[i]);
      if m == "" || NAME <= m {
        continue;
      }
      matchers := matchers + [m];
    }
    assert pieces[..|pieces|] == pieces;
  }

  lemma KeptSnoc(pieces: seq<string>, i: nat)
    requires i < |pieces|
    ensures Kept(pieces[..i + 1]) == Kept(pieces[..i]) + if IsKept(pieces[i]) then [TrimSpace(pieces[i])] else []
  {
    KeptAppend(pieces[..i], pieces[i]);
    assert pieces[..i + 1] == pieces[..i] + [pieces[i]];
  }

  lemma {:induction false} KeptAppend(pieces: seq<string>, last: string)
    ensures Kept(pieces + [last]) == Kept(pieces) + if IsKept(last) then [TrimSpace(last)] else []
  {
    if pieces == [] {
      assert [last][1..] == [];
    } else {
      assert (pieces + [last])[1..] == pieces[1..] + [last];
      KeptAppend(pieces[1..], last);
    }
  }

  lemma KeptStep(pieces: seq<string>, i: nat)
    requires i < |pieces|
    ensures Kept(pieces[i..]) == (if IsKept(pieces[i]) then [TrimSpace(pieces[i])] else []) + Kept(pieces[i + 1..])
  {
    assert pieces[i..][1..] == pieces[i + 1..];
  }

  method ExtractBaseSelector(filter: string) returns (base: string)
    ensures base == Join(BaseMatchers(filter), ',')
  {
    if filter == "" {
      assert BaseMatchers("") == [] by { TrimmedIsFixed(""); }
      return "";
    }
    var pieces := SplitMatchers(Body(filter));
    var matchers := KeepMatchers(pieces);
    base := Join(matchers, ',');
  }

  /** Every piece that is not blank is a label, an operator and a quoted string. */
  predicate PiecesParse(pieces: seq<string>) {
    forall p :: p in pieces && TrimSpace(p) != "" ==> Parse(TrimSpace(p)).Some?
  }

  predicate PlainFilter(filter: string) {
    PiecesParse(Split(Body(filter)))
  }

  lemma {:induction false} KeptParse(pieces: seq<string>)
    requires PiecesParse(pieces)
    ensures forall m :: m in Kept(pieces) ==> Parse(m).Some?
  {
    if pieces != [] {
      KeptStep(pieces, 0);
      KeptParse(pieces[1..]);
    }
  }

  lemma BaseHasMatchers(filter: string)
    requires PlainFilter(filter)
    ensures forall m :: m in BaseMatchers(filter) ==> IsMatcher(m)
  {
    KeptParse(Split(Body(filter)));
    forall m | m in BaseMatchers(filter) ensures IsMatcher(m) {
      ParsedIsMatcher(m);
    }
  }

  lemma {:induction false} JoinIsPlain(parts: seq<string>)
    requires parts != [] && forall m :: m in parts ==> IsMatcher(m)
    ensures var j := Join(parts, ','); j != "" && Clean(j) && j[|j| - 1] != ',' && Scan(TOP, j) == TOP
  {
    assert IsMatcher(parts[0]);
    if |parts| > 1 {
      JoinIsPlain(parts[1..]);
      PlainList(parts[0], Join(parts[1..], ','));
    }
  }

  lemma PlainList(m: string, rest: string)
    requires IsMatcher(m) && rest != "" && Clean(rest) && rest[|rest| - 1] != ',' && Scan(TOP, rest) == TOP
    ensures var j := m + [','] + rest; Clean(j) && j[|j| - 1] != ',' && Scan(TOP, j) == TOP
  {
    var j, tail := m + [','] + rest, [','] + rest;
    assert tail[1..] == rest && j == m + tail;
    ScanAppend(TOP, m, tail);
    assert j[0] == m[0] && j[|j| - 1] == rest[|rest| - 1];
  }

  /** Splitting the base selector gives exactly the filter's matchers other than the name, in order. */
  lemma SplitOfBase(filter: string)
    requires PlainFilter(filter)
    ensures Split(Join(BaseMatchers(filter), ',')) == BaseMatchers(filter)
  {
    BaseHasMatchers(filter);
    assert forall i :: 0 <= i < |BaseMatchers(filter)| ==> BaseMatchers(filter)[i] in BaseMatchers(filter);
    SplitOfJoin(BaseMatchers(filter));
  }

  /** A comma-separated list contains the name exactly when a matcher of it does. */
  lemma JoinContainsName(ms: seq<string>)
    ensures Contains(Join(ms, ','), NAME) <==> exists i :: 0 <= i < |ms| && Contains(ms[i], NAME)
  {
    if i :| 0 <= i < |ms| && Contains(ms[i], NAME) {
      ContainedInJoin(ms, i);
    } else {
      ContainsJoin(ms, ',', NAME);
    }
  }

  /** The base selector is a well-formed base for the printers unless a matcher mentions "__name__". */
  lemma BaseIsWellFormed(filter: string)
    requires PlainFilter(filter)
    ensures WellFormed(Join(BaseMatchers(filter), ',')) <==>
            forall m :: m in BaseMatchers(filter) ==> !Contains(m, NAME)
  {
    var ms := BaseMatchers(filter);
    BaseHasMatchers(filter);
    JoinContainsName(ms);
    if ms != [] {
      JoinIsPlain(ms);
    }
  }

  lemma {:induction false} ContainedInJoin(parts: seq<string>, i: nat)
    requires i < |parts| && Contains(parts[i], NAME)
    ensures Contains(Join(parts, ','), NAME)
  {
    if |parts| > 1 {
      var tail := Join(parts[1..], ',');
      var whole := parts[0] + [','] + tail;
      if i == 0 {
        var k :| 0 <= k <= |parts[0]| && OccursAt(parts[0], NAME, k);
        assert NAME <= parts[0][k..] && whole[k..] == parts[0][k..] + [','] + tail;
        assert OccursAt(whole, NAME, k);
      } else {
        ContainedInJoin(parts[1..], i - 1);
        var k :| 0 <= k <= |tail| && OccursAt(tail, NAME, k);
        assert whole[|parts[0]| + 1 + k..] == tail[k..];
        assert OccursAt(whole, NAME, |parts[0]| + 1 + k);
      }
    }
  }

  lemma {:induction false} KeptAreTrimmed(pieces: seq<string>)
    ensures forall m :: m in Kept(pieces) ==> Trimmed(m) && m != "" && !(NAME <= m)
  {
    if pieces != [] {
      KeptAreTrimmed(pieces[1..]);
      KeptStep(pieces, 0);
    }
  }

  lemma {:induction false} KeptIsFixed(ms: seq<string>)
    requires forall m :: m in ms ==> Trimmed(m) && m != "" && !(NAME <= m)
    ensures Kept(ms) == ms
  {
    if ms != [] {
      assert ms[0] in ms && ms == [ms[0]] + ms[1..];
      TrimmedIsFixed(ms[0]);
      KeptIsFixed(ms[1..]);
      KeptStep(ms, 0);
    }
  }

  /** A matcher is kept exactly when it is written in the filter, not blank, and does not start with the name. */
  lemma {:induction false} KeptIff(pieces: seq<string>, m: string)
    ensures m in Kept(pieces) <==>
            m != "" && !("__name__" <= m) && exists i :: 0 <= i < |pieces| && TrimSpace(pieces[i]) == m
  {
    if pieces != [] {
      KeptIff(pieces[1..], m);
      if i :| 0 <= i < |pieces| && TrimSpace(pieces[i]) == m {
        assert i > 0 ==> TrimSpace(pieces[1..][i - 1]) == m;
      }
      assert forall i :: 0 <= i < |pieces| - 1 ==> pieces[1..][i] == pieces[i + 1];
    }
  }

  /** Extracting the base of a base changes nothing. */
  lemma ExtractBaseIsIdempotent(filter: string)
    requires PlainFilter(filter)
    ensures var base := Join(BaseMatchers(filter), ','); Join(BaseMatchers(base), ',') == base
  {
    var ms := BaseMatchers(filter);
    BaseHasMatchers(filter);
    KeptAreTrimmed(Split(Body(filter)));
    KeptIsFixed(ms);
    SplitOfBase(filter);
    if ms == [] {
      TrimmedIsFixed("");
    } else {
      JoinIsPlain(ms);
      TrimmedIsFixed(Join(ms, ','));
    }
  }

  // ---------- a filter that is not plain ----------

  /**
   * A metric in front of the braces is not a plain filter, and what the code makes of it is no selector:
   * the printed text opens one brace more than it closes.
   */
  lemma MetricBeforeBraces(metric: string, m: string)
    requires IsLabel(metric) && !(NAME <= metric) && IsMatcher(m)
    ensures var filter := metric + "{" + m + "}";
            && !PlainFilter(filter)
            && BaseMatchers(filter) == [metric + "{" + m]
            && BuildOptimisticSelector(metric, Join(BaseMatchers(filter), ','))
               == Braced(NameMatcher(metric) + "," + (metric + "{" + m))
  {
    var piece := metric + "{" + m;
    PieceWithBrace(metric, m);
    NotTheName(metric, m);
    BraceIsNoOperator(metric, m);
    TrimmedIsFixed(piece);
    StripOfClean(piece);
    KeptStep([piece], 0);
    assert Kept([]) == [];
  }

  /** What is printed for a metric is a selector exactly when the pieces of the base are matchers. */
  lemma PrintedIsPlainIff(metric: string, base: string)
    requires Clean(base) && '"' !in metric && '\\' !in metric
    ensures PlainFilter(BuildOptimisticSelector(metric, base)) <==> PiecesParse(Split(base))
  {
    var name := NameMatcher(metric);
    StripOfClean(base);
    NameMatcherParses(metric);
    if base == "" {
      BodyOfBraced(name);
      SplitOfBalanced(name);
      assert Split("") == [];
    } else {
      BodyOfBraced(name + "," + base);
      SplitOfCons(name, base);
      assert name in [name] + Split(base);
    }
  }

  lemma NameMatcherParses(metric: string)
    requires '"' !in metric && '\\' !in metric
    ensures var name := NameMatcher(metric);
            name != "" && Balanced(name) && TrimSpace(name) == name && Parse(name).Some?
  {
    ExactMatcherReads(NAME, metric);
    TrimmedIsFixed(NameMatcher(metric));
  }

  lemma PieceWithBrace(metric: string, m: string)
    requires IsLabel(metric) && IsMatcher(m)
    ensures var piece := metric + "{" + m; Clean(piece) && Split(Body(piece + "}")) == [piece]
  {
    var piece := metric + "{" + m;
    TrimmedIsFixed(piece + "}");
    assert TrimPrefix(piece + "}", '{') == piece + "}";
    assert TrimSuffix(piece + "}", '}') == piece;
    PlainChars(metric + "{");
    NoCutAppend(TOP, metric + "{", m);
    ScanAppend(TOP, metric + "{", m);
    SplitOfBalanced(piece);
  }

  lemma NotTheName(metric: string, m: string)
    requires !(NAME <= metric)
    ensures !(NAME <= metric + "{" + m)
  {
    var piece := metric + "{" + m;
    assert piece[|metric|] == '{' && forall i :: 0 <= i < |NAME| ==> NAME[i] != '{';
    assert |metric| >= |NAME| ==> piece[..|NAME|] == metric[..|NAME|];
  }

  lemma BraceIsNoOperator(metric: string, m: string)
    requires IsLabel(metric)
    ensures Parse(metric + "{" + m) == None
  {
    var rest := "{" + m;
    assert metric + "{" + m == metric + rest;
    LabelLengthOf(metric, rest);
    assert (metric + rest)[|metric|..] == rest;
    assert rest[0] == '{' && OperatorOf(rest) == "";
  }

  // ---------- what the filter selects ----------

  /** The filter's matchers that the base selector drops. */
  predicate NameMatchersHold(other: Reader, filter: string, s: Series) {
    forall p :: p in Split(Body(filter)) && NAME <= TrimSpace(p) ==> Holds(other, TrimSpace(p), s)
  }

  /** The filter is the base selector and the dropped name matchers together. */
  lemma FilterMeans(other: Reader, filter: string, s: Series)
    requires PlainFilter(filter)
    ensures Selects(other, filter, s) <==>
            AllHold(other, Split(Join(BaseMatchers(filter), ',')), s) && NameMatchersHold(other, filter, s)
  {
    SplitOfBase(filter);
    KeptMeans(other, Split(Body(filter)), s);
    var pieces := Split(Body(filter));
    if AllHold(other, pieces, s) {
      forall p | p in pieces && NAME <= TrimSpace(p) ensures Holds(other, TrimSpace(p), s) {
        var i :| 0 <= i < |pieces| && pieces[i] == p;
        assert PieceHolds(other, pieces[i], s);
      }
    } else {
      var i :| 0 <= i < |pieces| && !PieceHolds(other, pieces[i], s);
      assert pieces[i] in pieces;
    }
  }

  lemma {:induction false} KeptMeans(other: Reader, pieces: seq<string>, s: Series)
    ensures AllHold(other, Kept(pieces), s) <==> forall p :: p in pieces && IsKept(p) ==> PieceHolds(other, p, s)
  {
    if pieces != [] {
      KeptMeans(other, pieces[1..], s);
      assert forall p :: p in pieces <==> p == pieces[0] || p in pieces[1..];
      if IsKept(pieces[0]) {
        TrimmedIsFixed(TrimSpace(pieces[0]));
        AllHoldAppend(other, [TrimSpace(pieces[0])], Kept(pieces[1..]), s);
        assert AllHold(other, [TrimSpace(pieces[0])], s) <==> PieceHolds(other, [TrimSpace(pieces[0])][0], s);
      } else {
        assert Kept(pieces) == Kept(pieces[1..]);
      }
    }
  }
}
