/**
 * Selector text: what internal/splitter/splitter.go and internal/orchestrator/orchestrator.go
 * print, and what the printed text selects.
 */
module Selectors {
  import opened Strings
  import opened Matchers
  import opened Regexes

  const NAME := "__name__"

  /** A series is identified by its labels; a label with an empty value counts as absent. */
  type Series = map<string, string>

  function Get(s: Series, key: string): string {
    if key in s then s[key] else ""
  }

  // ---------- printing ----------

  /** The selector without surrounding space and one pair of braces. */
  function Body(selector: string): string {
    TrimSuffix(TrimPrefix(TrimSpace(selector), '{'), '}')
  }

  /** TrimSpace, TrimPrefix "{", TrimSuffix "}", TrimSpace: the same four lines in every printer. */
  function Strip(selector: string): string {
    TrimSpace(Body(selector))
  }

  function NameMatcher(metric: string): string {
    ExactMatcher(NAME, metric)
  }

  function Braced(body: string): string {
    "{" + body + "}"
  }

  function BuildMatch(metric: string, selector: string): string {
    if TrimSpace(selector) == "" then Braced(NameMatcher(metric))
    else if Contains(Strip(selector), NAME) then Braced(Strip(selector))
    else if Strip(selector) != "" then Braced(NameMatcher(metric) + "," + Strip(selector))
    else Braced(NameMatcher(metric))
  }

  function BuildOptimisticSelector(metric: string, baseSelector: string): string {
    if Strip(baseSelector) != "" then Braced(NameMatcher(metric) + "," + Strip(baseSelector))
    else Braced(NameMatcher(metric))
  }

  /** The discovery client's own copy of the printer (buildMatchSelector). */
  function BuildMatchSelector(metric: string, baseSelector: string): string {
    var parts := if baseSelector != "" && Strip(baseSelector) != "" then [Strip(baseSelector)] else [];
    Braced(Join([NameMatcher(metric)] + parts, ','))
  }

  function JoinSelector(baseSelector: string, matcher: string): string {
    if Strip(baseSelector) == "" then matcher else Strip(baseSelector) + "," + matcher
  }

  function ExactMatcher(key: string, value: string): string {
    key + "=\"" + value + "\""
  }

  function RegexMatcher(key: string, values: seq<string>): string {
    key + "=~\"" + Alternation(values) + "\""
  }

  method AppendRegexSelector(baseSelector: string, key: string, values: seq<string>) returns (r: string)
    ensures r == JoinSelector(baseSelector, RegexMatcher(key, values))
  {
    var escaped: seq<string> := [];
    for i := 0 to |values|
      invariant |escaped| == i && forall k :: 0 <= k < i ==> escaped[k] == Escape(values[k])
    {
      var e := EscapeRegex(values[i]);
      escaped := escaped + [e];
    }
    assert escaped == EscapeAll(values);
    r := JoinSelector(baseSelector, key + "=~\"" + Join(escaped, '|') + "\"");
  }

  function AppendExactSelector(baseSelector: string, key: string, value: string): string {
    JoinSelector(baseSelector, ExactMatcher(key, value))
  }

  function AppendEmptyLabelSelector(baseSelector: string, key: string): string {
    JoinSelector(baseSelector, key + "=\"\"")
  }

  // ---------- reading ----------

  /**
   * label="value", label=~"pattern" with a pattern of literals, dots and bars, or any other label,
   * operator and quoted string.
   */
  datatype Matcher = Exact(key: string, value: string) | Regex(key: string, pattern: string) | Other(key: string)

  datatype Option<+T> = None | Some(value: T)

  predicate IsLabelChar(c: char) {
    'a' <= c <= 'z' || 'A' <= c <= 'Z' || '0' <= c <= '9' || c == '_' || c == ':'
  }

  predicate IsLabel(s: string) {
    s != "" && forall i :: 0 <= i < |s| ==> IsLabelChar(s[i])
  }

  function LabelLength(s: string): (n: nat)
    ensures n <= |s| && (forall i :: 0 <= i < n ==> IsLabelChar(s[i])) && (n < |s| ==> !IsLabelChar(s[n]))
  {
    if s == "" || !IsLabelChar(s[0]) then 0 else 1 + LabelLength(s[1..])
  }

  /** The inside of a quotation: no quote that is not escaped, no escape left open. */
  predicate IsContent(s: string, escaped: bool)
    decreases |s|
  {
    if s == "" then !escaped
    else if escaped then IsContent(s[1..], false)
    else s[0] != '"' && IsContent(s[1..], s[0] == '\\')
  }

  predicate IsQuoted(s: string) {
    |s| >= 2 && s[0] == '"' && s[|s| - 1] == '"' && IsContent(s[1..|s| - 1], false)
  }

  /** A label, an operator and one quoted string, with space around the operator or not. */
  function Parse(m: string): Option<Matcher> {
    var n := LabelLength(m);
    if n == 0 then None else ParseOperator(m[..n], TrimLeft(m[n..]))
  }

  function OperatorOf(rest: string): (op: string)
    ensures op <= rest && IsPlainText(op)
  {
    if "=~" <= rest then "=~"
    else if "!~" <= rest then "!~"
    else if "!=" <= rest then "!="
    else if "=" <= rest then "="
    else ""
  }

  function ParseOperator(key: string, rest: string): Option<Matcher> {
    var op := OperatorOf(rest);
    if op == "" then None else ParseValue(key, op, TrimLeft(rest[|op|..]))
  }

  function ParseValue(key: string, op: string, body: string): Option<Matcher> {
    if !IsQuoted(body) then None
    else
      var content := body[1..|body| - 1];
      if op == "=" && '\\' !in content then Some(Exact(key, content))
      else if op == "=~" && '"' !in content && IsReadable(content) then Some(Regex(key, content))
      else Some(Other(key))
  }

  /**
   * What the time-series database makes of the matchers this model does not interpret: whether the
   * matcher holds of a value of its label. Text that is no matcher at all reads the same for every series.
   */
  type Reader = (string, string) -> bool

  predicate Holds(other: Reader, m: string, s: Series) {
    match Parse(m)
    case Some(Exact(key, value)) => Get(s, key) == value
    case Some(Regex(key, pattern)) => Matches(pattern, Get(s, key))
    case Some(Other(key)) => other(m, Get(s, key))
    case None => other(m, "")
  }

  /** One piece of a matcher list; an empty piece (a trailing comma) says nothing. */
  predicate PieceHolds(other: Reader, piece: string, s: Series) {
    TrimSpace(piece) == "" || Holds(other, TrimSpace(piece), s)
  }

  predicate AllHold(other: Reader, pieces: seq<string>, s: Series) {
    forall i :: 0 <= i < |pieces| ==> PieceHolds(other, pieces[i], s)
  }

  /** The series a selector text selects. */
  predicate Selects(other: Reader, selector: string, s: Series) {
    AllHold(other, Split(Body(selector)), s)
  }

  // ---------- well-formed text ----------

  /** Text the four stripping lines leave alone. */
  predicate Clean(s: string) {
    s == "" || (Trimmed(s) && s[0] != '{' && s[|s| - 1] != '}')
  }

  /** A base selector as the printers need it: bare, closed, without the metric name. */
  predicate WellFormed(base: string) {
    Clean(base) && Scan(TOP, base) == TOP && (base != "" ==> base[|base| - 1] != ',') && !Contains(base, NAME)
  }

  /** A single printed matcher. */
  predicate IsMatcher(m: string) {
    m != "" && IsLabelChar(m[0]) && m[|m| - 1] == '"' && Balanced(m)
  }

  lemma StripOfClean(s: string)
    requires Clean(s)
    ensures Strip(s) == s
  {
    TrimmedIsFixed(s);
  }

  lemma BodyOfBraced(s: string)
    ensures Body(Braced(s)) == s
  {
    TrimmedIsFixed(Braced(s));
    assert TrimPrefix(Braced(s), '{') == s + "}";
    assert TrimSuffix(s + "}", '}') == s;
  }

  /** Space around the braces and inside them, and the braces, are stripped from a bare selector. */
  lemma StripOfBraced(before: string, left: string, s: string, right: string, after: string)
    requires Clean(s) && s != ""
    requires AllSpaces(before) && AllSpaces(left) && AllSpaces(right) && AllSpaces(after)
    ensures Strip(before + Braced(left + s + right) + after) == s
    ensures Body(before + Braced(left + s + right) + after) == left + s + right
  {
    TrimSpaceTrims(before, Braced(left + s + right), after);
    BodyOfBraced(left + s + right);
    TrimmedIsFixed(Braced(left + s + right));
    TrimSpaceTrims(left, s, right);
  }

  // ---------- a matcher is one balanced piece ----------

  lemma {:induction false} TrimLeftCuts(s: string) returns (spaces: string)
    ensures s == spaces + TrimLeft(s) && IsPlainText(spaces)
  {
    if s != "" && IsSpace(s[0]) {
      var rest := TrimLeftCuts(s[1..]);
      spaces := [s[0]] + rest;
    } else {
      spaces := "";
    }
  }

  predicate IsPlainText(s: string) {
    forall i :: 0 <= i < |s| ==> s[i] != ',' && s[i] != '"' && s[i] != '\\'
  }

  /** Text without commas, quotes and escapes does not move the scanner. */
  lemma {:induction false} PlainChars(s: string)
    requires IsPlainText(s)
    ensures NoCut(TOP, s) && Scan(TOP, s) == TOP
  {
    if s != "" {
      PlainChars(s[1..]);
    }
  }

  lemma {:induction false} InsideQuotes(content: string, escaped: bool)
    requires IsContent(content, escaped)
    ensures NoCut(Mode(true, escaped), content) && Scan(Mode(true, escaped), content) == Mode(true, false)
    decreases |content|
  {
    if content != "" {
      InsideQuotes(content[1..], !escaped && content[0] == '\\');
    }
  }

  lemma QuotedIsBalanced(head: string, body: string)
    requires IsQuoted(body) && IsPlainText(head)
    ensures Balanced(head + body)
  {
    var content := body[1..|body| - 1];
    PlainChars(head);
    InsideQuotes(content, false);
    assert body == "\"" + (content + "\"");
    assert "\""[1..] == "";
    NoCutAppend(Mode(true, false), content, "\"");
    ScanAppend(Mode(true, false), content, "\"");
    assert body[1..] == content + "\"";
    NoCutAppend(TOP, head, body);
    ScanAppend(TOP, head, body);
  }

  /** Plain text before plain text before a quotation. */
  lemma PlainBefore(a: string, b: string, body: string) returns (head: string)
    requires IsPlainText(a) && IsPlainText(b)
    ensures head == a + b && IsPlainText(head) && a + (b + body) == head + body
  {
    head := a + b;
  }

  lemma OperatorParts(rest: string) returns (head: string, body: string)
    requires IsQuoted(TrimLeft(rest[|OperatorOf(rest)|..]))
    ensures rest == head + body && IsPlainText(head) && IsQuoted(body)
  {
    var op := OperatorOf(rest);
    var after := TrimLeftCuts(rest[|op|..]);
    body := TrimLeft(rest[|op|..]);
    assert rest == op + rest[|op|..];
    head := PlainBefore(op, after, body);
  }

  lemma MatcherParts(m: string) returns (head: string, body: string)
    requires Parse(m).Some?
    ensures m == head + body && IsPlainText(head) && IsQuoted(body)
  {
    var key, rest := m[..LabelLength(m)], m[LabelLength(m)..];
    assert m == key + rest;
    var before := TrimLeftCuts(rest);
    var middle;
    middle, body := OperatorParts(TrimLeft(rest));
    var start := PlainBefore(before, middle, body);
    head := PlainBefore(key, start, body);
  }

  /** A label, an operator and a quoted string are one balanced piece. */
  lemma ParsedIsMatcher(m: string)
    requires Parse(m).Some?
    ensures IsMatcher(m)
  {
    var head, body := MatcherParts(m);
    QuotedIsBalanced(head, body);
    assert m[|m| - 1] == body[|body| - 1];
  }

  // ---------- printed matchers read back ----------

  lemma {:induction false} LabelLengthOf(key: string, rest: string)
    requires forall i :: 0 <= i < |key| ==> IsLabelChar(key[i])
    requires rest != "" && !IsLabelChar(rest[0])
    ensures LabelLength(key + rest) == |key|
  {
    if key == "" {
      assert key + rest == rest;
    } else {
      assert (key + rest)[1..] == key[1..] + rest;
      LabelLengthOf(key[1..], rest);
    }
  }

  /** An exact matcher is one balanced piece and reads back as written. */
  lemma ExactMatcherReads(key: string, value: string)
    requires IsLabel(key) && '"' !in value && '\\' !in value
    ensures IsMatcher(ExactMatcher(key, value))
    ensures Parse(ExactMatcher(key, value)) == Some(Exact(key, value))
  {
    var quoted := "\"" + value + "\"";
    assert ExactMatcher(key, value) == key + ("=" + quoted);
    PlainContent(value);
    assert quoted[1..|quoted| - 1] == value;
    ParseOf(key, "=", quoted);
    ParsedIsMatcher(ExactMatcher(key, value));
  }

  lemma {:induction false} PlainContent(value: string)
    requires '"' !in value && '\\' !in value
    ensures IsContent(value, false)
  {
    if value != "" {
      assert value[0] in value;
      PlainContent(value[1..]);
    }
  }

  lemma ParseOf(key: string, op: string, quoted: string)
    requires IsLabel(key) && op in ["=", "!=", "=~", "!~"] && IsQuoted(quoted)
    ensures Parse(key + (op + quoted)) == ParseValue(key, op, quoted)
  {
    var rest := op + quoted;
    LabelLengthOf(key, rest);
    assert (key + rest)[..|key|] == key && (key + rest)[|key|..] == rest;
    assert rest[0] in "=!" && rest[|op|..] == quoted;
    assert OperatorOf(rest) == op;
  }

  lemma {:induction false} ReadableContent(pattern: string)
    requires '"' !in pattern && IsReadable(pattern)
    ensures IsContent(pattern, false)
    decreases |pattern|
  {
    if pattern != "" {
      if pattern[0] == '\\' {
        assert pattern[1] in pattern && pattern[1..][1..] == pattern[2..];
        ReadableContent(pattern[2..]);
      } else {
        assert pattern[0] in pattern;
        ReadableContent(pattern[1..]);
      }
    }
  }

  lemma {:induction false} EscapeAddsNoQuote(v: string)
    requires '"' !in v
    ensures '"' !in Escape(v)
  {
    if v != "" {
      assert v[0] in v;
      EscapeAddsNoQuote(v[1..]);
    }
  }

  lemma {:induction false} AlternationAddsNoQuote(values: seq<string>)
    requires forall i :: 0 <= i < |values| ==> '"' !in values[i]
    ensures '"' !in Alternation(values)
  {
    if |values| == 1 {
      EscapeAddsNoQuote(values[0]);
    } else if |values| > 1 {
      AlternationOfCons(values);
      EscapeAddsNoQuote(values[0]);
      AlternationAddsNoQuote(values[1..]);
    }
  }

  /** A regex matcher is one balanced piece and reads back as its pattern. */
  lemma RegexMatcherReads(key: string, values: seq<string>)
    requires IsLabel(key) && values != [] && forall i :: 0 <= i < |values| ==> '"' !in values[i]
    ensures IsMatcher(RegexMatcher(key, values))
    ensures Parse(RegexMatcher(key, values)) == Some(Regex(key, Alternation(values)))
  {
    var pattern := Alternation(values);
    var quoted := "\"" + pattern + "\"";
    assert RegexMatcher(key, values) == key + ("=~" + quoted);
    AlternationMatches(values, "");
    AlternationAddsNoQuote(values);
    ReadableContent(pattern);
    assert quoted[1..|quoted| - 1] == pattern;
    ParseOf(key, "=~", quoted);
    ParsedIsMatcher(RegexMatcher(key, values));
  }

  /** It holds of a series exactly when the label has one of the listed values. */
  lemma RegexMatcherHolds(other: Reader, key: string, values: seq<string>, s: Series)
    requires IsLabel(key) && values != [] && forall i :: 0 <= i < |values| ==> '"' !in values[i]
    ensures Holds(other, RegexMatcher(key, values), s) <==> Get(s, key) in values
  {
    RegexMatcherReads(key, values);
    AlternationMatches(values, Get(s, key));
  }

  // ---------- one more conjunct per append ----------

  /** Splitting the printed selector: the name matcher, then the base's matchers. */
  lemma SplitOfBuildMatch(metric: string, base: string)
    requires WellFormed(base) && '"' !in metric && '\\' !in metric
    ensures Split(Body(BuildMatch(metric, base))) == [NameMatcher(metric)] + Split(base)
  {
    ExactMatcherReads(NAME, metric);
    StripOfClean(base);
    var name := NameMatcher(metric);
    if base == "" {
      BodyOfBraced(name);
      SplitOfBalanced(name);
    } else {
      TrimmedIsFixed(base);
      BodyOfBraced(name + "," + base);
      SplitOfCons(name, base);
    }
  }

  /** Splitting a joined selector: the base's matchers, then the new one. */
  lemma SplitOfJoinSelector(base: string, m: string)
    requires WellFormed(base) && IsMatcher(m)
    ensures Split(JoinSelector(base, m)) == Split(base) + [m]
  {
    StripOfClean(base);
    SplitOfBalanced(m);
    if base == "" {
      assert Split(base) == [];
    } else {
      PiecesOfList(base, m, "", TOP);
    }
  }

  lemma JoinSelectorIsWellFormed(base: string, m: string)
    requires WellFormed(base) && IsMatcher(m) && !Contains(m, NAME)
    ensures WellFormed(JoinSelector(base, m))
  {
    StripOfClean(base);
    if base != "" {
      ScanAppend(TOP, base, [',']);
      assert [','][1..] == "";
      ScanAppend(TOP, base + [','], m);
      ContainsSplit(base, ',', m, NAME);
    }
  }

  lemma AllHoldAppend(other: Reader, a: seq<string>, b: seq<string>, s: Series)
    ensures AllHold(other, a + b, s) <==> AllHold(other, a, s) && AllHold(other, b, s)
  {
    assert forall i :: 0 <= i < |a| ==> a[i] == (a + b)[i];
    assert forall i :: 0 <= i < |b| ==> b[i] == (a + b)[|a| + i];
  }

  lemma AllHoldOne(other: Reader, m: string, s: Series)
    requires IsMatcher(m)
    ensures AllHold(other, [m], s) <==> Holds(other, m, s)
  {
    TrimmedIsFixed(m);
    assert [m][0] == m;
  }

  /** A printed selector selects the metric's series on which every matcher of the base holds. */
  lemma BuildMatchMeans(other: Reader, metric: string, base: string, s: Series)
    requires WellFormed(base) && '"' !in metric && '\\' !in metric
    ensures Selects(other, BuildMatch(metric, base), s) <==> Get(s, NAME) == metric && AllHold(other, Split(base), s)
  {
    var name := NameMatcher(metric);
    calc {
      Selects(other, BuildMatch(metric, base), s);
      { SplitOfBuildMatch(metric, base); }
      AllHold(other, [name] + Split(base), s);
      { AllHoldAppend(other, [name], Split(base), s); }
      AllHold(other, [name], s) && AllHold(other, Split(base), s);
      { ExactMatcherReads(NAME, metric); AllHoldOne(other, name, s); }
      Get(s, NAME) == metric && AllHold(other, Split(base), s);
    }
  }

  /** The full selector text after an append: name, base, new matcher, in this order and nothing else. */
  lemma SplitAfterAppend(metric: string, base: string, m: string)
    requires WellFormed(base) && '"' !in metric && '\\' !in metric
    requires IsMatcher(m) && !Contains(m, NAME)
    ensures Split(Body(BuildMatch(metric, JoinSelector(base, m)))) == [NameMatcher(metric)] + Split(base) + [m]
  {
    JoinSelectorIsWellFormed(base, m);
    SplitOfBuildMatch(metric, JoinSelector(base, m));
    SplitOfJoinSelector(base, m);
  }

  /** Appending a matcher adds exactly one conjunct to what the selector text selects. */
  lemma AppendMeans(other: Reader, metric: string, base: string, m: string, s: Series)
    requires WellFormed(base) && '"' !in metric && '\\' !in metric
    requires IsMatcher(m) && !Contains(m, NAME)
    ensures Selects(other, BuildMatch(metric, JoinSelector(base, m)), s)
       <==> Selects(other, BuildMatch(metric, base), s) && Holds(other, m, s)
  {
    JoinSelectorIsWellFormed(base, m);
    BuildMatchMeans(other, metric, base, s);
    BuildMatchMeans(other, metric, JoinSelector(base, m), s);
    SplitOfJoinSelector(base, m);
    AllHoldAppend(other, Split(base), [m], s);
    AllHoldOne(other, m, s);
  }

  // ---------- the printers agree exactly while the text "__name__" stays away ----------

  lemma PrintersAgree(metric: string, base: string)
    ensures BuildMatchSelector(metric, base) == BuildOptimisticSelector(metric, base)
    ensures BuildMatch(metric, base) == BuildOptimisticSelector(metric, base) <==> !Contains(Strip(base), NAME)
  {
    TrimmedIsFixed("");
    if TrimSpace(base) == "" {
      assert Strip(base) == "";
    }
    assert base == "" ==> Strip(base) == "";
    assert Contains("", NAME) ==> OccursAt("", NAME, 0);
    assert !Contains("", NAME);
    var parts := [Strip(base)];
    assert Join(parts, ',') == Strip(base);
    assert ([NameMatcher(metric)] + parts)[1..] == parts;
    assert |Braced(NameMatcher(metric) + "," + Strip(base))| != |Braced(Strip(base))|;
  }

  /** What all three print for a metric and a base that suits them. */
  lemma PrintedText(metric: string, base: string)
    requires WellFormed(base)
    ensures var text := "{__name__=\"" + metric + "\"" + (if base == "" then "" else "," + base) + "}";
            && BuildOptimisticSelector(metric, base) == text && BuildMatchSelector(metric, base) == text
            && BuildMatch(metric, base) == text
  {
    StripOfClean(base);
    PrintersAgree(metric, base);
    var head := "{__name__=\"" + metric + "\"";
    assert "{" + NameMatcher(metric) == head;
    if base == "" {
      assert Braced(NameMatcher(metric)) == head + "" + "}";
    } else {
      assert Braced(NameMatcher(metric) + "," + base) == head + ("," + base) + "}";
    }
  }

  lemma ContainsLater(a: string, c: char, b: string, pattern: string)
    requires Contains(b, pattern)
    ensures Contains(a + [c] + b, pattern)
  {
    var i :| 0 <= i <= |b| && OccursAt(b, pattern, i);
    assert (a + [c] + b)[|a| + 1 + i..] == b[i..];
    assert OccursAt(a + [c] + b, pattern, |a| + 1 + i);
  }

  /** Once a matcher's text contains "__name__" the metric is dropped: the series of every metric are selected. */
  lemma NameInAMatcherDropsTheMetric(other: Reader, metric: string, base: string, m: string, s: Series)
    requires WellFormed(base) && IsMatcher(m) && Contains(m, NAME)
    ensures Selects(other, BuildMatch(metric, JoinSelector(base, m)), s)
       <==> AllHold(other, Split(base), s) && Holds(other, m, s)
  {
    var joined := JoinSelector(base, m);
    StripOfClean(base);
    if base != "" {
      ContainsLater(base, ',', m, NAME);
    }
    assert Clean(joined);
    StripOfClean(joined);
    TrimmedIsFixed(joined);
    BodyOfBraced(joined);
    SplitOfJoinSelector(base, m);
    AllHoldAppend(other, Split(base), [m], s);
    AllHoldOne(other, m, s);
  }

  /** A label value "__name__" is enough. */
  lemma NameAsAValue(other: Reader, metric: string, key: string, s: Series)
    requires IsLabel(key) && Get(s, key) == NAME
    ensures Selects(other, BuildMatch(metric, AppendExactSelector("", key, NAME)), s)
  {
    var m := ExactMatcher(key, NAME);
    ExactMatcherReads(key, NAME);
    assert m[|key| + 2..] == NAME + "\"";
    assert OccursAt(m, NAME, |key| + 2);
    NameInAMatcherDropsTheMetric(other, metric, "", m, s);
  }

  // ---------- matchers that do not contain the name label ----------

  lemma {:induction false} EscapeKeepsOut(v: string)
    requires !Contains(v, NAME)
    ensures !Contains(Escape(v), NAME)
  {
    if Contains(Escape(v), NAME) {
      var i :| 0 <= i <= |Escape(v)| && OccursAt(Escape(v), NAME, i);
      var j := OccurrenceBeforeEscaping(v, i);
    }
  }

  lemma {:induction false} OccurrenceBeforeEscaping(v: string, i: nat) returns (j: nat)
    requires OccursAt(Escape(v), NAME, i)
    ensures j <= |v| && OccursAt(v, NAME, j)
    decreases |v|
  {
    var head := if v[0] in SPECIAL then ['\\', v[0]] else [v[0]];
    assert Escape(v) == head + Escape(v[1..]);
    if i >= |head| {
      assert Escape(v)[i..] == Escape(v[1..])[i - |head|..];
      var k := OccurrenceBeforeEscaping(v[1..], i - |head|);
      assert v[k + 1..] == v[1..][k..];
      j := k + 1;
    } else {
      assert Escape(v)[i] == NAME[0];
      assert i == 0;
      PlainPrefixSurvives(v, NAME);
      j := 0;
    }
  }

  lemma {:induction false} PlainPrefixSurvives(v: string, p: string)
    requires p <= Escape(v) && forall c :: c in p ==> c !in SPECIAL
    ensures p <= v
  {
    if p != "" {
      assert '\\' == SPECIAL[0] && p[0] in p;
      assert p[0] == Escape(v)[0];
      assert p[1..] <= Escape(v)[1..];
      assert v[0] !in SPECIAL;
      assert Escape(v)[1..] == Escape(v[1..]);
      PlainPrefixSurvives(v[1..], p[1..]);
    }
  }

  lemma ExactKeepsOut(key: string, value: string)
    requires !Contains(key, NAME) && !Contains(value, NAME)
    ensures !Contains(ExactMatcher(key, value), NAME)
  {
    ContainsSplit(value, '"', "", NAME);
    ContainsSplit("", '"', value + ['"'] + "", NAME);
    ContainsSplit(key, '=', "" + ['"'] + (value + ['"'] + ""), NAME);
    assert key + ['='] + ("" + ['"'] + (value + ['"'] + "")) == ExactMatcher(key, value);
  }

  lemma RegexKeepsOut(key: string, values: seq<string>)
    requires !Contains(key, NAME) && forall i :: 0 <= i < |values| ==> !Contains(values[i], NAME)
    ensures !Contains(RegexMatcher(key, values), NAME)
  {
    forall i | 0 <= i < |values| ensures !Contains(EscapeAll(values)[i], NAME) {
      EscapeKeepsOut(values[i]);
    }
    ContainsJoin(EscapeAll(values), '|', NAME);
    var p := Alternation(values);
    ContainsSplit(p, '"', "", NAME);
    ContainsSplit("~", '"', p + ['"'] + "", NAME);
    ContainsSplit(key, '=', "~" + ['"'] + (p + ['"'] + ""), NAME);
    assert key + ['='] + ("~" + ['"'] + (p + ['"'] + "")) == RegexMatcher(key, values);
  }
}
