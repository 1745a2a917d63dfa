/** What the ranges take up, compared with what the configuration asks for. */
module Scope {
  import opened Strings
  import Matchers
  import opened Selectors
  import opened Regexes
  import opened Filters
  import opened Discovery
  import opened TimeRanges
  import opened Protocol
  import opened Coverage

  /** What the configuration asks for: the samples in the interval that the filter selects, metric not excluded. */
  predicate Wanted(c: Config, start: int, end: int, p: Sample) {
    && p in c.source.samples && start <= p.at < end
    && Selects(c.source.other, c.filter, p.series) && MetricOf(p) != "" && c.keepMetric(MetricOf(p))
  }

  /** A series of a kept metric on which the base selector holds. */
  predicate Candidate(c: Config, s: Series) {
    Get(s, NAME) != "" && c.keepMetric(Get(s, NAME)) && AllHold(c.source.other, Matchers.Split(BaseSelector(c)), s)
  }

  /** The matchers that the base selector drops do not tell candidates of one metric apart. */
  ghost predicate NameDecides(c: Config) {
    forall s, t :: (Candidate(c, s) && Candidate(c, t) && Get(s, NAME) == Get(t, NAME)
                    && NameMatchersHold(c.source.other, c.filter, s)) ==> NameMatchersHold(c.source.other, c.filter, t)
  }

  lemma WantedMeans(c: Config, start: int, end: int, p: Sample)
    requires PlainFilter(c.filter)
    ensures Wanted(c, start, end, p) <==>
            && p in c.source.samples && start <= p.at < end && Candidate(c, p.series)
            && NameMatchersHold(c.source.other, c.filter, p.series)
  {
    FilterMeans(c.source.other, c.filter, p.series);
  }

  lemma WantedIsInRange(c: Config, r: TimeRange, p: Sample)
    requires PlainFilter(c.filter) && Wanted(c, r.start, r.end, p)
    ensures InRange(c, r, p)
  {
    WantedMeans(c, r.start, r.end, p);
    assert p.series in Window(c.source, r.start, r.end).series;
    assert MetricOf(p) in Metrics(c, r);
  }

  /** A sample is taken up when some sample of its metric is wanted and the base selector holds on it. */
  lemma InRangeMeans(c: Config, r: TimeRange, p: Sample) returns (q: Sample)
    requires PlainFilter(c.filter) && InRange(c, r, p)
    ensures Wanted(c, r.start, r.end, q) && MetricOf(q) == MetricOf(p) && Candidate(c, p.series)
  {
    var s :| s in Window(c.source, r.start, r.end).series && Selects(c.source.other, c.filter, s)
             && Get(s, NAME) == MetricOf(p) && MetricOf(p) != "" && c.keepMetric(MetricOf(p));
    q :| q in c.source.samples && r.start <= q.at < r.end && q.series == s;
  }

  /** A sample the filter rejects is taken up together with a wanted one of its metric. */
  lemma UnwantedIsTakenUp(c: Config, r: TimeRange, p: Sample, q: Sample)
    requires PlainFilter(c.filter) && Wanted(c, r.start, r.end, p)
    requires q in c.source.samples && Within(q.at, r) && MetricOf(q) == MetricOf(p) && Candidate(c, q.series)
    requires !NameMatchersHold(c.source.other, c.filter, q.series)
    ensures InRange(c, r, q) && !Wanted(c, r.start, r.end, q)
  {
    WantedIsInRange(c, r, p);
    WantedMeans(c, r.start, r.end, q);
  }

  ghost predicate TakesUpOnlyWanted(c: Config, r: TimeRange) {
    forall p :: InRange(c, r, p) ==> Wanted(c, r.start, r.end, p)
  }

  lemma NameDecidesSuffices(c: Config, r: TimeRange)
    requires PlainFilter(c.filter) && NameDecides(c)
    ensures TakesUpOnlyWanted(c, r)
  {
    forall p | InRange(c, r, p) ensures Wanted(c, r.start, r.end, p) {
      var q := InRangeMeans(c, r, p);
      WantedMeans(c, r.start, r.end, q);
      WantedMeans(c, r.start, r.end, p);
    }
  }

  /** Two series that the dropped matchers tell apart, as a source of two samples. */
  lemma NameDecidesIsNeeded(c: Config, r: TimeRange, s: Series, t: Series) returns (src: Source)
    requires PlainFilter(c.filter) && r.start < r.end
    requires Candidate(c, s) && Candidate(c, t) && Get(s, NAME) == Get(t, NAME)
    requires NameMatchersHold(c.source.other, c.filter, s) && !NameMatchersHold(c.source.other, c.filter, t)
    ensures src.other == c.source.other && !TakesUpOnlyWanted(c.(source := src), r)
  {
    var p, q := Sample(s, r.start), Sample(t, r.start);
    src := Source({p, q}, c.source.other);
    var d := c.(source := src);
    WantedMeans(d, r.start, r.end, p);
    UnwantedIsTakenUp(d, r, p, q);
  }

  /**
   * A range takes up nothing but wanted samples, whatever the source holds, exactly when the dropped
   * matchers do not tell candidates of one metric apart.
   */
  lemma OnlyWantedIff(c: Config, r: TimeRange)
    requires PlainFilter(c.filter) && r.start < r.end
    ensures NameDecides(c) <==>
            forall src: Source :: src.other == c.source.other ==> TakesUpOnlyWanted(c.(source := src), r)
  {
    if NameDecides(c) {
      forall src: Source | src.other == c.source.other ensures TakesUpOnlyWanted(c.(source := src), r) {
        SameDecision(c, c.(source := src));
        NameDecidesSuffices(c.(source := src), r);
      }
    } else {
      var s, t :| Candidate(c, s) && Candidate(c, t) && Get(s, NAME) == Get(t, NAME)
                  && NameMatchersHold(c.source.other, c.filter, s) && !NameMatchersHold(c.source.other, c.filter, t);
      var src := NameDecidesIsNeeded(c, r, s, t);
      assert !TakesUpOnlyWanted(c.(source := src), r);
    }
  }

  /** Whether the name decides depends on the filter, the kept metrics and the reader only. */
  lemma SameDecision(c: Config, d: Config)
    requires NameDecides(c) && d.filter == c.filter && d.keepMetric == c.keepMetric && d.source.other == c.source.other
    ensures NameDecides(d)
  {
    forall s ensures Candidate(d, s) <==> Candidate(c, s) {
    }
  }

  // ---------- a check on the text of the filter ----------

  /** Every dropped matcher is one on the metric name itself, with any operator. */
  predicate NamesOnly(filter: string) {
    forall p :: p in Matchers.Split(Body(filter)) && NAME <= TrimSpace(p) ==>
      Parse(TrimSpace(p)).Some? && Parse(TrimSpace(p)).value.key == NAME
  }

  lemma NamesOnlyDecides(c: Config)
    requires NamesOnly(c.filter)
    ensures NameDecides(c)
  {
    forall s, t | Get(s, NAME) == Get(t, NAME) && NameMatchersHold(c.source.other, c.filter, s)
      ensures NameMatchersHold(c.source.other, c.filter, t)
    {
      forall p | p in Matchers.Split(Body(c.filter)) && NAME <= TrimSpace(p)
        ensures Holds(c.source.other, TrimSpace(p), t)
      {
        assert Holds(c.source.other, TrimSpace(p), s);
      }
    }
  }

  /** A filter of one matcher. */
  lemma OneMatcherFilter(m: string)
    requires IsMatcher(m)
    ensures Matchers.Split(Body(Braced(m))) == [m] && TrimSpace(m) == m
  {
    BodyOfBraced(m);
    Matchers.SplitOfBalanced(m);
    TrimmedIsFixed(m);
  }

  lemma MatcherOn(key: string, op: string, quoted: string)
    requires IsLabel(key) && op in ["=", "!=", "=~", "!~"] && IsQuoted(quoted)
    ensures var m := key + (op + quoted); Parse(m).Some? && Parse(m).value.key == key && IsMatcher(m)
  {
    ParseOf(key, op, quoted);
    ParsedIsMatcher(key + (op + quoted));
  }

  /** A filter of one matcher on a label that starts with "__name__". */
  lemma OneDroppedMatcher(key: string, op: string, quoted: string)
    requires IsLabel(key) && NAME <= key && op in ["=", "!=", "=~", "!~"] && IsQuoted(quoted)
    ensures var m := key + (op + quoted);
            && Parse(m).Some? && Parse(m).value.key == key
            && Matchers.Split(Body(Braced(m))) == [m] && TrimSpace(m) == m && NAME <= m
  {
    MatcherOn(key, op, quoted);
    OneMatcherFilter(key + (op + quoted));
  }

  /** It passes the check exactly when its label is the name, whatever its operator and pattern. */
  lemma NamesOnlyIffNameLabel(key: string, op: string, quoted: string)
    requires IsLabel(key) && NAME <= key && op in ["=", "!=", "=~", "!~"] && IsQuoted(quoted)
    ensures PlainFilter(Braced(key + (op + quoted)))
    ensures NamesOnly(Braced(key + (op + quoted))) <==> key == NAME
  {
    OneDroppedMatcher(key, op, quoted);
    ChecksOneMatcher(Braced(key + (op + quoted)), key + (op + quoted));
  }

  lemma ChecksOneMatcher(filter: string, m: string)
    requires Matchers.Split(Body(filter)) == [m] && TrimSpace(m) == m && NAME <= m && Parse(m).Some?
    ensures PlainFilter(filter) && (NamesOnly(filter) <==> Parse(m).value.key == NAME)
  {
    assert m in Matchers.Split(Body(filter));
  }

  // ---------- the check is as weak as it can be ----------

  predicate SelectsSeries(c: Config, s: Series) {
    Candidate(c, s) && NameMatchersHold(c.source.other, c.filter, s)
  }

  /** Some source could hold a series that the configuration asks for. */
  ghost predicate Satisfiable(c: Config) {
    exists src: Source, s: Series :: SelectsSeries(c.(source := src), s)
  }

  lemma {:induction false} LabelAtLeast(m: string, k: nat)
    requires k <= |m| && forall i :: 0 <= i < k ==> IsLabelChar(m[i])
    ensures LabelLength(m) >= k
  {
    if k > 0 {
      LabelAtLeast(m[1..], k - 1);
    }
  }

  lemma NameIsLabel()
    ensures forall i :: 0 <= i < |NAME| ==> IsLabelChar(NAME[i])
  {
  }

  /** The label of a matcher is what the matcher's text starts with. */
  lemma KeyLeads(m: string)
    requires Parse(m).Some?
    ensures Parse(m).value.key <= m
    ensures NAME <= m ==> NAME <= Parse(m).value.key
  {
    assert Parse(m).value.key == m[..LabelLength(m)];
    if NAME <= m {
      NameIsLabel();
      assert forall i :: 0 <= i < |NAME| ==> m[i] == NAME[i];
      LabelAtLeast(m, |NAME|);
    }
  }

  /** Text at least as long as every value for which an interpreted matcher holds. */
  function Longest(m: Matcher): string {
    match m
    case Exact(_, value) => value
    case Regex(_, pattern) => pattern
    case Other(_) => ""
  }

  /** The same reader, but one matcher does not hold of one value. */
  function Refusing(other: Reader, m: string, v: string): Reader {
    (n, x) => other(n, x) && (n != m || x != v)
  }

  /** A matcher with another text on another label, or of another value, does not notice. */
  lemma HoldsElsewhere(other: Reader, m: string, v: string, n: string, s: Series)
    requires Parse(m).Some? && Get(s, Parse(m).value.key) != v && Parse(n).Some?
    ensures Holds(Refusing(other, m, v), n, s) <==> Holds(other, n, s)
  {
  }

  lemma BaseKeepsHolding(other: Reader, m: string, v: string, n: string, s: Series)
    requires NAME <= m && Parse(m).Some? && Parse(n).Some? && !(NAME <= n)
    ensures Holds(Refusing(other, m, v), n, s[Parse(m).value.key := v]) <==> Holds(other, n, s)
  {
    KeyLeads(m);
    KeyLeads(n);
  }

  lemma BaseHolds(c: Config, m: string, v: string, s: Series)
    requires PlainFilter(c.filter) && NAME <= m && Parse(m).Some?
    requires Get(s, Parse(m).value.key) != v
    requires AllHold(c.source.other, Matchers.Split(BaseSelector(c)), s)
    ensures var refusing, t := Refusing(c.source.other, m, v), s[Parse(m).value.key := v];
            && AllHold(refusing, Matchers.Split(BaseSelector(c)), s)
            && AllHold(refusing, Matchers.Split(BaseSelector(c)), t)
  {
    var ms, refusing, t := BaseMatchers(c.filter), Refusing(c.source.other, m, v), s[Parse(m).value.key := v];
    SplitOfBase(c.filter);
    KeptAreTrimmed(Matchers.Split(Body(c.filter)));
    KeptParse(Matchers.Split(Body(c.filter)));
    forall i | 0 <= i < |ms| ensures PieceHolds(refusing, ms[i], s) && PieceHolds(refusing, ms[i], t) {
      assert ms[i] in ms && PieceHolds(c.source.other, ms[i], s);
      TrimmedIsFixed(ms[i]);
      HoldsElsewhere(c.source.other, m, v, ms[i], s);
      BaseKeepsHolding(c.source.other, m, v, ms[i], s);
    }
  }

  lemma NamesHold(c: Config, m: string, v: string, s: Series)
    requires PlainFilter(c.filter) && Parse(m).Some? && Get(s, Parse(m).value.key) != v
    requires NameMatchersHold(c.source.other, c.filter, s)
    ensures NameMatchersHold(Refusing(c.source.other, m, v), c.filter, s)
  {
    forall p | p in Matchers.Split(Body(c.filter)) && NAME <= TrimSpace(p)
      ensures Holds(Refusing(c.source.other, m, v), TrimSpace(p), s)
    {
      HoldsElsewhere(c.source.other, m, v, TrimSpace(p), s);
    }
  }

  /** A series with a value that a matcher refuses, otherwise the same. */
  lemma RefusedValue(m: string, s: Series) returns (v: string)
    requires Parse(m).Some?
    ensures Get(s, Parse(m).value.key) != v
    ensures forall other: Reader :: !Holds(Refusing(other, m, v), m, s[Parse(m).value.key := v])
  {
    v := Get(s, Parse(m).value.key) + Longest(Parse(m).value) + "x";
    forall other: Reader ensures !Holds(Refusing(other, m, v), m, s[Parse(m).value.key := v]) {
      if Parse(m).value.Regex? && Matches(Parse(m).value.pattern, v) {
        MatchesAreShort(Parse(m).value.pattern, v);
        assert false;
      }
    }
  }

  /** With a reader that refuses the value, the series is selected and its copy with that value is not. */
  lemma RefusingTellsApart(c: Config, m: string, v: string, s: Series)
    requires PlainFilter(c.filter) && SelectsSeries(c, s) && NAME <= m && Parse(m).Some?
    requires Parse(m).value.key != NAME && Get(s, Parse(m).value.key) != v
    ensures var d, t := c.(source := Source({}, Refusing(c.source.other, m, v))), s[Parse(m).value.key := v];
            SelectsSeries(d, s) && Candidate(d, t) && Get(t, NAME) == Get(s, NAME)
  {
    BaseHolds(c, m, v, s);
    NamesHold(c, m, v, s);
  }

  /** A dropped matcher on another label than the name lets some source fool the ranges. */
  lemma OtherLabelMisleads(c: Config, r: TimeRange, s: Series, piece: string) returns (src: Source)
    requires PlainFilter(c.filter) && r.start < r.end && SelectsSeries(c, s)
    requires piece in Matchers.Split(Body(c.filter)) && NAME <= TrimSpace(piece)
    requires Parse(TrimSpace(piece)).Some? && Parse(TrimSpace(piece)).value.key != NAME
    ensures !TakesUpOnlyWanted(c.(source := src), r)
  {
    var m := TrimSpace(piece);
    var v := RefusedValue(m, s);
    var d, t := c.(source := Source({}, Refusing(c.source.other, m, v))), s[Parse(m).value.key := v];
    RefusingTellsApart(c, m, v, s);
    assert !NameMatchersHold(d.source.other, c.filter, t) by {
      assert !Holds(d.source.other, TrimSpace(piece), t);
    }
    src := NameDecidesIsNeeded(d, r, s, t);
    assert d.(source := src) == c.(source := src);
  }

  lemma TakenUpIsSatisfiable(c: Config, src: Source, r: TimeRange, p: Sample)
    requires PlainFilter(c.filter) && InRange(c.(source := src), r, p)
    ensures Satisfiable(c)
  {
    var d := c.(source := src);
    var q := InRangeMeans(d, r, p);
    WantedMeans(d, r.start, r.end, q);
    assert SelectsSeries(c.(source := src), q.series);
  }

  /**
   * The check decides: whatever a source holds and however it reads matchers, a range takes up nothing but
   * wanted samples exactly when every dropped matcher is on the name, or no series can be wanted at all.
   */
  lemma OnlyWantedIffNamesOnly(c: Config, r: TimeRange)
    requires PlainFilter(c.filter) && r.start < r.end
    ensures (forall src: Source :: TakesUpOnlyWanted(c.(source := src), r))
            <==> NamesOnly(c.filter) || !Satisfiable(c)
  {
    if NamesOnly(c.filter) {
      forall src: Source ensures TakesUpOnlyWanted(c.(source := src), r) {
        NamesOnlyDecides(c.(source := src));
        NameDecidesSuffices(c.(source := src), r);
      }
    } else if Satisfiable(c) {
      var piece :| piece in Matchers.Split(Body(c.filter)) && NAME <= TrimSpace(piece)
                   && !(Parse(TrimSpace(piece)).Some? && Parse(TrimSpace(piece)).value.key == NAME);
      var src0: Source, s: Series :| SelectsSeries(c.(source := src0), s);
      var src := OtherLabelMisleads(c.(source := src0), r, s, piece);
      assert !TakesUpOnlyWanted(c.(source := src), r);
    }
    if src: Source :| !TakesUpOnlyWanted(c.(source := src), r) {
      var p :| InRange(c.(source := src), r, p) && !Wanted(c.(source := src), r.start, r.end, p);
      TakenUpIsSatisfiable(c, src, r, p);
    }
  }
}
