/** What it means to split a metric's series, and how appended matchers cut them. */
module Splitting {
  import opened Strings
  import Matchers
  import opened Selectors
  import opened BinPacking
  import opened Collections
  import opened Discovery

  datatype SelectorInfo = SelectorInfo(selector: string, estSeriesCount: int)

  /** One call of the splitter: the database in the task's time range, the metric and the settings. */
  datatype Job = Job(db: Db, metric: string, maxSeries: int, maxRegexValues: int, excluded: set<string>)

  /** The series a metric has under a base selector. */
  function Matching(job: Job, base: string): set<Series> {
    Found(job.db, BuildMatch(job.metric, base))
  }

  function OfMetric(job: Job): set<Series> {
    WithValue(job.db.series, NAME, job.metric)
  }

  // ---------- what the selector text can carry ----------

  predicate Quotable(v: string) {
    '"' !in v && !Contains(v, NAME)
  }

  /** The label may be printed in a matcher with this value for every series of the metric. */
  predicate PrintableLabel(job: Job, s: Series, key: string)
    requires key in s
  {
    && IsLabel(key) && !Contains(key, NAME) && Quotable(s[key])
    && ('\\' in s[key] ==> |WithValue(OfMetric(job), key, s[key])| <= job.maxSeries)
  }

  /**
   * Label values the printed selectors can express: no quote, no "__name__", and no backslash in a
   * value so frequent that it gets an exact matcher of its own; and no label with more values than a
   * distribution lists.
   */
  ghost predicate Printable(job: Job) {
    && Faithful(job.db)
    && NAME in job.excluded && '"' !in job.metric && '\\' !in job.metric && job.metric != ""
    && (forall s, key :: s in job.db.series && key in s ==> s[key] != "")
    && (forall key :: key !in job.excluded ==> |ValuesOf(OfMetric(job), key)| <= TOP_N)
    && forall s, key :: s in OfMetric(job) && key in s && key !in job.excluded ==> PrintableLabel(job, s, key)
  }

  // ---------- the result ----------

  function Parts(db: Db, sels: seq<SelectorInfo>): (parts: seq<set<Series>>)
    ensures |parts| == |sels| && forall i :: 0 <= i < |sels| ==> parts[i] == Found(db, sels[i].selector)
  {
    seq(|sels|, i requires 0 <= i < |sels| => Found(db, sels[i].selector))
  }

  /** All the series agree on a label: the same value, or absent from all of them. */
  ghost predicate Agree(found: set<Series>, key: string) {
    forall s, t :: s in found && t in found ==> Get(s, key) == Get(t, key)
  }

  /** No label that may be split by tells the series apart. */
  ghost predicate Indivisible(found: set<Series>, excluded: set<string>) {
    forall key :: key !in excluded ==> Agree(found, key)
  }

  /** No label that may be split by tells the two series apart. */
  ghost predicate Alike(s: Series, t: Series, excluded: set<string>) {
    forall key :: key !in excluded ==> Get(s, key) == Get(t, key)
  }

  /** Series that are alike stay in the same part. */
  ghost predicate KeepsTogether(parts: seq<set<Series>>, whole: set<Series>, excluded: set<string>) {
    forall i, s, t :: 0 <= i < |parts| && s in parts[i] && t in whole && Alike(s, t, excluded) ==> t in parts[i]
  }

  /** The estimate is the true count, and the count is within the limit unless nothing can be split. */
  ghost predicate Sound(job: Job, sel: SelectorInfo) {
    var found := Found(job.db, sel.selector);
    && sel.estSeriesCount == |found|
    && (|found| <= job.maxSeries || Indivisible(found, job.excluded))
  }

  ghost predicate IsSplit(job: Job, whole: set<Series>, sels: seq<SelectorInfo>) {
    var parts := Parts(job.db, sels);
    && IsPartition(parts, whole) && KeepsTogether(parts, whole, job.excluded)
    && forall i :: 0 <= i < |sels| ==> Sound(job, sels[i])
  }

  lemma SplitOfOne(job: Job, sel: SelectorInfo)
    requires Sound(job, sel)
    ensures IsSplit(job, Found(job.db, sel.selector), [sel])
  {
    PartitionOfOne(Found(job.db, sel.selector));
    assert Parts(job.db, [sel]) == [Found(job.db, sel.selector)];
  }

  /** Two sets of series that a label tells apart are split one after the other. */
  lemma SplitAppend(job: Job, a: set<Series>, b: set<Series>, key: string, x: seq<SelectorInfo>, y: seq<SelectorInfo>)
    requires IsSplit(job, a, x) && IsSplit(job, b, y) && key !in job.excluded
    requires forall s, t :: s in a && t in b ==> Get(s, key) != Get(t, key)
    ensures IsSplit(job, a + b, x + y)
  {
    var p, q := Parts(job.db, x), Parts(job.db, y);
    PartitionAppend(p, q, a, b);
    assert Parts(job.db, x + y) == p + q;
    TogetherAppend(p, q, a, b, key, job.excluded);
  }

  lemma TogetherAppend(p: seq<set<Series>>, q: seq<set<Series>>, a: set<Series>, b: set<Series>, key: string,
                       excluded: set<string>)
    requires KeepsTogether(p, a, excluded) && KeepsTogether(q, b, excluded) && key !in excluded
    requires forall s, t :: s in a && t in b ==> Get(s, key) != Get(t, key)
    requires (forall i :: 0 <= i < |p| ==> p[i] <= a) && (forall i :: 0 <= i < |q| ==> q[i] <= b)
    ensures KeepsTogether(p + q, a + b, excluded)
  {
    forall i, s, t | 0 <= i < |p + q| && s in (p + q)[i] && t in a + b && Alike(s, t, excluded)
      ensures t in (p + q)[i]
    {
      assert Get(s, key) == Get(t, key);
      if i < |p| {
        assert s in p[i];
      } else {
        assert s in q[i - |p|];
      }
    }
  }

  function TotalCount(sels: seq<SelectorInfo>): int {
    if sels == [] then 0 else sels[0].estSeriesCount + TotalCount(sels[1..])
  }

  /** Every piece selects something. */
  ghost predicate NonEmpty(job: Job, sels: seq<SelectorInfo>) {
    forall i :: 0 <= i < |sels| ==> Found(job.db, sels[i].selector) != {}
  }

  lemma NonEmptyAppend(job: Job, x: seq<SelectorInfo>, y: seq<SelectorInfo>)
    requires NonEmpty(job, x) && NonEmpty(job, y)
    ensures NonEmpty(job, x + y)
  {
  }

  lemma {:induction false} PartsAreFew<T>(parts: seq<set<T>>)
    requires forall i :: 0 <= i < |parts| ==> parts[i] != {}
    ensures |parts| <= TotalSize(parts)
  {
    if parts != [] {
      PartsAreFew(parts[1..]);
    }
  }

  /** A split into pieces that select something has at most as many pieces as there are series. */
  lemma PiecesAreFew(job: Job, whole: set<Series>, sels: seq<SelectorInfo>)
    requires IsSplit(job, whole, sels) && NonEmpty(job, sels)
    ensures |sels| <= |whole|
  {
    PartsAreFew(Parts(job.db, sels));
    PartitionSize(Parts(job.db, sels), whole);
  }

  /** The estimates add up to the number of series that were split. */
  lemma SplitCounts(job: Job, whole: set<Series>, sels: seq<SelectorInfo>)
    requires IsSplit(job, whole, sels)
    ensures TotalCount(sels) == |whole|
  {
    PartitionSize(Parts(job.db, sels), whole);
    CountsAreSizes(job, sels);
  }

  lemma {:induction false} CountsAreSizes(job: Job, sels: seq<SelectorInfo>)
    requires forall i :: 0 <= i < |sels| ==> Sound(job, sels[i])
    ensures TotalCount(sels) == TotalSize(Parts(job.db, sels))
  {
    if sels != [] {
      CountsAreSizes(job, sels[1..]);
      assert Parts(job.db, sels)[1..] == Parts(job.db, sels[1..]);
    }
  }

  lemma SeriesByLabels(job: Job, s: Series, t: Series)
    requires Printable(job) && s in job.db.series && t in job.db.series
    requires forall key :: Get(s, key) == Get(t, key)
    ensures s == t
  {
    forall key ensures key in s <==> key in t {
      assert Get(s, key) == Get(t, key);
    }
    forall key | key in s ensures s[key] == t[key] {
      assert Get(s, key) == Get(t, key);
    }
  }

  /** Series are told apart by their labels, so a split down to the name leaves one series at most. */
  lemma IndivisibleIsSingle(job: Job, found: set<Series>)
    requires Printable(job) && job.excluded == {NAME}
    requires found <= OfMetric(job) && Indivisible(found, job.excluded)
    ensures |found| <= 1
  {
    forall s, t | s in found && t in found ensures s == t {
      forall key ensures Get(s, key) == Get(t, key) {
        if key != NAME {
          assert Agree(found, key);
        }
      }
      SeriesByLabels(job, s, t);
    }
    if found != {} {
      var s :| s in found;
      assert found == {s};
    }
  }

  /**
   * When only the metric name is excluded from splitting, every piece is within the limit, and more
   * series than the limit always break into at least two pieces.
   */
  lemma SplitMeetsTheLimit(job: Job, whole: set<Series>, sels: seq<SelectorInfo>)
    requires Printable(job) && job.excluded == {NAME} && job.maxSeries >= 1
    requires whole <= OfMetric(job) && IsSplit(job, whole, sels)
    ensures forall i :: 0 <= i < |sels| ==> |Found(job.db, sels[i].selector)| <= job.maxSeries
    ensures |whole| > job.maxSeries ==> |sels| >= 2
  {
    forall i | 0 <= i < |sels| ensures |Found(job.db, sels[i].selector)| <= job.maxSeries {
      var part := Parts(job.db, sels)[i];
      assert Sound(job, sels[i]);
      assert part <= whole;
      if |part| > job.maxSeries {
        IndivisibleIsSingle(job, part);
      }
    }
    if |sels| == 1 {
      assert Parts(job.db, sels)[0] == whole;
    } else if |sels| == 0 {
      assert whole == {};
    }
  }

  /** Series that no label tells apart all stay in one piece. */
  lemma PartIsWhole(job: Job, whole: set<Series>, sels: seq<SelectorInfo>, i: nat)
    requires IsSplit(job, whole, sels) && Indivisible(whole, job.excluded)
    requires i < |sels| && Found(job.db, sels[i].selector) != {}
    ensures Found(job.db, sels[i].selector) == whole
  {
    var part := Parts(job.db, sels)[i];
    var s :| s in part;
    assert s in whole;
    forall t | t in whole ensures t in part {
      forall key | key !in job.excluded ensures Get(s, key) == Get(t, key) {
        assert Agree(whole, key);
      }
      assert Alike(s, t, job.excluded);
    }
    assert part <= whole;
  }

  lemma PartIsNotAll(job: Job, whole: set<Series>, sels: seq<SelectorInfo>)
    requires IsSplit(job, whole, sels) && NonEmpty(job, sels) && |sels| >= 2
    ensures Found(job.db, sels[0].selector) != whole
  {
    var parts := Parts(job.db, sels);
    var s :| s in parts[1];
    assert s in whole && parts[0] !! parts[1];
  }

  lemma SomePart(job: Job, whole: set<Series>, sels: seq<SelectorInfo>)
    requires IsSplit(job, whole, sels) && whole != {}
    ensures sels != []
    ensures |sels| == 1 ==> Found(job.db, sels[0].selector) == whole
  {
    var parts := Parts(job.db, sels);
    var s :| s in whole;
    var k :| 0 <= k < |parts| && s in parts[k];
    if |sels| == 1 {
      assert parts[0] == whole;
    }
  }

  /** More series than the limit break into at least two pieces exactly when some label tells them apart. */
  lemma SplitsInTwoIff(job: Job, whole: set<Series>, sels: seq<SelectorInfo>)
    requires IsSplit(job, whole, sels) && NonEmpty(job, sels) && |whole| > job.maxSeries >= 0
    ensures |sels| >= 2 <==> !Indivisible(whole, job.excluded)
  {
    SomePart(job, whole, sels);
    if |sels| >= 2 {
      PartIsNotAll(job, whole, sels);
    } else {
      assert Sound(job, sels[0]);
    }
    if Indivisible(whole, job.excluded) {
      PartIsWhole(job, whole, sels, 0);
    }
  }

  /** The series of a set that no label tells apart from a given one. */
  ghost function Twins(found: set<Series>, s: Series, excluded: set<string>): set<Series> {
    set t | t in found && Alike(s, t, excluded)
  }

  /**
   * With any labels excluded, every piece is within the limit exactly when no series has too many twins:
   * splitting cannot tell them apart, and splits everything else.
   */
  lemma LimitIsMetIff(job: Job, whole: set<Series>, sels: seq<SelectorInfo>)
    requires IsSplit(job, whole, sels) && job.maxSeries >= 0
    ensures (forall i :: 0 <= i < |sels| ==> |Found(job.db, sels[i].selector)| <= job.maxSeries)
       <==> (forall s :: s in whole ==> |Twins(whole, s, job.excluded)| <= job.maxSeries)
  {
    var parts := Parts(job.db, sels);
    if forall i :: 0 <= i < |sels| ==> |Found(job.db, sels[i].selector)| <= job.maxSeries {
      forall s | s in whole ensures |Twins(whole, s, job.excluded)| <= job.maxSeries {
        var i :| 0 <= i < |parts| && s in parts[i];
        SmallerSet(Twins(whole, s, job.excluded), parts[i]);
      }
    } else {
      var i :| 0 <= i < |sels| && |Found(job.db, sels[i].selector)| > job.maxSeries;
      assert Sound(job, sels[i]) && parts[i] != {};
      var s :| s in parts[i];
      forall t | t in parts[i] ensures t in Twins(whole, s, job.excluded) {
        forall key | key !in job.excluded ensures Get(s, key) == Get(t, key) {
          assert Agree(parts[i], key);
        }
      }
      SmallerSet(parts[i], Twins(whole, s, job.excluded));
    }
  }

  /** Two series of one metric that only the label "b" tells apart. */
  const FIRST: Series := map[NAME := "m", "b" := "1"]
  const SECOND: Series := map[NAME := "m", "b" := "2"]

  /** Splitting them with a limit of one, while "b" must not be split by. */
  function ExcludedLabelJob(other: Reader): Job {
    Job(Db({FIRST, SECOND}, other, (text, s) => Selects(other, text, s)), "m", 1, 1, {NAME, "b"})
  }

  lemma ExcludedLabelJobIsPrintable(other: Reader)
    ensures Printable(ExcludedLabelJob(other)) && WellFormed("")
  {
    assert !Contains("", NAME);
    var job := ExcludedLabelJob(other);
    assert OfMetric(job) == {FIRST, SECOND};
    forall key | key !in job.excluded ensures |ValuesOf(OfMetric(job), key)| <= TOP_N {
      assert ValuesOf(OfMetric(job), key) == {};
    }
  }

  lemma BothMatch(other: Reader)
    ensures Matching(ExcludedLabelJob(other), "") == {FIRST, SECOND}
  {
    var job := ExcludedLabelJob(other);
    forall s | s in {FIRST, SECOND} ensures s in Matching(job, "") {
      BuildMatchMeans(other, "m", "", s);
      assert Matchers.Split("") == [];
    }
  }

  lemma TheyAreTwins()
    ensures Twins({FIRST, SECOND}, FIRST, {NAME, "b"}) == {FIRST, SECOND} && |{FIRST, SECOND}| == 2
  {
    assert FIRST["b"] != SECOND["b"];
    forall key | key !in {NAME, "b"} ensures Get(SECOND, key) == Get(FIRST, key) {
    }
  }

  /** The documented limit is missed: any split of this job has a piece of more than one series. */
  lemma LimitCanBeMissed(other: Reader, sels: seq<SelectorInfo>)
    ensures var job := ExcludedLabelJob(other);
            && Printable(job) && WellFormed("") && Matching(job, "") == {FIRST, SECOND}
            && (IsSplit(job, Matching(job, ""), sels) ==>
                  exists i :: 0 <= i < |sels| && |Found(job.db, sels[i].selector)| > job.maxSeries)
  {
    var job := ExcludedLabelJob(other);
    ExcludedLabelJobIsPrintable(other);
    BothMatch(other);
    TheyAreTwins();
    if IsSplit(job, Matching(job, ""), sels) {
      LimitIsMetIff(job, Matching(job, ""), sels);
      assert FIRST in Matching(job, "");
    }
  }

  // ---------- how a matcher cuts the series ----------

  lemma MatchingIsOfMetric(job: Job, base: string)
    requires WellFormed(base) && Printable(job)
    ensures Matching(job, base) <= OfMetric(job)
  {
    forall s | s in Matching(job, base) ensures s in OfMetric(job) {
      BuildMatchMeans(job.db.other, job.metric, base, s);
    }
  }

  lemma ExactCutsSeries(job: Job, base: string, key: string, value: string, s: Series)
    requires WellFormed(base) && Printable(job)
    requires IsLabel(key) && !Contains(key, NAME) && Quotable(value) && '\\' !in value
    ensures s in Matching(job, AppendExactSelector(base, key, value))
       <==> s in Matching(job, base) && Get(s, key) == value
  {
    ExactMatcherReads(key, value);
    ExactKeepsOut(key, value);
    AppendMeans(job.db.other, job.metric, base, ExactMatcher(key, value), s);
  }

  /** label="value" keeps the series with that value; label="" keeps the series without the label. */
  lemma ExactCuts(job: Job, base: string, key: string, value: string)
    requires WellFormed(base) && Printable(job)
    requires IsLabel(key) && !Contains(key, NAME) && Quotable(value) && '\\' !in value
    ensures var sub := AppendExactSelector(base, key, value);
            WellFormed(sub) && Matching(job, sub) == WithValue(Matching(job, base), key, value)
  {
    ExactMatcherReads(key, value);
    ExactKeepsOut(key, value);
    JoinSelectorIsWellFormed(base, ExactMatcher(key, value));
    forall s
      ensures s in Matching(job, AppendExactSelector(base, key, value))
         <==> s in WithValue(Matching(job, base), key, value)
    {
      ExactCutsSeries(job, base, key, value, s);
    }
  }

  lemma EmptyLabelCuts(job: Job, base: string, key: string)
    requires WellFormed(base) && Printable(job) && IsLabel(key) && !Contains(key, NAME)
    ensures var sub := AppendEmptyLabelSelector(base, key);
            WellFormed(sub) && Matching(job, sub) == WithValue(Matching(job, base), key, "")
  {
    assert Quotable("");
    assert AppendEmptyLabelSelector(base, key) == AppendExactSelector(base, key, "") by {
      assert key + "=\"\"" == ExactMatcher(key, "");
    }
    ExactCuts(job, base, key, "");
  }

  function WithValues(found: set<Series>, key: string, values: seq<string>): set<Series> {
    set s | s in found && Get(s, key) in values
  }

  /** label=~"a|b|c" keeps the series whose value is in the list. */
  lemma RegexCuts(job: Job, base: string, key: string, values: seq<string>)
    requires WellFormed(base) && Printable(job) && values != []
    requires IsLabel(key) && !Contains(key, NAME) && forall v :: v in values ==> Quotable(v)
    ensures Matching(job, JoinSelector(base, RegexMatcher(key, values))) == WithValues(Matching(job, base), key, values)
  {
    var m := RegexMatcher(key, values);
    assert forall i :: 0 <= i < |values| ==> values[i] in values;
    RegexMatcherReads(key, values);
    RegexKeepsOut(key, values);
    forall s ensures s in Matching(job, JoinSelector(base, m)) <==> s in WithValues(Matching(job, base), key, values) {
      AppendMeans(job.db.other, job.metric, base, m, s);
      RegexMatcherHolds(job.db.other, key, values, s);
    }
  }

  // ---------- distributions and the packed values ----------

  /** A list of entries of the distribution without repetition, and the series it accounts for. */
  lemma {:induction false} CountOfValues(found: set<Series>, key: string, dist: Group, g: Group)
    requires Lists(found, key, dist)
    requires NoDuplicates(Names(g)) && forall x :: x in g ==> x in dist
    ensures |WithValues(found, key, Names(g))| == Sum(g)
  {
    if g == [] {
      assert WithValues(found, key, Names(g)) == {};
    } else {
      var rest := g[1..];
      var name := g[0].name;
      assert Names(g) == [name] + Names(rest);
      assert forall i :: 0 <= i < |rest| ==> Names(rest)[i] == Names(g)[i + 1];
      assert g[0] in g;
      var i :| 0 <= i < |dist| && dist[i] == g[0];
      CountOfValues(found, key, dist, rest);
      ConsValues(found, key, name, Names(rest));
    }
  }

  lemma ConsValues(found: set<Series>, key: string, name: string, names: seq<string>)
    requires name !in names
    ensures |WithValues(found, key, [name] + names)| == |WithValue(found, key, name)| + |WithValues(found, key, names)|
  {
    var first, others := WithValue(found, key, name), WithValues(found, key, names);
    assert WithValues(found, key, [name] + names) == first + others;
    assert first !! others;
  }

  lemma {:induction false} AllPositive(dist: Group)
    requires forall i :: 0 <= i < |dist| ==> dist[i].value > 0
    ensures Positive(dist) == dist
  {
    if dist != [] {
      AllPositive(dist[1..]);
    }
  }

  lemma DistributionIsPositive(found: set<Series>, key: string, dist: Group)
    requires Lists(found, key, dist)
    ensures Positive(dist) == dist
  {
    forall i | 0 <= i < |dist| ensures dist[i].value > 0 {
      var s :| s in found && Get(s, key) == dist[i].name;
      assert s in WithValue(found, key, dist[i].name);
    }
    AllPositive(dist);
  }

  /**
   * A level of the splitter covers its series, by the listed values and the remainder, exactly when the label
   * has no more values than a distribution lists.
   */
  lemma CapLosesSeriesIff(found: set<Series>, key: string, dist: Group)
    requires IsTop(found, key, dist)
    ensures WithValues(found, key, Names(dist)) + WithValue(found, key, "") == found
       <==> |ValuesOf(found, key)| <= 100000
  {
    var covered := WithValues(found, key, Names(dist)) + WithValue(found, key, "");
    CapIsHarmlessIff(found, key, dist);
    ListedAreValues(found, key, dist);
    if covered == found {
      forall v | v in ValuesOf(found, key) ensures v in Elements(Names(dist)) {
        var s :| s in found && Get(s, key) == v;
        assert s in covered;
      }
    }
    if Elements(Names(dist)) == ValuesOf(found, key) {
      forall s | s in found ensures s in covered {
        assert Get(s, key) != "" ==> Get(s, key) in ValuesOf(found, key);
      }
    }
  }

  /** A permutation of a distribution has the same entries, each name once. */
  lemma PermutedNames(all: Group, dist: Group)
    requires multiset(all) == multiset(dist) && NoDuplicates(Names(dist))
    ensures NoDuplicates(Names(all))
    ensures forall x :: x in all <==> x in dist
    ensures forall v :: v in Names(all) <==> v in Names(dist)
  {
    forall x ensures x in all <==> x in dist {
      assert x in multiset(all) <==> x in multiset(dist);
    }
    forall i, j | 0 <= i < j < |all| ensures Names(all)[i] != Names(all)[j] {
      if all[i].name == all[j].name {
        assert all[i] in dist && all[j] in dist;
        var p :| 0 <= p < |dist| && dist[p] == all[i];
        var q :| 0 <= q < |dist| && dist[q] == all[j];
        assert Names(dist)[p] == Names(dist)[q];
        OccursTwice(all, i, j);
        OccursOnce(dist, p);
        assert false;
      }
    }
    NamesOfEntries(all);
    NamesOfEntries(dist);
  }

  lemma NamesOfEntries(g: Group)
    ensures forall v :: v in Names(g) <==> exists x :: x in g && x.name == v
  {
    forall v | v in Names(g) ensures exists x :: x in g && x.name == v {
      var i :| 0 <= i < |Names(g)| && Names(g)[i] == v;
      assert g[i] in g;
    }
    forall x | x in g ensures x.name in Names(g) {
      var i :| 0 <= i < |g| && g[i] == x;
      assert Names(g)[i] == x.name;
    }
  }

  lemma OccursTwice<T>(s: seq<T>, i: nat, j: nat)
    requires i < j < |s| && s[i] == s[j]
    ensures multiset(s)[s[i]] >= 2
  {
    assert s == s[..j] + s[j..];
    assert s[..j][i] in multiset(s[..j]) && s[j..][0] in multiset(s[j..]);
  }

  lemma CountAround<T>(a: seq<T>, x: T, b: seq<T>)
    requires x !in a && x !in b
    ensures multiset(a + [x] + b)[x] == 1
  {
    assert x !in multiset(a) && x !in multiset(b);
  }

  lemma OccursOnce(dist: Group, p: nat)
    requires p < |dist| && NoDuplicates(Names(dist))
    ensures multiset(dist)[dist[p]] == 1
  {
    var x, a, b := dist[p], dist[..p], dist[p + 1..];
    forall i | 0 <= i < |a| ensures a[i] != x {
      assert Names(dist)[i] != Names(dist)[p];
    }
    forall i | 0 <= i < |b| ensures b[i] != x {
      assert Names(dist)[p] != Names(dist)[p + 1 + i];
    }
    CountAround(a, x, b);
    assert dist == a + [x] + b;
  }

  /** Extending the values already handled by a chunk that is itself split. */
  lemma Extend(job: Job, found: set<Series>, key: string, taken: Group, chunk: Group,
               sels: seq<SelectorInfo>, more: seq<SelectorInfo>)
    requires NoDuplicates(Names(taken + chunk)) && key !in job.excluded
    requires IsSplit(job, WithValues(found, key, Names(taken)), sels)
    requires IsSplit(job, WithValues(found, key, Names(chunk)), more)
    ensures IsSplit(job, WithValues(found, key, Names(taken + chunk)), sels + more)
  {
    var names := Names(taken + chunk);
    assert names == Names(taken) + Names(chunk);
    var a, b := WithValues(found, key, Names(taken)), WithValues(found, key, Names(chunk));
    forall v | v in Names(taken) ensures v !in Names(chunk) {
      var i :| 0 <= i < |taken| && Names(taken)[i] == v;
      assert forall j :: 0 <= j < |chunk| ==> Names(chunk)[j] == names[|taken| + j] != names[i];
    }
    assert WithValues(found, key, names) == a + b;
    SplitAppend(job, a, b, key, sels, more);
  }
}
