/** The recursive splitter: internal/splitter/splitter.go. */
module Splitter {
  import opened Strings
  import opened Selectors
  import opened BinPacking
  import opened Collections
  import opened Discovery
  import opened Splitting
  import opened Scoring
  import opened Plans

  datatype Result<+T> = Success(value: T) | Failure(error: string)

  // ---------- Go slices ----------

  /** A Go slice: a length into a backing array that other slices may share. */
  datatype Slice = Slice(arr: array<string>, len: nat)

  function Items(s: Slice): seq<string>
    requires s.len <= s.arr.Length
    reads s.arr
  {
    s.arr[..s.len]
  }

  /** append(s, x): in place while there is capacity, in a new and larger array otherwise. */
  method Append(s: Slice, x: string) returns (r: Slice)
    requires s.len <= s.arr.Length
    modifies s.arr
    ensures r.len == s.len + 1 <= r.arr.Length
    ensures if s.len < s.arr.Length then r.arr == s.arr else fresh(r.arr)
    ensures Items(r) == old(Items(s)) + [x]
    ensures Items(s) == old(Items(s))
  {
    if s.len < s.arr.Length {
      s.arr[s.len] := x;
      r := Slice(s.arr, s.len + 1);
    } else {
      var grown := new string[2 * s.len + 1](_ => "");
      for i := 0 to s.len
        invariant s.arr[..] == old(s.arr[..])
        invariant grown[..i] == s.arr[..i]
      {
        grown[i] := s.arr[i];
      }
      grown[s.len] := x;
      r := Slice(grown, s.len + 1);
    }
  }

  // ---------- choosing a label ----------

  /** The labels that may still be split by. */
  method FilterLabels(labels: seq<string>, excluded: set<string>, usedLabels: Slice) returns (candidates: seq<string>)
    requires usedLabels.len <= usedLabels.arr.Length
    ensures Elements(candidates) == Elements(labels) - excluded - Elements(Items(usedLabels))
  {
    var used := {};
    for i := 0 to usedLabels.len
      invariant used == Elements(usedLabels.arr[..i])
    {
      used := used + {usedLabels.arr[i]};
      assert usedLabels.arr[..i + 1] == usedLabels.arr[..i] + [usedLabels.arr[i]];
    }
    candidates := [];
    for i := 0 to |labels|
      invariant Elements(candidates) == Elements(labels[..i]) - excluded - used
    {
      assert labels[..i + 1] == labels[..i] + [labels[i]];
      if labels[i] in excluded || labels[i] in used {
        continue;
      }
      ElementsAppend(candidates, [labels[i]]);
      candidates := candidates + [labels[i]];
    }
    assert labels[..|labels|] == labels;
  }

  /** What is known after some candidates: the best so far, or that none has values. */
  ghost predicate Standing(dists: seq<Group>, any: bool, best: nat) {
    if any then IsBest(dists, best) else forall i :: 0 <= i < |dists| ==> dists[i] == []
  }

  lemma StandsWithoutValues(dists: seq<Group>, any: bool, best: nat)
    requires Standing(dists, any, best)
    ensures Standing(dists + [[]], any, best)
  {
    assert forall i :: 0 <= i < |dists| ==> (dists + [[]])[i] == dists[i];
  }

  lemma StandsWithOneMore(dists: seq<Group>, any: bool, best: nat, dist: Group)
    requires Standing(dists, any, best) && dist != []
    ensures !any || Score(dist) > Score(dists[best]) ==> IsBest(dists + [dist], |dists|)
    ensures any && Score(dist) <= Score(dists[best]) ==> IsBest(dists + [dist], best)
  {
    assert forall i :: 0 <= i < |dists| ==> (dists + [dist])[i] == dists[i];
  }

  lemma OneMoreTop(found: set<Series>, candidates: seq<string>, i: nat, dists: seq<Group>, dist: Group)
    requires i < |candidates| && AreTops(found, candidates[..i], dists) && IsTop(found, candidates[i], dist)
    ensures AreTops(found, candidates[..i + 1], dists + [dist])
  {
    assert forall k :: 0 <= k < i ==> (dists + [dist])[k] == dists[k] && candidates[..i + 1][k] == candidates[..i][k];
  }

  /** The candidate with the best score; which one is open when several have it. */
  method FindBestSplitLabel(job: Job, base: string, candidates: seq<string>)
    returns (r: Result<(string, Group)>, ghost dists: seq<Group>, ghost chosen: nat)
    ensures AreTops(Matching(job, base), candidates, dists)
    ensures r.Success? ==> IsBest(dists, chosen) && r.value == (candidates[chosen], dists[chosen])
    ensures r.Failure? ==> forall i :: 0 <= i < |dists| ==> dists[i] == []
  {
    var match_ := BuildMatch(job.metric, base);
    dists, chosen := [], 0;
    var best: seq<(string, Group)>, bestScore := [], 0.0;
    for i := 0 to |candidates|
      invariant AreTops(Found(job.db, match_), candidates[..i], dists) && Standing(dists, best != [], chosen)
      invariant best != [] ==> best == [(candidates[chosen], dists[chosen])] && bestScore == Score(dists[chosen])
    {
      var dist := GetSeriesDistribution(job.db, match_, candidates[i]);
      OneMoreTop(Found(job.db, match_), candidates, i, dists, dist);
      if |dist| == 0 {
        StandsWithoutValues(dists, best != [], chosen);
        dists := dists + [dist];
        continue;
      }
      var score := ScoreLabelDistribution(dist);
      StandsWithOneMore(dists, best != [], chosen, dist);
      if best == [] || score > bestScore {
        best, bestScore, chosen := [(candidates[i], dist)], score, i;
      }
      dists := dists + [dist];
    }
    assert candidates[..|candidates|] == candidates;
    r := if best == [] then Failure("no suitable labels found") else Success(best[0]);
  }

  /** A choice that fails means that no series has any of the candidates. */
  lemma NoChoice(job: Job, base: string, candidates: seq<string>, dists: seq<Group>)
    requires AreTops(Matching(job, base), candidates, dists) && forall i :: 0 <= i < |dists| ==> dists[i] == []
    ensures forall key, s :: key in candidates && s in Matching(job, base) ==> Get(s, key) == ""
  {
    forall key, s | key in candidates && s in Matching(job, base) ensures Get(s, key) == "" {
      var i :| 0 <= i < |candidates| && candidates[i] == key;
      assert IsTop(Matching(job, base), key, dists[i]);
      NoValues(Matching(job, base), key);
    }
  }

  lemma NoValues(found: set<Series>, key: string)
    requires ValuesOf(found, key) == {}
    ensures forall s :: s in found ==> Get(s, key) == ""
  {
    forall s | s in found ensures Get(s, key) != "" ==> Get(s, key) in ValuesOf(found, key) {
    }
  }

  // ---------- the recursion ----------

  /** The selector of one call is printable text on which every used label is settled. */
  ghost predicate Ready(job: Job, base: string, path: seq<string>) {
    WellFormed(base) && Printable(job) && forall key :: key in path ==> Agree(Matching(job, base), key)
  }

  /** A split into pieces that each select something, wherever the call was ready. */
  ghost predicate Covers(job: Job, base: string, path: seq<string>, whole: set<Series>, sels: seq<SelectorInfo>) {
    Ready(job, base, path) ==> IsSplit(job, whole, sels) && NonEmpty(job, sels)
  }

  ghost function AllLabels(job: Job): set<string> {
    LabelsOf(job.db.series)
  }

  ghost function Unused(job: Job, path: seq<string>): nat {
    |AllLabels(job) - Elements(path)|
  }

  lemma UsingALabel(job: Job, path: seq<string>, key: string)
    requires key in AllLabels(job) && key !in path
    ensures Unused(job, path + [key]) < Unused(job, path)
  {
    ElementsAppend(path, [key]);
    assert key in AllLabels(job) - Elements(path);
    SmallerSet(AllLabels(job) - Elements(path + [key]), AllLabels(job) - Elements(path));
  }

  lemma ElementsSnoc(path: seq<string>, key: string)
    ensures Elements(path + [key]) == Elements(path) + {key}
  {
  }

  /** The label a call splits by, with its distribution over the series found. */
  ghost predicate Chosen(job: Job, base: string, path: seq<string>, found: set<Series>, key: string, dist: Group) {
    && found == Matching(job, base)
    && key in AllLabels(job) && key !in path && key !in job.excluded
    && (exists s :: s in found && key in s)
    && IsTop(found, key, dist)
  }

  lemma ChosenLabelPrints(job: Job, base: string, path: seq<string>, found: set<Series>, key: string, dist: Group)
    requires Ready(job, base, path) && Chosen(job, base, path, found, key, dist)
    ensures IsLabel(key) && !Contains(key, NAME)
  {
    var s :| s in found && key in s;
    MatchingIsOfMetric(job, base);
    assert PrintableLabel(job, s, key);
  }

  lemma ChosenValuePrints(job: Job, base: string, path: seq<string>, found: set<Series>, key: string, dist: Group,
                          x: LabelValueCount)
    requires Ready(job, base, path) && Chosen(job, base, path, found, key, dist) && x in dist
    ensures Quotable(x.name) && (x.value > job.maxSeries ==> '\\' !in x.name)
  {
    var i :| 0 <= i < |dist| && dist[i] == x;
    var s :| s in found && Get(s, key) == x.name && x.name != "";
    MatchingIsOfMetric(job, base);
    assert PrintableLabel(job, s, key);
    SmallerSet(WithValue(found, key, x.name), WithValue(OfMetric(job), key, x.name));
  }

  lemma ChildReady(job: Job, base: string, path: seq<string>, key: string, sub: string, value: string)
    requires Ready(job, base, path) && WellFormed(sub)
    requires Matching(job, sub) == WithValue(Matching(job, base), key, value)
    ensures Ready(job, sub, path + [key])
  {
    forall k | k in path + [key] ensures Agree(Matching(job, sub), k) {
      if k in path {
        assert Agree(Matching(job, base), k);
      }
    }
  }

  /**
   * The recursion ends and leaves the caller's slice alone for any labels and values; where the printed
   * selectors say what is meant it succeeds with a split.
   */
  method RecursiveSplit(job: Job, base: string, usedLabels: Slice, ghost path: seq<string>)
    returns (r: Result<seq<SelectorInfo>>, ghost plan: Plan)
    requires usedLabels.len <= usedLabels.arr.Length && Items(usedLabels) == path
    modifies usedLabels.arr
    ensures Items(usedLabels) == path
    ensures Ready(job, base, path) ==> r.Success? && IsSplit(job, Matching(job, base), r.value)
    ensures Ready(job, base, path) && Matching(job, base) != {} ==> NonEmpty(job, r.value)
    ensures r.Success? ==> IsPlan(job, base, Elements(path), plan) && r.value == Printed(job, base, plan)
    decreases Unused(job, path), 3
  {
    var match_ := BuildMatch(job.metric, base);
    var labels := DiscoverLabels(job.db, job.metric, base);
    var candidates := FilterLabels(labels, job.excluded, usedLabels);
    if Ready(job, base, path) {
      CandidateFacts(job, base, path, labels, candidates);
    }
    if |candidates| == 0 {
      var leaf := SelectorInfo(match_, GetSeriesCount(job.db, match_));
      if Ready(job, base, path) {
        SplitOfOne(job, leaf);
      }
      return Success([leaf]), Whole(leaf);
    }
    var choice; ghost var dists, chosen;
    choice, dists, chosen := FindBestSplitLabel(job, base, candidates);
    if choice.Failure? {
      NoChoice(job, base, candidates, dists);
      return Failure("no suitable labels found"), Whole(SelectorInfo(match_, 0));
    }
    var (key, dist) := choice.value;
    ChoiceIsChosen(job, base, path, labels, candidates, key, dist);
    ghost var choice_ := Choice(candidates, dists);
    assert IsBestChoice(job, base, Elements(path), choice_, key, dist) by {
      assert candidates[chosen] == key && dists[chosen] == dist;
    }
    r, plan := SplitBy(job, base, usedLabels, path, Matching(job, base), key, dist, choice_);
  }

  lemma ChoiceIsChosen(job: Job, base: string, path: seq<string>, labels: seq<string>, candidates: seq<string>,
                       key: string, dist: Group)
    requires Elements(labels) == LabelsOf(Found(job.db, BuildMatchSelector(job.metric, base)))
    requires Elements(candidates) == Elements(labels) - job.excluded - Elements(path)
    requires key in candidates && dist != [] && IsTop(Matching(job, base), key, dist)
    ensures Chosen(job, base, path, Matching(job, base), key, dist)
  {
    assert key in Elements(candidates);
    assert key in path <==> key in Elements(path);
    var s :| s in Matching(job, base) && Get(s, key) == dist[0].name && dist[0].name != "";
    assert key in s;
  }

  lemma CandidateFacts(job: Job, base: string, path: seq<string>, labels: seq<string>, candidates: seq<string>)
    requires Ready(job, base, path)
    requires Elements(labels) == LabelsOf(Found(job.db, BuildMatchSelector(job.metric, base)))
    requires Elements(candidates) == Elements(labels) - job.excluded - Elements(path)
    ensures forall key :: key in candidates <==>
              key !in path && key !in job.excluded && exists s :: s in Matching(job, base) && key in s
    ensures forall key :: key in candidates ==> key in AllLabels(job)
    ensures candidates == [] ==> Indivisible(Matching(job, base), job.excluded)
    ensures candidates != [] ==> exists key, s :: key in candidates && s in Matching(job, base) && Get(s, key) != ""
  {
    PrintersAgree(job.metric, base);
    StripOfClean(base);
    var found := Matching(job, base);
    forall key
      ensures key in candidates <==> key !in path && key !in job.excluded && exists s :: s in found && key in s
    {
      assert key in candidates <==> key in Elements(candidates);
      assert key in path <==> key in Elements(path);
      assert key in LabelsOf(found) <==> exists s :: s in found && key in s;
    }
    if candidates == [] {
      forall key | key !in job.excluded ensures Agree(found, key) {
        assert key !in path ==> forall s :: s in found ==> key !in s;
      }
    } else {
      var key := candidates[0];
      assert key in candidates;
      var s :| s in found && key in s;
      assert Get(s, key) != "";
    }
  }

  method SplitBy(job: Job, base: string, usedLabels: Slice, ghost path: seq<string>, ghost found: set<Series>,
                 key: string, dist: Group, ghost choice: Choice)
    returns (r: Result<seq<SelectorInfo>>, ghost plan: Plan)
    requires usedLabels.len <= usedLabels.arr.Length && Items(usedLabels) == path
    requires Chosen(job, base, path, found, key, dist)
    requires IsBestChoice(job, base, Elements(path), choice, key, dist)
    modifies usedLabels.arr
    ensures Items(usedLabels) == path
    ensures Ready(job, base, path) ==> r.Success?
    ensures r.Success? ==> Covers(job, base, path, found, r.value)
    ensures r.Success? ==> IsPlan(job, base, Elements(path), plan) && r.value == Printed(job, base, plan)
    decreases Unused(job, path), 2
  {
    var bins, oversized := BinPack(dist, job.maxSeries, job.maxRegexValues);
    ghost var groups :| Describes(bins, groups) && Packed(groups, oversized, dist, job.maxSeries, job.maxRegexValues);
    PackedFacts(found, key, dist, groups, oversized, job.maxSeries, job.maxRegexValues);
    plan := Whole(SelectorInfo("", 0));

    // selectors for normal bins
    var selectors := BinSelectors(job, base, path, found, key, dist, bins, groups);

    // oversized values, split further
    var subs; ghost var parts;
    subs, parts := OversizedSelectors(job, base, usedLabels, path, found, key, dist, oversized);
    if subs.Failure? {
      return subs, plan;
    }

    // series without the label
    var remainder; ghost var rest;
    remainder, rest := RemainderSelectors(job, base, usedLabels, path, found, key, dist);
    if remainder.Failure? {
      return remainder, plan;
    }
    Assemble(job, base, path, found, key, dist, groups, oversized, selectors, subs.value, remainder.value);
    plan := Planned(job, base, path, found, key, dist, choice, groups, oversized, parts, subs.value, rest,
                    remainder.value);
    return Success(selectors + subs.value + remainder.value), plan;
  }

  /** The plan of a level, with the frugality of its packing. */
  lemma Planned(job: Job, base: string, path: seq<string>, found: set<Series>, key: string, dist: Group,
                choice: Choice, groups: seq<Group>, oversized: Group, parts: seq<Plan>, subs: seq<SelectorInfo>,
                rest: seq<Plan>, remainder: seq<SelectorInfo>)
    returns (plan: Plan)
    requires Chosen(job, base, path, found, key, dist)
    requires IsBestChoice(job, base, Elements(path), choice, key, dist)
    requires Packed(groups, oversized, dist, job.maxSeries, job.maxRegexValues)
    requires AllPass(oversized, parts, IsPlanOf(job, base, Elements(path), key)) && |parts| == |oversized|
    requires subs == PartList(job, base, key, oversized, parts, |parts|)
    requires IsRest(job, base, Elements(path), key, rest, remainder)
    ensures IsPlan(job, base, Elements(path), plan)
    ensures Printed(job, base, plan) == ListInfos(job, base, key, groups) + subs + remainder
  {
    plan := Level(key, choice, dist, groups, oversized, parts, rest);
    PackedSortsOut(found, key, dist, groups, oversized, job.maxSeries, job.maxRegexValues);
    ShapedIsFrugal(groups, job.maxSeries, job.maxRegexValues);
    forall i | 0 <= i < |parts| ensures PartOk(job, base, Elements(path), plan, i) {
      PartsAreOk(job, base, Elements(path), plan, i);
    }
    LevelIsPlan(job, base, Elements(path), plan);
    LevelPrints(job, base, plan);
  }

  /** No label has more values than a distribution lists, so the one asked for is whole. */
  lemma DistributionIsWhole(job: Job, base: string, path: seq<string>, found: set<Series>, key: string, dist: Group)
    requires Ready(job, base, path) && Chosen(job, base, path, found, key, dist)
    ensures IsDistribution(found, key, dist)
  {
    MatchingIsOfMetric(job, base);
    SmallerSet(ValuesOf(found, key), ValuesOf(OfMetric(job), key));
    CapIsHarmlessIff(found, key, dist);
  }

  /** The three lists of selectors together. */
  lemma Assemble(job: Job, base: string, path: seq<string>, found: set<Series>, key: string, dist: Group,
                 groups: seq<Group>, oversized: Group, bins: seq<SelectorInfo>, subs: seq<SelectorInfo>,
                 remainder: seq<SelectorInfo>)
    requires Chosen(job, base, path, found, key, dist)
    requires Packed(groups, oversized, dist, job.maxSeries, job.maxRegexValues)
    requires Covers(job, base, path, WithValues(found, key, Names(Flatten(groups))), bins)
    requires Covers(job, base, path, WithValues(found, key, Names(oversized)), subs)
    requires Covers(job, base, path, WithValue(found, key, ""), remainder)
    ensures Covers(job, base, path, found, bins + subs + remainder)
  {
    if Ready(job, base, path) {
      var packed := Flatten(groups);
      PackedFacts(found, key, dist, groups, oversized, job.maxSeries, job.maxRegexValues);
      DistributionIsWhole(job, base, path, found, key, dist);
      ValuesAreListed(found, key, dist, packed + oversized);
      Extend(job, found, key, packed, oversized, bins, subs);
      Complete(job, found, key, Names(packed + oversized), bins + subs, remainder);
      NonEmptyAppend(job, bins, subs);
      NonEmptyAppend(job, bins + subs, remainder);
    }
  }

  lemma ValuesAreListed(found: set<Series>, key: string, dist: Group, all: Group)
    requires IsDistribution(found, key, dist) && forall v :: v in Names(all) <==> v in Names(dist)
    ensures forall s :: s in found && Get(s, key) != "" ==> Get(s, key) in Names(all)
  {
    forall s | s in found && Get(s, key) != "" ensures Get(s, key) in Names(all) {
      assert Get(s, key) in Elements(Names(dist));
    }
  }

  /** The listed values and the absent label together are all the series. */
  lemma Complete(job: Job, found: set<Series>, key: string, names: seq<string>,
                 valued: seq<SelectorInfo>, remainder: seq<SelectorInfo>)
    requires key !in job.excluded && "" !in names
    requires forall s :: s in found && Get(s, key) != "" ==> Get(s, key) in names
    requires IsSplit(job, WithValues(found, key, names), valued)
    requires IsSplit(job, WithValue(found, key, ""), remainder)
    ensures IsSplit(job, found, valued + remainder)
  {
    var a, b := WithValues(found, key, names), WithValue(found, key, "");
    assert a !! b;
    assert a + b == found;
    SplitAppend(job, a, b, key, valued, remainder);
  }

  /** The packed values are exactly the label's values, each once. */
  lemma PackedFacts(found: set<Series>, key: string, dist: Group, groups: seq<Group>, oversized: Group,
                    maxSeries: int, maxValues: int)
    requires Lists(found, key, dist) && Packed(groups, oversized, dist, maxSeries, maxValues)
    ensures var all := Flatten(groups) + oversized;
            && NoDuplicates(Names(all)) && "" !in Names(all)
            && (forall x :: x in all ==> x in dist)
            && NoDuplicates(Names(Flatten(groups))) && NoDuplicates(Names(oversized))
            && forall v :: v in Names(all) <==> v in Names(dist)
  {
    DistributionIsPositive(found, key, dist);
    AllNames(found, key, dist, Flatten(groups), oversized);
  }

  lemma AllNames(found: set<Series>, key: string, dist: Group, packed: Group, oversized: Group)
    requires Lists(found, key, dist) && multiset(packed) + multiset(oversized) == multiset(dist)
    ensures var all := packed + oversized;
            && NoDuplicates(Names(all)) && "" !in Names(all)
            && (forall x :: x in all ==> x in dist)
            && NoDuplicates(Names(packed)) && NoDuplicates(Names(oversized))
            && forall v :: v in Names(all) <==> v in Names(dist)
  {
    var all := packed + oversized;
    PermutedNames(all, dist);
    NamesPrefix(packed, all);
    NamesSuffix(packed, oversized);
    ListedAreValues(found, key, dist);
    assert "" !in Elements(Names(dist));
  }

  method BinSelectors(job: Job, base: string, ghost path: seq<string>, ghost found: set<Series>, key: string,
                      ghost dist: Group, bins: seq<Bin>, ghost groups: seq<Group>)
    returns (selectors: seq<SelectorInfo>)
    requires Chosen(job, base, path, found, key, dist)
    requires Describes(bins, groups) && WithinLimits(groups, job.maxSeries, job.maxRegexValues)
    requires NoDuplicates(Names(Flatten(groups))) && forall x :: x in Flatten(groups) ==> x in dist
    ensures Covers(job, base, path, WithValues(found, key, Names(Flatten(groups))), selectors)
    ensures selectors == ListInfos(job, base, key, groups)
  {
    selectors := [];
    assert WithValues(found, key, Names(Flatten(groups[..0]))) == {};
    for i := 0 to |bins|
      invariant Covers(job, base, path, WithValues(found, key, Names(Flatten(groups[..i]))), selectors)
      invariant selectors == ListInfos(job, base, key, groups[..i])
    {
      var selector := AppendRegexSelector(base, key, bins[i].labelValues);
      var sel := SelectorInfo(BuildMatch(job.metric, selector), bins[i].seriesCount);
      BinStep(job, base, path, found, key, dist, groups, i, selectors, sel);
      InfosSnoc(groups, Printer(job, base, key), i);
      selectors := selectors + [sel];
    }
    assert groups[..|bins|] == groups;
  }

  lemma BinStep(job: Job, base: string, path: seq<string>, found: set<Series>, key: string, dist: Group,
                groups: seq<Group>, i: nat, sels: seq<SelectorInfo>, sel: SelectorInfo)
    requires Chosen(job, base, path, found, key, dist)
    requires i < |groups| && GroupOk(groups[i], job.maxSeries, job.maxRegexValues)
    requires NoDuplicates(Names(Flatten(groups))) && forall x :: x in Flatten(groups) ==> x in dist
    requires sel.selector == BuildMatch(job.metric, JoinSelector(base, RegexMatcher(key, Names(groups[i]))))
    requires sel.estSeriesCount == Sum(groups[i])
    requires Covers(job, base, path, WithValues(found, key, Names(Flatten(groups[..i]))), sels)
    ensures Covers(job, base, path, WithValues(found, key, Names(Flatten(groups[..i + 1]))), sels + [sel])
  {
    if Ready(job, base, path) {
      OneMoreBin(job, base, path, found, key, dist, groups, i, sels, sel);
      NonEmptyAppend(job, sels, [sel]);
    }
  }

  lemma FlattenTake(groups: seq<Group>, i: nat)
    requires i < |groups|
    ensures Flatten(groups[..i + 1]) == Flatten(groups[..i]) + groups[i]
    ensures Flatten(groups[..i]) + groups[i] <= Flatten(groups)
    ensures forall x :: x in groups[i] ==> x in Flatten(groups)
  {
    assert groups[..i + 1] == groups[..i] + [groups[i]];
    FlattenAppend(groups[..i], [groups[i]]);
    assert [groups[i]][1..] == [] && Flatten([groups[i]]) == groups[i] + [] == groups[i];
    assert groups == groups[..i + 1] + groups[i + 1..];
    FlattenAppend(groups[..i + 1], groups[i + 1..]);
  }

  lemma NamesPrefix(a: Group, b: Group)
    requires a <= b && NoDuplicates(Names(b))
    ensures NoDuplicates(Names(a))
  {
    assert forall i :: 0 <= i < |a| ==> Names(a)[i] == Names(b)[i];
  }

  lemma OneMoreBin(job: Job, base: string, path: seq<string>, found: set<Series>, key: string, dist: Group,
                   groups: seq<Group>, i: nat, sels: seq<SelectorInfo>, sel: SelectorInfo)
    requires Ready(job, base, path) && Chosen(job, base, path, found, key, dist)
    requires i < |groups| && GroupOk(groups[i], job.maxSeries, job.maxRegexValues)
    requires NoDuplicates(Names(Flatten(groups))) && forall x :: x in Flatten(groups) ==> x in dist
    requires sel.selector == BuildMatch(job.metric, JoinSelector(base, RegexMatcher(key, Names(groups[i]))))
    requires sel.estSeriesCount == Sum(groups[i])
    requires IsSplit(job, WithValues(found, key, Names(Flatten(groups[..i]))), sels)
    ensures IsSplit(job, WithValues(found, key, Names(Flatten(groups[..i + 1]))), sels + [sel])
    ensures NonEmpty(job, [sel])
  {
    var before, g := Flatten(groups[..i]), groups[i];
    FlattenTake(groups, i);
    NamesPrefix(before + g, Flatten(groups));
    NamesSuffix(before, g);
    BinIsSound(job, base, path, found, key, dist, g, sel);
    Extend(job, found, key, before, g, sels, [sel]);
  }

  lemma NamesSuffix(a: Group, b: Group)
    requires NoDuplicates(Names(a + b))
    ensures NoDuplicates(Names(b))
  {
    forall i, j | 0 <= i < j < |b| ensures Names(b)[i] != Names(b)[j] {
      assert Names(a + b)[|a| + i] != Names(a + b)[|a| + j];
    }
  }

  lemma BinCuts(job: Job, base: string, path: seq<string>, found: set<Series>, key: string, dist: Group, g: Group)
    requires Ready(job, base, path) && Chosen(job, base, path, found, key, dist)
    requires g != [] && forall x :: x in g ==> x in dist
    ensures Matching(job, JoinSelector(base, RegexMatcher(key, Names(g)))) == WithValues(found, key, Names(g))
  {
    ChosenLabelPrints(job, base, path, found, key, dist);
    NamesOfEntries(g);
    forall v | v in Names(g) ensures Quotable(v) {
      var x :| x in g && x.name == v;
      ChosenValuePrints(job, base, path, found, key, dist, x);
    }
    RegexCuts(job, base, key, Names(g));
  }

  lemma BinIsFound(found: set<Series>, key: string, dist: Group, g: Group)
    requires Lists(found, key, dist) && g != [] && forall x :: x in g ==> x in dist
    ensures WithValues(found, key, Names(g)) != {}
  {
    var s := ListedIsFound(found, key, dist, g[0]);
    assert Names(g)[0] == g[0].name;
    assert s in WithValues(found, key, Names(g));
  }

  /** The selector of a bin selects the bin's series, and their number is the bin's count. */
  lemma BinIsSound(job: Job, base: string, path: seq<string>, found: set<Series>, key: string, dist: Group, g: Group,
                   sel: SelectorInfo)
    requires Ready(job, base, path) && Chosen(job, base, path, found, key, dist)
    requires GroupOk(g, job.maxSeries, job.maxRegexValues) && NoDuplicates(Names(g)) && forall x :: x in g ==> x in dist
    requires sel.selector == BuildMatch(job.metric, JoinSelector(base, RegexMatcher(key, Names(g))))
    requires sel.estSeriesCount == Sum(g)
    ensures IsSplit(job, WithValues(found, key, Names(g)), [sel]) && NonEmpty(job, [sel])
  {
    BinCuts(job, base, path, found, key, dist, g);
    CountOfValues(found, key, dist, g);
    BinIsFound(found, key, dist, g);
    SplitOfOne(job, sel);
  }

  lemma ListedIsFound(found: set<Series>, key: string, dist: Group, x: LabelValueCount)
    returns (s: Series)
    requires Lists(found, key, dist) && x in dist
    ensures s in WithValue(found, key, x.name)
  {
    var i :| 0 <= i < |dist| && dist[i] == x;
    s :| s in found && Get(s, key) == x.name;
  }

  method OversizedSelectors(job: Job, base: string, usedLabels: Slice, ghost path: seq<string>,
                            ghost found: set<Series>, key: string, ghost dist: Group, oversized: Group)
    returns (r: Result<seq<SelectorInfo>>, ghost parts: seq<Plan>)
    requires usedLabels.len <= usedLabels.arr.Length && Items(usedLabels) == path
    requires Chosen(job, base, path, found, key, dist)
    requires NoDuplicates(Names(oversized)) && forall x :: x in oversized ==> x in dist && x.value > job.maxSeries
    modifies usedLabels.arr
    ensures Items(usedLabels) == path
    ensures Ready(job, base, path) ==> r.Success?
    ensures r.Success? ==> Covers(job, base, path, WithValues(found, key, Names(oversized)), r.value)
    ensures r.Success? ==> |parts| == |oversized| && AllPass(oversized, parts, IsPlanOf(job, base, Elements(path), key))
    ensures r.Success? ==> r.value == PartList(job, base, key, oversized, parts, |oversized|)
    decreases Unused(job, path), 1
  {
    var selectors: seq<SelectorInfo> := [];
    parts := [];
    NoneDone(job, base, path, found, key, oversized);
    for i := 0 to |oversized|
      invariant Items(usedLabels) == path
      invariant |parts| == i && PlansDone(job, base, path, key, oversized, parts, selectors)
      invariant ValuesDone(job, base, path, found, key, oversized, i, selectors)
    {
      assert oversized[i] in oversized;
      var subs; ghost var part;
      subs, part := SplitValue(job, base, usedLabels, path, found, key, dist, oversized[i]);
      if subs.Failure? {
        return subs, parts;
      }
      OneMorePlanned(job, base, path, key, oversized, parts, selectors, part, subs.value);
      ValueStep(job, base, path, found, key, oversized, i, selectors, subs.value);
      parts := parts + [part];
      selectors := selectors + subs.value;
    }
    assert oversized[..|oversized|] == oversized;
    return Success(selectors), parts;
  }

  /** The selectors so far are printed by one plan for each of the first large values. */
  ghost predicate PlansDone(job: Job, base: string, path: seq<string>, key: string, large: Group, parts: seq<Plan>,
                            sels: seq<SelectorInfo>) {
    && AllPass(large, parts, IsPlanOf(job, base, Elements(path), key))
    && sels == PartList(job, base, key, large, parts, |parts|)
  }

  /** The selectors so far split the series with the first large values. */
  ghost predicate ValuesDone(job: Job, base: string, path: seq<string>, found: set<Series>, key: string, large: Group,
                             n: nat, sels: seq<SelectorInfo>)
    requires n <= |large|
  {
    Covers(job, base, path, WithValues(found, key, Names(large[..n])), sels)
  }

  lemma NoneDone(job: Job, base: string, path: seq<string>, found: set<Series>, key: string, large: Group)
    ensures PlansDone(job, base, path, key, large, [], [])
    ensures ValuesDone(job, base, path, found, key, large, 0, [])
  {
    assert WithValues(found, key, Names(large[..0])) == {};
  }

  lemma OneMorePlanned(job: Job, base: string, path: seq<string>, key: string, large: Group, parts: seq<Plan>,
                       sels: seq<SelectorInfo>, part: Plan, more: seq<SelectorInfo>)
    requires PlansDone(job, base, path, key, large, parts, sels) && |parts| < |large|
    requires IsPlanOf(job, base, Elements(path), key)(large[|parts|], part)
    requires more == Printed(job, AppendExactSelector(base, key, large[|parts|].name), part)
    ensures PlansDone(job, base, path, key, large, parts + [part], sels + more)
  {
    AllPassSnoc(large, parts, IsPlanOf(job, base, Elements(path), key), part);
    ListSnoc(job, base, key, large, parts, part);
  }

  method SplitValue(job: Job, base: string, usedLabels: Slice, ghost path: seq<string>, ghost found: set<Series>,
                    key: string, ghost dist: Group, ov: LabelValueCount)
    returns (r: Result<seq<SelectorInfo>>, ghost plan: Plan)
    requires usedLabels.len <= usedLabels.arr.Length && Items(usedLabels) == path
    requires Chosen(job, base, path, found, key, dist)
    requires ov in dist && ov.value > job.maxSeries
    modifies usedLabels.arr
    ensures Items(usedLabels) == path
    ensures Ready(job, base, path) ==> r.Success?
    ensures r.Success? ==> Covers(job, base, path, WithValue(found, key, ov.name), r.value)
    ensures r.Success? ==> IsPlanOf(job, base, Elements(path), key)(ov, plan)
    ensures r.Success? ==> r.value == Printed(job, AppendExactSelector(base, key, ov.name), plan)
    decreases Unused(job, path), 0
  {
    var sub := AppendExactSelector(base, key, ov.name);
    if Ready(job, base, path) {
      ChosenLabelPrints(job, base, path, found, key, dist);
      ChosenValuePrints(job, base, path, found, key, dist, ov);
      ExactCuts(job, base, key, ov.name);
      ChildReady(job, base, path, key, sub, ov.name);
      var s := ListedIsFound(found, key, dist, ov);
    }
    UsingALabel(job, path, key);
    ElementsSnoc(path, key);
    var used := Append(usedLabels, key);
    r, plan := RecursiveSplit(job, sub, used, path + [key]);
    PrefixOf(used, usedLabels, path, key);
  }

  lemma ValueStep(job: Job, base: string, path: seq<string>, found: set<Series>, key: string, oversized: Group, i: nat,
                  sels: seq<SelectorInfo>, more: seq<SelectorInfo>)
    requires i < |oversized| && NoDuplicates(Names(oversized)) && key !in job.excluded
    requires ValuesDone(job, base, path, found, key, oversized, i, sels)
    requires Covers(job, base, path, WithValue(found, key, oversized[i].name), more)
    ensures ValuesDone(job, base, path, found, key, oversized, i + 1, sels + more)
  {
    if Ready(job, base, path) {
      OneMoreValue(job, found, key, oversized, i, sels, more);
      NonEmptyAppend(job, sels, more);
    }
  }

  lemma OneMoreValue(job: Job, found: set<Series>, key: string, oversized: Group, i: nat,
                     sels: seq<SelectorInfo>, more: seq<SelectorInfo>)
    requires i < |oversized| && NoDuplicates(Names(oversized)) && key !in job.excluded
    requires IsSplit(job, WithValues(found, key, Names(oversized[..i])), sels)
    requires IsSplit(job, WithValue(found, key, oversized[i].name), more)
    ensures IsSplit(job, WithValues(found, key, Names(oversized[..i + 1])), sels + more)
  {
    var ov := oversized[i];
    assert oversized[..i + 1] == oversized[..i] + [ov];
    NamesPrefix(oversized[..i + 1], oversized);
    assert Names([ov]) == [ov.name];
    assert WithValues(found, key, Names([ov])) == WithValue(found, key, ov.name);
    Extend(job, found, key, oversized[..i], [ov], sels, more);
  }

  lemma PrefixOf(child: Slice, parent: Slice, path: seq<string>, key: string)
    requires parent.len <= parent.arr.Length && child.len == parent.len + 1 <= child.arr.Length
    requires Items(child) == path + [key] && |path| == parent.len
    requires child.arr == parent.arr || Items(parent) == path
    ensures Items(parent) == path
  {
    if child.arr == parent.arr {
      assert Items(parent) == Items(child)[..parent.len];
    }
  }

  method RemainderSelectors(job: Job, base: string, usedLabels: Slice, ghost path: seq<string>,
                            ghost found: set<Series>, key: string, ghost dist: Group)
    returns (r: Result<seq<SelectorInfo>>, ghost rest: seq<Plan>)
    requires usedLabels.len <= usedLabels.arr.Length && Items(usedLabels) == path
    requires Chosen(job, base, path, found, key, dist)
    modifies usedLabels.arr
    ensures Items(usedLabels) == path
    ensures Ready(job, base, path) ==> r.Success?
    ensures r.Success? ==> Covers(job, base, path, WithValue(found, key, ""), r.value)
    ensures r.Success? ==> IsRest(job, base, Elements(path), key, rest, r.value)
    decreases Unused(job, path), 1
  {
    var remainder := AppendEmptyLabelSelector(base, key);
    var remainderMatch := BuildMatch(job.metric, remainder);
    var remainderCount := GetSeriesCount(job.db, remainderMatch);
    RemainderCuts(job, base, path, found, key, dist);
    if remainderCount == 0 {
      NoPieces(job, remainderMatch);
      return Success([]), [];
    }
    if remainderCount > job.maxSeries {
      r, rest := SplitRemainder(job, base, usedLabels, path, found, key, dist, remainder);
    } else {
      var sel := SelectorInfo(remainderMatch, remainderCount);
      OnePiece(job, sel);
      return Success([sel]), [Whole(sel)];
    }
  }

  lemma NoPieces(job: Job, selector: string)
    requires |Found(job.db, selector)| == 0
    ensures IsSplit(job, Found(job.db, selector), []) && NonEmpty(job, [])
  {
    assert Found(job.db, selector) == {};
  }

  lemma OnePiece(job: Job, sel: SelectorInfo)
    requires Sound(job, sel) && sel.estSeriesCount != 0
    ensures IsSplit(job, Found(job.db, sel.selector), [sel]) && NonEmpty(job, [sel])
  {
    SplitOfOne(job, sel);
  }

  method SplitRemainder(job: Job, base: string, usedLabels: Slice, ghost path: seq<string>,
                        ghost found: set<Series>, key: string, ghost dist: Group, remainder: string)
    returns (r: Result<seq<SelectorInfo>>, ghost rest: seq<Plan>)
    requires usedLabels.len <= usedLabels.arr.Length && Items(usedLabels) == path
    requires Chosen(job, base, path, found, key, dist) && Matching(job, remainder) != {}
    requires |Matching(job, remainder)| > job.maxSeries
    requires remainder == AppendEmptyLabelSelector(base, key)
    requires Ready(job, base, path) ==>
               Ready(job, remainder, path + [key]) && Matching(job, remainder) == WithValue(found, key, "")
    modifies usedLabels.arr
    ensures Items(usedLabels) == path
    ensures Ready(job, base, path) ==> r.Success?
    ensures r.Success? ==> Covers(job, base, path, WithValue(found, key, ""), r.value)
    ensures r.Success? ==> IsRest(job, base, Elements(path), key, rest, r.value)
    decreases Unused(job, path), 0
  {
    UsingALabel(job, path, key);
    ElementsSnoc(path, key);
    var used := Append(usedLabels, key);
    ghost var plan;
    r, plan := RecursiveSplit(job, remainder, used, path + [key]);
    rest := [plan];
    PrefixOf(used, usedLabels, path, key);
  }

  /** The selector of the remainder selects the series without the label, and the next call is ready for it. */
  lemma RemainderCuts(job: Job, base: string, path: seq<string>, found: set<Series>, key: string, dist: Group)
    requires Chosen(job, base, path, found, key, dist)
    ensures var remainder := AppendEmptyLabelSelector(base, key);
            Ready(job, base, path) ==>
              Ready(job, remainder, path + [key]) && Matching(job, remainder) == WithValue(found, key, "")
  {
    if Ready(job, base, path) {
      ChosenLabelPrints(job, base, path, found, key, dist);
      EmptyLabelCuts(job, base, key);
      ChildReady(job, base, path, key, AppendEmptyLabelSelector(base, key), "");
    }
  }

  // ---------- the entry point ----------

  datatype SplitResult = SplitResult(metricName: string, selectors: seq<SelectorInfo>, totalSeries: nat)

  method SplitMetric(job: Job, base: string) returns (r: Result<SplitResult>, ghost plan: Plan)
    ensures r.Success? ==> r.value.metricName == job.metric && r.value.totalSeries == |Matching(job, base)|
    ensures |Matching(job, base)| <= job.maxSeries ==> r.Success? && |r.value.selectors| == 1
    ensures WellFormed(base) && Printable(job) ==> r.Success? && IsSplit(job, Matching(job, base), r.value.selectors)
    ensures WellFormed(base) && Printable(job) && Matching(job, base) != {} ==>
              NonEmpty(job, r.value.selectors) && |r.value.selectors| <= r.value.totalSeries
    ensures r.Success? ==> IsPlan(job, base, {}, plan) && r.value.selectors == Printed(job, base, plan)
  {
    var match_ := BuildMatch(job.metric, base);
    var total := GetSeriesCount(job.db, match_);
    if total <= job.maxSeries {
      var all := SelectorInfo(match_, total);
      SplitOfOne(job, all);
      return Success(SplitResult(job.metric, [all], total)), Whole(all);
    }
    var empty := new string[0];
    var selectors;
    assert Elements<string>([]) == {};
    selectors, plan := RecursiveSplit(job, base, Slice(empty, 0), []);
    if selectors.Failure? {
      return Failure("recursive split"), plan;
    }
    if WellFormed(base) && Printable(job) && Matching(job, base) != {} {
      PiecesAreFew(job, Matching(job, base), selectors.value);
    }
    return Success(SplitResult(job.metric, selectors.value, total)), plan;
  }
}
