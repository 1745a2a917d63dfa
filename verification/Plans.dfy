/** How a metric was cut into selectors, level by level, and how economical every level is. */
module Plans {
  import opened Selectors
  import opened BinPacking
  import opened PackingBounds
  import opened Collections
  import opened Discovery
  import opened Scoring
  import opened Splitting

  /** The labels a level could be split by, and their distributions. */
  datatype Choice = Choice(labels: seq<string>, dists: seq<Group>)

  /**
   * A selector printed as it is, or one level of the recursion: the label and what it was chosen from, its
   * distribution, the lists of values printed together, the values too large for a list with what became of
   * each, and what became of the series without the label.
   */
  datatype Plan =
    | Whole(info: SelectorInfo)
    | Level(key: string, choice: Choice, dist: Group, lists: seq<Group>, large: Group, parts: seq<Plan>,
            rest: seq<Plan>)

  function ListInfo(job: Job, base: string, key: string, g: Group): SelectorInfo {
    SelectorInfo(BuildMatch(job.metric, JoinSelector(base, RegexMatcher(key, Names(g)))), Sum(g))
  }

  /** How a list of values is printed. */
  function Printer(job: Job, base: string, key: string): Group -> SelectorInfo {
    (g: Group) => ListInfo(job, base, key, g)
  }

  function InfosOf(lists: seq<Group>, print_: Group -> SelectorInfo): (infos: seq<SelectorInfo>)
    ensures |infos| == |lists| && forall i :: 0 <= i < |lists| ==> infos[i] == print_(lists[i])
  {
    seq(|lists|, i requires 0 <= i < |lists| => print_(lists[i]))
  }

  lemma InfosSnoc(lists: seq<Group>, print_: Group -> SelectorInfo, i: nat)
    requires i < |lists|
    ensures InfosOf(lists[..i + 1], print_) == InfosOf(lists[..i], print_) + [print_(lists[i])]
  {
  }

  function ListInfos(job: Job, base: string, key: string, lists: seq<Group>): seq<SelectorInfo> {
    InfosOf(lists, Printer(job, base, key))
  }

  /** The selectors of a plan, in the order they are returned. */
  function Printed(job: Job, base: string, plan: Plan): seq<SelectorInfo>
    decreases plan, if plan.Level? then |plan.parts| + 1 else 0
  {
    match plan
    case Whole(info) => [info]
    case Level(key, _, _, lists, large, parts, rest) =>
      ListInfos(job, base, key, lists)
      + (if |parts| == |large| then PartsPrinted(job, base, plan, |parts|) else [])
      + if |rest| == 1 then Printed(job, AppendEmptyLabelSelector(base, key), rest[0]) else []
  }

  /** The selectors of the first n large values. */
  function PartsPrinted(job: Job, base: string, plan: Plan, n: nat): seq<SelectorInfo>
    requires plan.Level? && |plan.parts| == |plan.large| && n <= |plan.parts|
    decreases plan, n
  {
    if n == 0 then []
    else
      PartsPrinted(job, base, plan, n - 1)
      + Printed(job, AppendExactSelector(base, plan.key, plan.large[n - 1].name), plan.parts[n - 1])
  }

  /** Two lists together would still be within both limits. */
  predicate CouldJoin(g: Group, h: Group, maxSeries: int, maxValues: int) {
    Sum(g) + Sum(h) <= maxSeries && |g| + |h| <= maxValues
  }

  /** The lists and the large values are all the values of the label, each in its place. */
  predicate SortsOut(dist: Group, lists: seq<Group>, large: Group, maxSeries: int) {
    && multiset(Flatten(lists)) + multiset(large) == multiset(dist)
    && (forall x :: x in Flatten(lists) ==> x.value <= maxSeries)
    && forall x :: x in large ==> x.value > maxSeries
  }

  /**
   * Each list is within both limits, no two could have been printed as one, and there are fewer than three
   * times as many as any legal packing of the same values needs; at most 3/2 times as many while all these
   * values fit in one list by their number.
   */
  ghost predicate IsFrugal(lists: seq<Group>, maxSeries: int, maxValues: int) {
    && (forall i :: 0 <= i < |lists| ==>
          1 <= |lists[i]| <= (if maxValues < 1 then 1 else maxValues) && Sum(lists[i]) <= maxSeries)
    && (forall i, j :: 0 <= i < j < |lists| ==> !CouldJoin(lists[i], lists[j], maxSeries, maxValues))
    && forall packing :: IsPackingOf(packing, Flatten(lists), maxSeries, maxValues) ==>
         && (maxValues >= 1 && lists != [] ==> |lists| < 3 * |packing|)
         && (|Flatten(lists)| <= maxValues ==> 2 * |lists| <= 3 * |packing|)
  }

  /** One distribution for each candidate. */
  ghost predicate AreTops(found: set<Series>, candidates: seq<string>, dists: seq<Group>) {
    |dists| == |candidates| && forall i :: 0 <= i < |dists| ==> IsTop(found, candidates[i], dists[i])
  }

  /** No candidate has a higher score; those without values do not take part. */
  ghost predicate IsBest(dists: seq<Group>, best: nat) {
    && best < |dists| && dists[best] != []
    && forall i :: 0 <= i < |dists| && dists[i] != [] ==> Score(dists[i]) <= Score(dists[best])
  }

  /** No label that may still be used has a better score than this one. */
  ghost predicate IsBestChoice(job: Job, base: string, used: set<string>, choice: Choice, key: string, dist: Group) {
    && AreTops(Matching(job, base), choice.labels, choice.dists)
    && Elements(choice.labels) == LabelsOf(Found(job.db, BuildMatchSelector(job.metric, base))) - job.excluded - used
    && exists k: nat :: IsBest(choice.dists, k) && choice.labels[k] == key && choice.dists[k] == dist
  }

  /** The series without the label: nothing is printed for none, and one selector while they are within the limit. */
  predicate RestFits(job: Job, sub: string, rest: seq<Plan>) {
    && |rest| <= 1 && (rest == [] <==> Matching(job, sub) == {})
    && (rest != [] && |Matching(job, sub)| <= job.maxSeries ==> rest[0].Whole?)
  }

  /** One level covers the label's values and is frugal, and has something for each large value. */
  ghost predicate LevelOk(job: Job, base: string, used: set<string>, plan: Plan)
    requires plan.Level?
  {
    && IsBestChoice(job, base, used, plan.choice, plan.key, plan.dist)
    && SortsOut(plan.dist, plan.lists, plan.large, job.maxSeries)
    && IsFrugal(plan.lists, job.maxSeries, job.maxRegexValues)
    && |plan.parts| == |plan.large| && RestFits(job, AppendEmptyLabelSelector(base, plan.key), plan.rest)
  }

  /** The plan of a call with this base selector and these used labels. */
  ghost predicate IsPlan(job: Job, base: string, used: set<string>, plan: Plan)
    decreases plan, 1
  {
    match plan
    case Whole(info) => info.selector == BuildMatch(job.metric, base)
    case Level(_, _, _, _, _, _, _) =>
      && LevelOk(job, base, used, plan)
      && (forall i :: 0 <= i < |plan.parts| ==> PartOk(job, base, used, plan, i))
      && (plan.rest != [] ==> RestOk(job, base, used, plan))
  }

  /** The selectors are those of a plan. */
  ghost predicate IsPlanned(job: Job, base: string, sels: seq<SelectorInfo>) {
    exists plan :: IsPlan(job, base, {}, plan) && sels == Printed(job, base, plan)
  }

  ghost predicate PartOk(job: Job, base: string, used: set<string>, plan: Plan, i: nat)
    requires plan.Level? && i < |plan.parts| == |plan.large|
    decreases plan, 0
  {
    IsPlan(job, AppendExactSelector(base, plan.key, plan.large[i].name), used + {plan.key}, plan.parts[i])
  }

  ghost predicate RestOk(job: Job, base: string, used: set<string>, plan: Plan)
    requires plan.Level? && |plan.rest| == 1
    decreases plan, 0
  {
    IsPlan(job, AppendEmptyLabelSelector(base, plan.key), used + {plan.key}, plan.rest[0])
  }

  // ---------- one large value after the other ----------

  /** What the plans of the first n large values print. */
  function PartList(job: Job, base: string, key: string, large: Group, parts: seq<Plan>, n: nat): seq<SelectorInfo>
    requires n <= |parts| && n <= |large|
  {
    if n == 0 then []
    else
      PartList(job, base, key, large, parts, n - 1)
      + Printed(job, AppendExactSelector(base, key, large[n - 1].name), parts[n - 1])
  }

  lemma {:induction false} PartListExtends(job: Job, base: string, key: string, large: Group, parts: seq<Plan>,
                                           more: Plan, n: nat)
    requires n <= |parts| && n <= |large|
    ensures PartList(job, base, key, large, parts + [more], n) == PartList(job, base, key, large, parts, n)
  {
    if n > 0 {
      PartListExtends(job, base, key, large, parts, more, n - 1);
    }
  }

  lemma {:induction false} PartsAreListed(job: Job, base: string, plan: Plan, n: nat)
    requires plan.Level? && n <= |plan.parts| == |plan.large|
    ensures PartsPrinted(job, base, plan, n) == PartList(job, base, plan.key, plan.large, plan.parts, n)
  {
    if n > 0 {
      PartsAreListed(job, base, plan, n - 1);
    }
  }

  /** Each part passes a test together with its large value. */
  predicate AllPass(large: Group, parts: seq<Plan>, test: (LabelValueCount, Plan) -> bool) {
    |parts| <= |large| && forall i :: 0 <= i < |parts| ==> test(large[i], parts[i])
  }

  lemma AllPassSnoc(large: Group, parts: seq<Plan>, test: (LabelValueCount, Plan) -> bool, plan: Plan)
    requires AllPass(large, parts, test) && |parts| < |large| && test(large[|parts|], plan)
    ensures AllPass(large, parts + [plan], test)
  {
  }

  /** Being the plan of the call for a large value. */
  ghost function IsPlanOf(job: Job, base: string, used: set<string>, key: string): (LabelValueCount, Plan) -> bool {
    (v: LabelValueCount, plan: Plan) => IsPlan(job, AppendExactSelector(base, key, v.name), used + {key}, plan)
  }

  lemma ListSnoc(job: Job, base: string, key: string, large: Group, parts: seq<Plan>, plan: Plan)
    requires |parts| < |large|
    ensures PartList(job, base, key, large, parts + [plan], |parts| + 1)
         == PartList(job, base, key, large, parts, |parts|)
            + Printed(job, AppendExactSelector(base, key, large[|parts|].name), plan)
  {
    PartListExtends(job, base, key, large, parts, plan, |parts|);
  }

  /** What became of the series without the label: nothing was printed, or a plan of its own. */
  ghost predicate IsRest(job: Job, base: string, used: set<string>, key: string, rest: seq<Plan>,
                         sels: seq<SelectorInfo>) {
    var sub := AppendEmptyLabelSelector(base, key);
    && RestFits(job, sub, rest)
    && if rest == [] then sels == [] else IsPlan(job, sub, used + {key}, rest[0]) && sels == Printed(job, sub, rest[0])
  }

  lemma LevelPrints(job: Job, base: string, plan: Plan)
    requires plan.Level? && |plan.parts| == |plan.large| && |plan.rest| <= 1
    ensures var sub := AppendEmptyLabelSelector(base, plan.key);
            Printed(job, base, plan)
            == ListInfos(job, base, plan.key, plan.lists)
               + PartList(job, base, plan.key, plan.large, plan.parts, |plan.parts|)
               + if plan.rest == [] then [] else Printed(job, sub, plan.rest[0])
  {
    PartsAreListed(job, base, plan, |plan.parts|);
  }

  lemma PartsAreOk(job: Job, base: string, used: set<string>, plan: Plan, i: nat)
    requires plan.Level? && |plan.parts| == |plan.large| && i < |plan.parts|
    requires AllPass(plan.large, plan.parts, IsPlanOf(job, base, used, plan.key))
    ensures PartOk(job, base, used, plan, i)
  {
    assert IsPlanOf(job, base, used, plan.key)(plan.large[i], plan.parts[i]);
  }

  lemma LevelIsPlan(job: Job, base: string, used: set<string>, plan: Plan)
    requires plan.Level? && LevelOk(job, base, used, plan)
    requires forall i :: 0 <= i < |plan.parts| ==> PartOk(job, base, used, plan, i)
    requires plan.rest != [] ==> RestOk(job, base, used, plan)
    ensures IsPlan(job, base, used, plan)
  {
  }

  // ---------- first-fit decreasing is frugal ----------

  lemma {:induction false} FirstAtMostSum(g: Group)
    requires g != [] && forall x :: x in g ==> x.value > 0
    ensures Sum(g) >= g[0].value
  {
    SumAtLeastLength(g[1..]);
  }

  lemma NotJoined(g: Group, h: Group, maxSeries: int, maxValues: int)
    requires GroupOk(h, maxSeries, maxValues) && NoneFit(g, h, maxSeries, maxValues)
    ensures !CouldJoin(g, h, maxSeries, maxValues)
  {
    assert h[0] in h;
    FirstAtMostSum(h);
  }

  lemma ShapedIsFrugal(groups: seq<Group>, maxSeries: int, maxValues: int)
    requires Shaped(groups, maxSeries, maxValues)
    ensures IsFrugal(groups, maxSeries, maxValues)
  {
    forall i | 0 <= i < |groups|
      ensures 1 <= |groups[i]| <= (if maxValues < 1 then 1 else maxValues) && Sum(groups[i]) <= maxSeries
    {
      assert GroupOk(groups[i], maxSeries, maxValues);
    }
    forall i, j | 0 <= i < j < |groups| ensures !CouldJoin(groups[i], groups[j], maxSeries, maxValues) {
      assert GroupOk(groups[j], maxSeries, maxValues);
      NotJoined(groups[i], groups[j], maxSeries, maxValues);
    }
    forall packing | IsPackingOf(packing, Flatten(groups), maxSeries, maxValues)
      ensures maxValues >= 1 && groups != [] ==> |groups| < 3 * |packing|
      ensures |Flatten(groups)| <= maxValues ==> 2 * |groups| <= 3 * |packing|
    {
      if maxValues >= 1 && groups != [] {
        BelowThreeTimes(groups, packing, maxSeries, maxValues);
      }
      if |Flatten(groups)| <= maxValues {
        ThreeHalves(groups, packing, maxSeries, maxValues);
      }
    }
  }

  lemma PackedSortsOut(found: set<Series>, key: string, dist: Group, groups: seq<Group>, oversized: Group,
                       maxSeries: int, maxValues: int)
    requires Lists(found, key, dist) && Packed(groups, oversized, dist, maxSeries, maxValues)
    ensures SortsOut(dist, groups, oversized, maxSeries)
  {
    DistributionIsPositive(found, key, dist);
    forall x | x in Flatten(groups) ensures x.value <= maxSeries {
      InFlatten(groups, x);
      var g :| g in groups && x in g;
      var i :| 0 <= i < |groups| && groups[i] == g;
      assert GroupOk(groups[i], maxSeries, maxValues);
    }
  }
}
