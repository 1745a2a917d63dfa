/** First-fit decreasing under two limits: internal/splitter/binpack.go. */
module BinPacking {

  datatype LabelValueCount = LabelValueCount(name: string, value: int)

  datatype Bin = Bin(labelValues: seq<string>, seriesCount: int)

  /** The label values of one bin together with their counts. */
  type Group = seq<LabelValueCount>

  function Names(vs: Group): (names: seq<string>)
    ensures |names| == |vs| && forall i :: 0 <= i < |vs| ==> names[i] == vs[i].name
  {
    seq(|vs|, i requires 0 <= i < |vs| => vs[i].name)
  }

  function Sum(vs: Group): int {
    if vs == [] then 0 else vs[0].value + Sum(vs[1..])
  }

  function Flatten(groups: seq<Group>): Group {
    if groups == [] then [] else groups[0] + Flatten(groups[1..])
  }

  /** The values that have series at all. */
  function Positive(vs: Group): Group {
    if vs == [] then [] else (if vs[0].value > 0 then [vs[0]] else []) + Positive(vs[1..])
  }

  predicate Fits(g: Group, v: LabelValueCount, maxSeries: int, maxValues: int) {
    Sum(g) + v.value <= maxSeries && |g| < maxValues
  }

  /** A bin is non-empty, holds only positive counts and respects both limits. */
  predicate GroupOk(g: Group, maxSeries: int, maxValues: int) {
    1 <= |g| && (|g| <= maxValues || |g| == 1) && Sum(g) <= maxSeries && AllWithin(g, 1, maxSeries)
  }

  predicate AllWithin(g: Group, low: int, high: int) {
    forall x :: x in g ==> low <= x.value <= high
  }

  /** No value of `later` would fit into `earlier`. */
  predicate NoneFit(earlier: Group, later: Group, maxSeries: int, maxValues: int) {
    forall x :: x in later ==> !Fits(earlier, x, maxSeries, maxValues)
  }

  /** `earlier` opens with a value at least as large as everything in `later`. */
  predicate Leads(earlier: Group, later: Group) {
    earlier != [] && forall x :: x in later ==> x.value <= earlier[0].value
  }

  predicate WithinLimits(groups: seq<Group>, maxSeries: int, maxValues: int) {
    forall i :: 0 <= i < |groups| ==> GroupOk(groups[i], maxSeries, maxValues)
  }

  /** No value of a bin would have fitted into an earlier bin. */
  predicate FirstFit(groups: seq<Group>, maxSeries: int, maxValues: int) {
    forall i, j :: 0 <= i < j < |groups| ==> NoneFit(groups[i], groups[j], maxSeries, maxValues)
  }

  /** A bin opens with a value at least as large as everything in it and in later bins. */
  predicate Descending(groups: seq<Group>) {
    forall i, j :: 0 <= i <= j < |groups| ==> Leads(groups[i], groups[j])
  }

  /** The shape of a first-fit decreasing packing. */
  predicate Shaped(groups: seq<Group>, maxSeries: int, maxValues: int) {
    WithinLimits(groups, maxSeries, maxValues) && FirstFit(groups, maxSeries, maxValues) && Descending(groups)
  }

  predicate Describes(bins: seq<Bin>, groups: seq<Group>) {
    |bins| == |groups| && forall i :: 0 <= i < |bins| ==> bins[i] == Bin(Names(groups[i]), Sum(groups[i]))
  }

  // ---------- sums and permutations ----------

  lemma {:induction false} SumAppend(a: Group, b: Group)
    ensures Sum(a + b) == Sum(a) + Sum(b)
    decreases |a|
  {
    if a == [] {
      assert a + b == b;
    } else {
      assert (a + b)[1..] == a[1..] + b;
      SumAppend(a[1..], b);
    }
  }

  lemma {:induction false} FlattenAppend(a: seq<Group>, b: seq<Group>)
    ensures Flatten(a + b) == Flatten(a) + Flatten(b)
    decreases |a|
  {
    if a == [] {
      assert a + b == b;
    } else {
      assert (a + b)[1..] == a[1..] + b;
      FlattenAppend(a[1..], b);
    }
  }

  lemma {:induction false} FlattenInsert(groups: seq<Group>, i: nat, v: LabelValueCount)
    requires i < |groups|
    ensures multiset(Flatten(groups[i := groups[i] + [v]])) == multiset(Flatten(groups)) + multiset{v}
  {
    var after := groups[i := groups[i] + [v]];
    if i == 0 {
      assert after[1..] == groups[1..];
    } else {
      assert after[1..] == groups[1..][i - 1 := groups[1..][i - 1] + [v]];
      FlattenInsert(groups[1..], i - 1, v);
    }
  }

  lemma {:induction false} InFlatten(groups: seq<Group>, x: LabelValueCount)
    ensures x in Flatten(groups) <==> exists g :: g in groups && x in g
  {
    if groups != [] {
      InFlatten(groups[1..], x);
      assert forall g :: g in groups <==> g == groups[0] || g in groups[1..];
    }
  }

  lemma {:induction false} PositiveAppend(a: Group, v: LabelValueCount)
    ensures Positive(a + [v]) == Positive(a) + (if v.value > 0 then [v] else [])
  {
    if a == [] {
      assert a + [v] == [v] && [v][1..] == [];
    } else {
      assert (a + [v])[1..] == a[1..] + [v];
      PositiveAppend(a[1..], v);
    }
  }

  lemma {:induction false} PositiveCount(a: Group, x: LabelValueCount)
    ensures multiset(Positive(a))[x] == if x.value > 0 then multiset(a)[x] else 0
  {
    if a != [] {
      assert a == [a[0]] + a[1..];
      PositiveCount(a[1..], x);
    }
  }

  lemma PositivePermutes(a: Group, b: Group)
    requires multiset(a) == multiset(b)
    ensures multiset(Positive(a)) == multiset(Positive(b))
  {
    forall x ensures multiset(Positive(a))[x] == multiset(Positive(b))[x] {
      PositiveCount(a, x);
      PositiveCount(b, x);
    }
  }

  // ---------- the algorithm ----------

  method Swap(a: array<LabelValueCount>, j: nat)
    requires 0 < j < a.Length
    modifies a
    ensures a[..] == old(a[..][j - 1 := a[j]][j := a[j - 1]]) && multiset(a[..]) == old(multiset(a[..]))
  {
    a[j - 1], a[j] := a[j], a[j - 1];
  }

  /** Sinks the next value into the part already sorted. */
  method Insert(a: array<LabelValueCount>, i: nat)
    requires i < a.Length && forall p, q :: 0 <= p < q < i ==> a[p].value >= a[q].value
    modifies a
    ensures multiset(a[..]) == old(multiset(a[..]))
    ensures forall p, q :: 0 <= p < q <= i ==> a[p].value >= a[q].value
  {
    var j := i;
    while j > 0 && a[j - 1].value < a[j].value
      invariant 0 <= j <= i
      invariant multiset(a[..]) == old(multiset(a[..]))
      invariant forall p, q :: 0 <= p < q <= i && q != j ==> a[p].value >= a[q].value
    {
      Swap(a, j);
      j := j - 1;
    }
  }

  /** sort.Slice with the source's comparison; equal counts may end up in any order. */
  method SortDescending(a: array<LabelValueCount>)
    modifies a
    ensures multiset(a[..]) == old(multiset(a[..]))
    ensures forall p, q :: 0 <= p < q < a.Length ==> a[p].value >= a[q].value
  {
    for i := 0 to a.Length
      invariant multiset(a[..]) == old(multiset(a[..]))
      invariant forall p, q :: 0 <= p < q < i ==> a[p].value >= a[q].value
    {
      Insert(a, i);
    }
  }

  /** The inner loop: the first bin with room for v, or |bins|. */
  method FindBin(bins: seq<Bin>, ghost groups: seq<Group>, v: LabelValueCount, maxSeries: int, maxValues: int)
    returns (i: nat)
    requires Describes(bins, groups)
    ensures i <= |bins|
    ensures i < |bins| ==> Fits(groups[i], v, maxSeries, maxValues)
    ensures forall k :: 0 <= k < i ==> !Fits(groups[k], v, maxSeries, maxValues)
  {
    i := 0;
    while i < |bins|
      invariant i <= |bins|
      invariant forall k :: 0 <= k < i ==> !Fits(groups[k], v, maxSeries, maxValues)
    {
      if bins[i].seriesCount + v.value <= maxSeries && |bins[i].labelValues| < maxValues {
        return;
      }
      i := i + 1;
    }
  }

  /** The packing accounts for exactly the positive values: in bins when they fit, oversized otherwise. */
  ghost predicate Packed(groups: seq<Group>, oversized: Group, values: Group, maxSeries: int, maxValues: int) {
    && multiset(Flatten(groups)) + multiset(oversized) == multiset(Positive(values))
    && (forall v :: v in oversized ==> v.value > maxSeries)
    && Shaped(groups, maxSeries, maxValues)
  }

  lemma Grow(g: Group, v: LabelValueCount, maxSeries: int, maxValues: int)
    requires GroupOk(g, maxSeries, maxValues) && 0 < v.value <= maxSeries && Fits(g, v, maxSeries, maxValues)
    ensures GroupOk(g + [v], maxSeries, maxValues) && Sum(g + [v]) == Sum(g) + v.value
    ensures forall h :: NoneFit(g, h, maxSeries, maxValues) ==> NoneFit(g + [v], h, maxSeries, maxValues)
    ensures forall h :: Leads(g, h) ==> Leads(g + [v], h)
  {
    SumAppend(g, [v]);
    assert [v][1..] == [];
  }

  lemma PlaceInBin(groups: seq<Group>, i: nat, v: LabelValueCount, maxSeries: int, maxValues: int)
    requires Shaped(groups, maxSeries, maxValues) && 0 < v.value <= maxSeries
    requires forall k :: 0 <= k < |groups| ==> AllWithin(groups[k], v.value, maxSeries)
    requires i < |groups| && Fits(groups[i], v, maxSeries, maxValues)
    requires forall k :: 0 <= k < i ==> !Fits(groups[k], v, maxSeries, maxValues)
    ensures Shaped(groups[i := groups[i] + [v]], maxSeries, maxValues)
    ensures Sum(groups[i] + [v]) == Sum(groups[i]) + v.value
  {
    Grow(groups[i], v, maxSeries, maxValues);
    forall k | 0 <= k < |groups| ensures groups[k] != [] && groups[k][0].value >= v.value {
      assert GroupOk(groups[k], maxSeries, maxValues);
      assert groups[k][0] in groups[k];
    }
    forall k | 0 <= k < i ensures NoneFit(groups[k], groups[i] + [v], maxSeries, maxValues) {
      assert NoneFit(groups[k], groups[i], maxSeries, maxValues);
    }
    forall k | 0 <= k <= i ensures Leads(groups[k], groups[i] + [v]) {
      assert Leads(groups[k], groups[i]);
    }
  }

  lemma OpenBin(groups: seq<Group>, v: LabelValueCount, maxSeries: int, maxValues: int)
    requires Shaped(groups, maxSeries, maxValues) && 0 < v.value <= maxSeries
    requires forall k :: 0 <= k < |groups| ==> AllWithin(groups[k], v.value, maxSeries)
    requires forall k :: 0 <= k < |groups| ==> !Fits(groups[k], v, maxSeries, maxValues)
    ensures Shaped(groups + [[v]], maxSeries, maxValues) && Sum([v]) == v.value
    ensures multiset(Flatten(groups + [[v]])) == multiset(Flatten(groups)) + multiset{v}
  {
    assert [v][1..] == [];
    assert GroupOk([v], maxSeries, maxValues);
    forall k | 0 <= k < |groups| ensures Leads(groups[k], [v]) {
      assert GroupOk(groups[k], maxSeries, maxValues);
      assert groups[k][0] in groups[k];
    }
    FlattenOpened(groups, v);
  }

  lemma FlattenOpened(groups: seq<Group>, v: LabelValueCount)
    ensures multiset(Flatten(groups + [[v]])) == multiset(Flatten(groups)) + multiset{v}
  {
    FlattenAppend(groups, [[v]]);
    assert [[v]][1..] == [] && Flatten([[v]]) == [v] + Flatten([]);
  }

  /** One round of the outer loop on the ghost side: where the first bin with room takes v. */
  ghost function Placed(groups: seq<Group>, i: nat, v: LabelValueCount): seq<Group>
    requires i <= |groups|
  {
    if i < |groups| then groups[i := groups[i] + [v]] else groups + [[v]]
  }

  /** Everything placed is at least as large as the bound. */
  ghost predicate Above(groups: seq<Group>, low: int, maxSeries: int) {
    forall k :: 0 <= k < |groups| ==> AllWithin(groups[k], low, maxSeries)
  }

  lemma PlaceShape(groups: seq<Group>, i: nat, v: LabelValueCount, maxSeries: int, maxValues: int)
    requires Shaped(groups, maxSeries, maxValues) && Above(groups, v.value, maxSeries) && 0 < v.value <= maxSeries
    requires i <= |groups| && (i < |groups| ==> Fits(groups[i], v, maxSeries, maxValues))
    requires forall k :: 0 <= k < i ==> !Fits(groups[k], v, maxSeries, maxValues)
    ensures Shaped(Placed(groups, i, v), maxSeries, maxValues) && Above(Placed(groups, i, v), v.value, maxSeries)
    ensures multiset(Flatten(Placed(groups, i, v))) == multiset(Flatten(groups)) + multiset{v}
  {
    if i < |groups| {
      PlaceInBin(groups, i, v, maxSeries, maxValues);
      FlattenInsert(groups, i, v);
    } else {
      OpenBin(groups, v, maxSeries, maxValues);
    }
  }

  /** The outer loop's invariant: `rest` is sorted and nothing in it exceeds what has been placed. */
  ghost predicate Progress(groups: seq<Group>, oversized: Group, seen: Group, rest: Group, maxSeries: int,
                           maxValues: int) {
    && Packed(groups, oversized, seen, maxSeries, maxValues)
    && (forall p, q :: 0 <= p < q < |rest| ==> rest[p].value >= rest[q].value)
    && (rest != [] ==> Above(groups, rest[0].value, maxSeries))
  }

  lemma AboveLess(groups: seq<Group>, v: int, w: int, maxSeries: int)
    requires Above(groups, v, maxSeries) && w <= v
    ensures Above(groups, w, maxSeries)
  {
    forall k | 0 <= k < |groups| ensures AllWithin(groups[k], w, maxSeries) {
      assert AllWithin(groups[k], v, maxSeries);
    }
  }

  /** The multisets after a value without series, or one that is oversized. */
  lemma SkipCounts(groups: seq<Group>, oversized: Group, seen: Group, v: LabelValueCount, maxSeries: int)
    requires multiset(Flatten(groups)) + multiset(oversized) == multiset(Positive(seen))
    requires v.value <= 0 || v.value > maxSeries
    ensures var kept := if v.value <= 0 then oversized else oversized + [v];
            multiset(Flatten(groups)) + multiset(kept) == multiset(Positive(seen + [v]))
  {
    PositiveAppend(seen, v);
  }

  lemma Skip(groups: seq<Group>, oversized: Group, seen: Group, rest: Group, maxSeries: int, maxValues: int)
    requires Progress(groups, oversized, seen, rest, maxSeries, maxValues) && rest != []
    requires rest[0].value <= 0 || rest[0].value > maxSeries
    ensures var kept := if rest[0].value <= 0 then oversized else oversized + [rest[0]];
            Progress(groups, kept, seen + [rest[0]], rest[1..], maxSeries, maxValues)
  {
    SkipCounts(groups, oversized, seen, rest[0], maxSeries);
    if rest[1..] != [] {
      AboveLess(groups, rest[0].value, rest[1].value, maxSeries);
    }
  }

  /** The multisets after a value has found its place. */
  lemma PlaceCounts(groups: seq<Group>, oversized: Group, seen: Group, i: nat, v: LabelValueCount)
    requires i <= |groups| && v.value > 0
    requires multiset(Flatten(groups)) + multiset(oversized) == multiset(Positive(seen))
    requires multiset(Flatten(Placed(groups, i, v))) == multiset(Flatten(groups)) + multiset{v}
    ensures multiset(Flatten(Placed(groups, i, v))) + multiset(oversized) == multiset(Positive(seen + [v]))
  {
    PositiveAppend(seen, v);
  }

  lemma PlacePacked(groups: seq<Group>, oversized: Group, seen: Group, i: nat, v: LabelValueCount, maxSeries: int,
                    maxValues: int)
    requires Packed(groups, oversized, seen, maxSeries, maxValues) && Above(groups, v.value, maxSeries)
    requires 0 < v.value <= maxSeries && i <= |groups|
    requires i < |groups| ==> Fits(groups[i], v, maxSeries, maxValues)
    requires forall k :: 0 <= k < i ==> !Fits(groups[k], v, maxSeries, maxValues)
    ensures Packed(Placed(groups, i, v), oversized, seen + [v], maxSeries, maxValues)
    ensures Above(Placed(groups, i, v), v.value, maxSeries)
  {
    PlaceShape(groups, i, v, maxSeries, maxValues);
    PlaceCounts(groups, oversized, seen, i, v);
  }

  lemma Place(groups: seq<Group>, oversized: Group, seen: Group, rest: Group, i: nat, maxSeries: int, maxValues: int)
    requires Progress(groups, oversized, seen, rest, maxSeries, maxValues) && rest != []
    requires 0 < rest[0].value <= maxSeries
    requires i <= |groups| && (i < |groups| ==> Fits(groups[i], rest[0], maxSeries, maxValues))
    requires forall k :: 0 <= k < i ==> !Fits(groups[k], rest[0], maxSeries, maxValues)
    ensures Progress(Placed(groups, i, rest[0]), oversized, seen + [rest[0]], rest[1..], maxSeries, maxValues)
  {
    var after := Placed(groups, i, rest[0]);
    PlacePacked(groups, oversized, seen, i, rest[0], maxSeries, maxValues);
    if rest[1..] != [] {
      AboveLess(after, rest[0].value, rest[1].value, maxSeries);
    }
  }

  /** The sorted copy the loop walks over. */
  method SortedCopy(values: Group) returns (sorted: array<LabelValueCount>)
    ensures fresh(sorted) && multiset(sorted[..]) == multiset(values)
    ensures forall p, q :: 0 <= p < q < sorted.Length ==> sorted[p].value >= sorted[q].value
  {
    sorted := new LabelValueCount[|values|](i requires 0 <= i < |values| => values[i]);
    assert sorted[..] == values;
    SortDescending(sorted);
  }

  /** Append to the bin found, or open a new one. */
  method PutIntoBin(bins: seq<Bin>, ghost groups: seq<Group>, i: nat, v: LabelValueCount) returns (after: seq<Bin>)
    requires Describes(bins, groups) && i <= |bins|
    ensures Describes(after, Placed(groups, i, v))
  {
    if i < |bins| {
      SumAppend(groups[i], [v]);
      assert [v][1..] == [];
      assert Names(groups[i] + [v]) == Names(groups[i]) + [v.name];
      after := bins[i := Bin(bins[i].labelValues + [v.name], bins[i].seriesCount + v.value)];
    } else {
      assert Names([v]) == [v.name] && [v][1..] == [];
      after := bins + [Bin([v.name], v.value)];
    }
  }

  /** One round of the outer loop. */
  method PackOne(bins: seq<Bin>, oversized: Group, ghost groups: seq<Group>, ghost seen: Group, v: LabelValueCount,
                 ghost rest: Group, maxSeries: int, maxValues: int)
    returns (bins': seq<Bin>, oversized': Group, ghost groups': seq<Group>)
    requires Describes(bins, groups) && rest != [] && rest[0] == v
    requires Progress(groups, oversized, seen, rest, maxSeries, maxValues)
    ensures Describes(bins', groups')
    ensures Progress(groups', oversized', seen + [v], rest[1..], maxSeries, maxValues)
  {
    bins', oversized', groups' := bins, oversized, groups;
    if v.value <= 0 {
      Skip(groups, oversized, seen, rest, maxSeries, maxValues);
      return;
    }
    if v.value > maxSeries {
      Skip(groups, oversized, seen, rest, maxSeries, maxValues);
      oversized' := oversized + [v];
      return;
    }
    var i := FindBin(bins, groups, v, maxSeries, maxValues);
    Place(groups, oversized, seen, rest, i, maxSeries, maxValues);
    bins' := PutIntoBin(bins, groups, i, v);
    groups' := Placed(groups, i, v);
  }

  /** The outer loop over the sorted values. */
  method PackSorted(sorted: array<LabelValueCount>, maxSeries: int, maxValues: int)
    returns (bins: seq<Bin>, oversized: Group, ghost groups: seq<Group>)
    requires forall p, q :: 0 <= p < q < sorted.Length ==> sorted[p].value >= sorted[q].value
    ensures Describes(bins, groups)
    ensures Progress(groups, oversized, sorted[..], [], maxSeries, maxValues)
  {
    bins, oversized, groups := [], [], [];
    ghost var all := sorted[..];
    assert all[0..] == all;
    for n := 0 to sorted.Length
      invariant sorted[..] == all && Describes(bins, groups)
      invariant Progress(groups, oversized, all[..n], all[n..], maxSeries, maxValues)
    {
      bins, oversized, groups := PackOne(bins, oversized, groups, all[..n], sorted[n], all[n..], maxSeries, maxValues);
      TakeOne(all, n);
    }
    assert all[..|all|] == all;
  }

  lemma TakeOne(all: Group, n: nat)
    requires n < |all|
    ensures all[..n] + [all[n]] == all[..n + 1] && all[n..][1..] == all[n + 1..]
  {
  }

  lemma PackedPermutes(groups: seq<Group>, oversized: Group, order: Group, values: Group, maxSeries: int,
                       maxValues: int)
    requires Packed(groups, oversized, order, maxSeries, maxValues) && multiset(order) == multiset(values)
    ensures Packed(groups, oversized, values, maxSeries, maxValues)
  {
    PositivePermutes(order, values);
  }

  /**
   * The bins hold counted values that together with the oversized ones are exactly the positive input
   * values, each as often as it was given, in the shape of a first-fit decreasing packing.
   */
  ghost predicate IsPacked(bins: seq<Bin>, oversized: Group, values: Group, maxSeries: int, maxValues: int) {
    exists groups :: Describes(bins, groups) && Packed(groups, oversized, values, maxSeries, maxValues)
  }

  method BinPack(values: Group, maxSeries: int, maxValues: int) returns (bins: seq<Bin>, oversized: Group)
    ensures IsPacked(bins, oversized, values, maxSeries, maxValues)
  {
    if |values| == 0 {
      assert Describes([], []) && Packed([], [], values, maxSeries, maxValues);
      return [], [];
    }
    var sorted := SortedCopy(values);
    ghost var groups;
    bins, oversized, groups := PackSorted(sorted, maxSeries, maxValues);
    PackedPermutes(groups, oversized, sorted[..], values, maxSeries, maxValues);
  }
}
