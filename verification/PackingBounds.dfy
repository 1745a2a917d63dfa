/** How far first-fit decreasing can be from the best packing. */
module PackingBounds {
  import opened BinPacking
  import opened Arithmetic

  /** Any other legal packing of the same values. */
  ghost predicate IsPackingOf(packing: seq<Group>, items: Group, maxSeries: int, maxValues: int) {
    && multiset(Flatten(packing)) == multiset(items)
    && forall b :: b in packing ==> Sum(b) <= maxSeries && |b| <= maxValues
  }

  predicate IsBig(x: LabelValueCount, maxSeries: int) {
    2 * x.value > maxSeries
  }

  function Bigs(vs: Group, maxSeries: int): nat {
    if vs == [] then 0 else (if IsBig(vs[0], maxSeries) then 1 else 0) + Bigs(vs[1..], maxSeries)
  }

  // ---------- quantities that depend only on the multiset ----------

  lemma {:induction false} BigsAppend(a: Group, b: Group, maxSeries: int)
    ensures Bigs(a + b, maxSeries) == Bigs(a, maxSeries) + Bigs(b, maxSeries)
    decreases |a|
  {
    if a == [] {
      assert a + b == b;
    } else {
      assert (a + b)[1..] == a[1..] + b;
      BigsAppend(a[1..], b, maxSeries);
    }
  }

  lemma RemoveAt(b: Group, i: nat, maxSeries: int)
    requires i < |b|
    ensures var rest := b[..i] + b[i + 1..];
            && multiset(b) == multiset(rest) + multiset{b[i]}
            && Sum(b) == b[i].value + Sum(rest)
            && Bigs(b, maxSeries) == (if IsBig(b[i], maxSeries) then 1 else 0) + Bigs(rest, maxSeries)
  {
    var tail := [b[i]] + b[i + 1..];
    assert b == b[..i] + tail && tail[1..] == b[i + 1..];
    SumAppend(b[..i], tail);
    SumAppend(b[..i], b[i + 1..]);
    BigsAppend(b[..i], tail, maxSeries);
    BigsAppend(b[..i], b[i + 1..], maxSeries);
  }

  lemma CancelOne(m: multiset<LabelValueCount>, n: multiset<LabelValueCount>, x: LabelValueCount)
    requires m + multiset{x} == n + multiset{x}
    ensures m == n
  {
    assert m == (m + multiset{x}) - multiset{x};
    assert n == (n + multiset{x}) - multiset{x};
  }

  lemma {:induction false} Permuted(a: Group, b: Group, maxSeries: int)
    requires multiset(a) == multiset(b)
    ensures |a| == |b| && Sum(a) == Sum(b) && Bigs(a, maxSeries) == Bigs(b, maxSeries)
    decreases |a|
  {
    if a == [] {
      assert |multiset(a)| == |multiset(b)|;
    } else {
      var x := a[0];
      assert x in multiset(a);
      var i :| 0 <= i < |b| && b[i] == x;
      var rest := b[..i] + b[i + 1..];
      RemoveAt(b, i, maxSeries);
      assert a == [x] + a[1..];
      assert multiset(a) == multiset(a[1..]) + multiset{x};
      CancelOne(multiset(a[1..]), multiset(rest), x);
      Permuted(a[1..], rest, maxSeries);
    }
  }

  // ---------- what any packing must pay ----------

  lemma {:induction false} SumAtLeastLength(b: Group)
    requires forall x :: x in b ==> x.value > 0
    ensures Sum(b) >= |b|
  {
    if b != [] {
      assert b[0] in b;
      SumAtLeastLength(b[1..]);
    }
  }

  lemma {:induction false} BigsInBin(b: Group, maxSeries: int)
    requires forall x :: x in b ==> x.value > 0
    ensures Bigs(b, maxSeries) == 1 ==> 2 * Sum(b) > maxSeries
    ensures Bigs(b, maxSeries) >= 2 ==> Sum(b) > maxSeries
    decreases |b|
  {
    if b != [] {
      assert b[0] in b;
      SumAtLeastLength(b[1..]);
      BigsInBin(b[1..], maxSeries);
    }
  }

  lemma {:induction false} PackingPays(packing: seq<Group>, maxSeries: int, maxValues: int)
    requires forall b :: b in packing ==> Sum(b) <= maxSeries && |b| <= maxValues
    requires forall x :: x in Flatten(packing) ==> x.value > 0
    ensures Sum(Flatten(packing)) <= Times(|packing|, maxSeries)
    ensures |Flatten(packing)| <= Times(|packing|, maxValues)
    ensures Bigs(Flatten(packing), maxSeries) <= |packing|
  {
    if packing != [] {
      var b, rest := packing[0], packing[1..];
      assert b in packing;
      assert Flatten(packing) == b + Flatten(rest);
      PackingPays(rest, maxSeries, maxValues);
      SumAppend(b, Flatten(rest));
      BigsAppend(b, Flatten(rest), maxSeries);
      BigsInBin(b, maxSeries);
    }
  }

  /** What a legal packing allows the packed values to be. */
  lemma Budget(groups: seq<Group>, packing: seq<Group>, maxSeries: int, maxValues: int)
    requires WithinLimits(groups, maxSeries, maxValues)
    requires IsPackingOf(packing, Flatten(groups), maxSeries, maxValues)
    ensures Sum(Flatten(groups)) <= Times(|packing|, maxSeries)
    ensures |Flatten(groups)| <= Times(|packing|, maxValues)
    ensures Bigs(Flatten(groups), maxSeries) <= |packing|
  {
    PositiveItems(groups, maxSeries, maxValues);
    forall x | x in Flatten(packing) ensures x.value > 0 {
      assert x in multiset(Flatten(packing));
    }
    Permuted(Flatten(packing), Flatten(groups), maxSeries);
    PackingPays(packing, maxSeries, maxValues);
  }

  // ---------- what first-fit decreasing guarantees ----------

  lemma {:induction false} BigLeads(groups: seq<Group>, n: nat, maxSeries: int)
    requires n <= |groups| && forall i :: 0 <= i < n ==> groups[i] != [] && IsBig(groups[i][0], maxSeries)
    ensures Bigs(Flatten(groups), maxSeries) >= n
  {
    if n > 0 {
      BigLeads(groups[1..], n - 1, maxSeries);
      BigsAppend(groups[0], Flatten(groups[1..]), maxSeries);
    }
  }

  /** Each of the first bins can be paired with a different later value that overflows it. */
  lemma {:induction false} PairUp(bins: seq<Group>, later: Group, maxSeries: int)
    requires |bins| <= |later| && forall x :: x in later ==> x.value > 0
    requires forall i, x :: 0 <= i < |bins| && x in later ==> Sum(bins[i]) + x.value > maxSeries
    ensures Sum(Flatten(bins)) + Sum(later) >= Times(|bins|, maxSeries + 1)
  {
    if bins == [] {
      SumAtLeastLength(later);
    } else {
      assert later[0] in later;
      PairUp(bins[1..], later[1..], maxSeries);
      SumAppend(bins[0], Flatten(bins[1..]));
    }
  }

  lemma {:induction false} AtLeastTwoEach(groups: seq<Group>)
    requires groups != [] && forall i :: 0 <= i < |groups| ==> |groups[i]| >= if i < |groups| - 1 then 2 else 1
    ensures |Flatten(groups)| >= 2 * |groups| - 1
  {
    if |groups| > 1 {
      AtLeastTwoEach(groups[1..]);
    }
  }

  lemma {:induction false} TwoGroupsWithin(groups: seq<Group>, i: nat, j: nat)
    requires i < |groups| && j < |groups| && i != j
    ensures |groups[i]| + |groups[j]| <= |Flatten(groups)|
  {
    if i == 0 {
      OneGroupWithin(groups[1..], j - 1);
    } else if j == 0 {
      OneGroupWithin(groups[1..], i - 1);
    } else {
      TwoGroupsWithin(groups[1..], i - 1, j - 1);
    }
  }

  lemma {:induction false} OneGroupWithin(groups: seq<Group>, i: nat)
    requires i < |groups|
    ensures |groups[i]| <= |Flatten(groups)|
  {
    if i > 0 {
      OneGroupWithin(groups[1..], i - 1);
    }
  }

  lemma PositiveItems(groups: seq<Group>, maxSeries: int, maxValues: int)
    requires WithinLimits(groups, maxSeries, maxValues)
    ensures forall x :: x in Flatten(groups) ==> x.value > 0
  {
    forall x | x in Flatten(groups) ensures x.value > 0 {
      InFlatten(groups, x);
      var g :| g in groups && x in g;
      assert GroupOk(g, maxSeries, maxValues);
    }
  }

  /** When the count limit cannot bind, a value that did not fit overflows the bin's series. */
  lemma Overflows(groups: seq<Group>, i: nat, j: nat, x: LabelValueCount, maxSeries: int, maxValues: int)
    requires Shaped(groups, maxSeries, maxValues) && i < j < |groups| && x in groups[j]
    requires |Flatten(groups)| <= maxValues
    ensures Sum(groups[i]) + x.value > maxSeries
  {
    TwoGroupsWithin(groups, i, j);
    assert NoneFit(groups[i], groups[j], maxSeries, maxValues);
  }

  /** A later bin that opens small is not left with a single value while another bin follows. */
  lemma NotAlone(groups: seq<Group>, n: nat, i: nat, maxSeries: int, maxValues: int)
    requires Shaped(groups, maxSeries, maxValues) && |Flatten(groups)| <= maxValues
    requires n <= i < |groups| - 1 && groups[n] != [] && !IsBig(groups[n][0], maxSeries)
    ensures |groups[i]| >= 2
  {
    assert GroupOk(groups[i], maxSeries, maxValues) && GroupOk(groups[i + 1], maxSeries, maxValues);
    var x := groups[i + 1][0];
    assert Leads(groups[n], groups[i]) && Leads(groups[n], groups[i + 1]);
    assert x in groups[i + 1] && groups[i][0] in groups[i];
    Overflows(groups, i, i + 1, x, maxSeries, maxValues);
    SingleSum(groups[i]);
  }

  lemma SingleSum(g: Group)
    ensures |g| == 1 ==> Sum(g) == g[0].value
  {
    if |g| == 1 {
      assert g[1..] == [];
    }
  }

  /** If bin n opens with a small value, every later bin but the last holds at least two values. */
  lemma SmallTail(groups: seq<Group>, n: nat, maxSeries: int, maxValues: int)
    requires Shaped(groups, maxSeries, maxValues) && |Flatten(groups)| <= maxValues
    requires n < |groups| && groups[n] != [] && !IsBig(groups[n][0], maxSeries)
    ensures |Flatten(groups[n..])| >= 2 * (|groups| - n) - 1
  {
    forall i | n <= i < |groups| ensures |groups[i]| >= if i < |groups| - 1 then 2 else 1 {
      assert GroupOk(groups[i], maxSeries, maxValues);
      if i < |groups| - 1 {
        NotAlone(groups, n, i, maxSeries, maxValues);
      }
    }
    AtLeastTwoEach(groups[n..]);
  }

  /**
   * While no bin is closed by its number of values, first-fit decreasing uses at most 3/2 times as
   * many bins as any legal packing of the same values.
   */
  lemma ThreeHalves(groups: seq<Group>, packing: seq<Group>, maxSeries: int, maxValues: int)
    requires Shaped(groups, maxSeries, maxValues) && |Flatten(groups)| <= maxValues
    requires IsPackingOf(packing, Flatten(groups), maxSeries, maxValues)
    ensures 2 * |groups| <= 3 * |packing|
  {
    if groups != [] {
      var n := (2 * |groups| + 2) / 3 - 1;
      assert GroupOk(groups[n], maxSeries, maxValues) && groups[n][0] in groups[n];
      Budget(groups, packing, maxSeries, maxValues);
      if IsBig(groups[n][0], maxSeries) {
        forall i | 0 <= i <= n ensures groups[i] != [] && IsBig(groups[i][0], maxSeries) {
          assert Leads(groups[i], groups[n]);
        }
        BigLeads(groups, n + 1, maxSeries);
      } else {
        SmallTailPays(groups, n, maxSeries, maxValues);
        if |packing| <= n {
          TimesGrows(|packing|, n, maxSeries);
        }
      }
    }
  }

  lemma LaterOverflows(groups: seq<Group>, n: nat, i: nat, x: LabelValueCount, maxSeries: int, maxValues: int)
    requires Shaped(groups, maxSeries, maxValues) && |Flatten(groups)| <= maxValues
    requires i < n < |groups| && x in Flatten(groups[n..])
    ensures Sum(groups[i]) + x.value > maxSeries
  {
    InFlatten(groups[n..], x);
    var g :| g in groups[n..] && x in g;
    var j :| 0 <= j < |groups[n..]| && groups[n..][j] == g;
    Overflows(groups, i, n + j, x, maxSeries, maxValues);
  }

  /** The sum of the bins before n and of those from n on; the latter is at least their number of values. */
  lemma SplitSum(groups: seq<Group>, n: nat, maxSeries: int, maxValues: int)
    requires WithinLimits(groups, maxSeries, maxValues) && n < |groups|
    ensures Sum(Flatten(groups)) == Sum(Flatten(groups[..n])) + Sum(Flatten(groups[n..]))
    ensures forall x :: x in Flatten(groups[n..]) ==> x.value > 0
  {
    PositiveItems(groups, maxSeries, maxValues);
    assert groups == groups[..n] + groups[n..];
    FlattenAppend(groups[..n], groups[n..]);
    SumAppend(Flatten(groups[..n]), Flatten(groups[n..]));
  }

  lemma SmallTailPays(groups: seq<Group>, n: nat, maxSeries: int, maxValues: int)
    requires Shaped(groups, maxSeries, maxValues) && |Flatten(groups)| <= maxValues
    requires n < |groups| && 3 * n <= 2 * |groups| - 1
    requires groups[n] != [] && !IsBig(groups[n][0], maxSeries)
    ensures Sum(Flatten(groups)) > Times(n, maxSeries)
    ensures maxSeries > 0
  {
    var later := Flatten(groups[n..]);
    SmallTail(groups, n, maxSeries, maxValues);
    SplitSum(groups, n, maxSeries, maxValues);
    SumAtLeastLength(later);
    assert GroupOk(groups[n], maxSeries, maxValues) && groups[n][0] in groups[n];
    PairsPay(groups, n, later, maxSeries, maxValues);
    TimesOneMore(n, maxSeries);
  }

  lemma PairsPay(groups: seq<Group>, n: nat, later: Group, maxSeries: int, maxValues: int)
    requires Shaped(groups, maxSeries, maxValues) && |Flatten(groups)| <= maxValues && n < |groups|
    requires later == Flatten(groups[n..]) && n <= |later| && forall x :: x in later ==> x.value > 0
    ensures Sum(Flatten(groups[..n])) + Sum(later) >= Times(n, maxSeries + 1)
  {
    forall i, x | 0 <= i < n && x in later ensures Sum(groups[i]) + x.value > maxSeries {
      LaterOverflows(groups, n, i, x, maxSeries, maxValues);
    }
    PairUp(groups[..n], later, maxSeries);
  }

  // ---------- with both limits ----------

  /** The bins that could still take values, in order. */
  function Open(groups: seq<Group>, maxValues: int): seq<Group> {
    if groups == [] then []
    else (if |groups[0]| < maxValues then [groups[0]] else []) + Open(groups[1..], maxValues)
  }

  lemma {:induction false} OpenSum(groups: seq<Group>, maxValues: int)
    requires forall x :: x in Flatten(groups) ==> x.value > 0
    ensures Sum(Flatten(Open(groups, maxValues))) <= Sum(Flatten(groups))
  {
    if groups != [] {
      var rest := Open(groups[1..], maxValues);
      OpenSum(groups[1..], maxValues);
      SumAppend(groups[0], Flatten(groups[1..]));
      SumAtLeastLength(groups[0]);
      SumAppend(groups[0], Flatten(rest));
      assert ([groups[0]] + rest)[1..] == rest && [] + rest == rest;
    }
  }

  lemma {:induction false} ClosedCount(groups: seq<Group>, maxValues: int)
    ensures |Open(groups, maxValues)| <= |groups|
    ensures Times(|groups| - |Open(groups, maxValues)|, maxValues) <= |Flatten(groups)|
  {
    if groups != [] {
      ClosedCount(groups[1..], maxValues);
    }
  }

  lemma {:induction false} InOpen(groups: seq<Group>, maxValues: int, g: Group)
    requires g in Open(groups, maxValues)
    ensures g in groups && |g| < maxValues
  {
    if !(|groups[0]| < maxValues && g == groups[0]) {
      InOpen(groups[1..], maxValues, g);
    }
  }

  /** Two open bins together hold more than one bin's worth of series. */
  lemma TwoOpen(a: Group, b: Group, maxSeries: int, maxValues: int)
    requires GroupOk(a, maxSeries, maxValues) && GroupOk(b, maxSeries, maxValues)
    requires NoneFit(a, b, maxSeries, maxValues) && |a| < maxValues
    ensures Sum(a) + Sum(b) >= maxSeries + 1
  {
    assert b[0] in b;
    SumAtLeastLength(b[1..]);
  }

  lemma {:induction false} OpenPairs(groups: seq<Group>, maxSeries: int, maxValues: int)
    requires WithinLimits(groups, maxSeries, maxValues) && FirstFit(groups, maxSeries, maxValues)
    requires forall i :: 0 <= i < |groups| ==> |groups[i]| < maxValues
    ensures Sum(Flatten(groups)) >= Times(|groups| / 2, maxSeries + 1)
  {
    PositiveItems(groups, maxSeries, maxValues);
    SumAtLeastLength(Flatten(groups));
    if |groups| >= 2 {
      var rest := groups[2..];
      TwoOpen(groups[0], groups[1], maxSeries, maxValues);
      OpenPairs(rest, maxSeries, maxValues);
      assert groups[1..][1..] == rest;
      SumAppend(groups[0], Flatten(groups[1..]));
      SumAppend(groups[1], Flatten(rest));
      assert |groups| / 2 == |rest| / 2 + 1;
    }
  }

  lemma {:induction false} OpenIsFirstFit(groups: seq<Group>, maxSeries: int, maxValues: int)
    requires WithinLimits(groups, maxSeries, maxValues) && FirstFit(groups, maxSeries, maxValues)
    ensures WithinLimits(Open(groups, maxValues), maxSeries, maxValues)
    ensures FirstFit(Open(groups, maxValues), maxSeries, maxValues)
  {
    if groups != [] {
      var rest := groups[1..];
      var open := Open(rest, maxValues);
      forall i, j | 0 <= i < j < |rest| ensures NoneFit(rest[i], rest[j], maxSeries, maxValues) {
        assert NoneFit(groups[i + 1], groups[j + 1], maxSeries, maxValues);
      }
      OpenIsFirstFit(rest, maxSeries, maxValues);
      forall i | 0 <= i < |open| ensures NoneFit(groups[0], open[i], maxSeries, maxValues) {
        InOpen(rest, maxValues, open[i]);
        var k :| 0 <= k < |rest| && rest[k] == open[i];
        assert NoneFit(groups[0], groups[k + 1], maxSeries, maxValues);
      }
      PrependFirstFit(groups[0], open, maxSeries, maxValues);
    }
  }

  lemma PrependFirstFit(g: Group, open: seq<Group>, maxSeries: int, maxValues: int)
    requires FirstFit(open, maxSeries, maxValues)
    requires forall i :: 0 <= i < |open| ==> NoneFit(g, open[i], maxSeries, maxValues)
    ensures FirstFit([g] + open, maxSeries, maxValues)
    ensures FirstFit([] + open, maxSeries, maxValues)
  {
    assert [] + open == open;
    var all := [g] + open;
    forall i, j | 0 <= i < j < |all| ensures NoneFit(all[i], all[j], maxSeries, maxValues) {
      if i > 0 {
        assert NoneFit(open[i - 1], open[j - 1], maxSeries, maxValues);
      }
    }
  }

  lemma OpenBudget(groups: seq<Group>, maxSeries: int, maxValues: int)
    requires Shaped(groups, maxSeries, maxValues)
    ensures Sum(Flatten(groups)) >= Times(|Open(groups, maxValues)| / 2, maxSeries + 1)
  {
    var open := Open(groups, maxValues);
    PositiveItems(groups, maxSeries, maxValues);
    OpenSum(groups, maxValues);
    OpenIsFirstFit(groups, maxSeries, maxValues);
    forall i | 0 <= i < |open| ensures |open[i]| < maxValues {
      InOpen(groups, maxValues, open[i]);
    }
    OpenPairs(open, maxSeries, maxValues);
  }

  /** With both limits active, first-fit decreasing stays below three times any legal packing. */
  lemma BelowThreeTimes(groups: seq<Group>, packing: seq<Group>, maxSeries: int, maxValues: int)
    requires Shaped(groups, maxSeries, maxValues) && maxValues >= 1 && groups != []
    requires IsPackingOf(packing, Flatten(groups), maxSeries, maxValues)
    ensures |groups| < 3 * |packing|
  {
    var open, k := |Open(groups, maxValues)|, |packing|;
    Budget(groups, packing, maxSeries, maxValues);
    OpenBudget(groups, maxSeries, maxValues);
    ClosedCount(groups, maxValues);
    assert GroupOk(groups[0], maxSeries, maxValues) && groups[0][0] in groups[0];
    OneGroupWithin(groups, 0);
    Counting(|groups|, open, k, Sum(Flatten(groups)), |Flatten(groups)|, maxSeries, maxValues);
  }

  lemma Counting(m: nat, open: nat, k: nat, series: int, values: nat, maxSeries: int, maxValues: int)
    requires maxSeries >= 1 && maxValues >= 1 && values >= 1 && open <= m
    requires Times(m - open, maxValues) <= values <= Times(k, maxValues)
    requires Times(open / 2, maxSeries + 1) <= series <= Times(k, maxSeries)
    ensures m < 3 * k
  {
    if m - open > k {
      TimesGrows(k, m - open, maxValues);
    } else if open / 2 >= k {
      TimesGrows(k, open / 2, maxSeries + 1);
      TimesOneMore(k, maxSeries);
    }
  }

  // ---------- as statements about the bins ----------

  /** The values that can go into a bin. */
  function Fitting(vs: Group, maxSeries: int): Group {
    if vs == [] then [] else (if 0 < vs[0].value <= maxSeries then [vs[0]] else []) + Fitting(vs[1..], maxSeries)
  }

  lemma {:induction false} FittingCount(vs: Group, maxSeries: int, x: LabelValueCount)
    ensures multiset(Fitting(vs, maxSeries))[x] == if 0 < x.value <= maxSeries then multiset(vs)[x] else 0
  {
    if vs != [] {
      assert vs == [vs[0]] + vs[1..];
      FittingCount(vs[1..], maxSeries, x);
    }
  }

  /** Exactly the values that fit are in bins, exactly the larger ones are oversized. */
  lemma EveryValueHasItsPlace(groups: seq<Group>, oversized: Group, values: Group, maxSeries: int, maxValues: int)
    requires Packed(groups, oversized, values, maxSeries, maxValues)
    ensures multiset(Flatten(groups)) == multiset(Fitting(values, maxSeries))
    ensures forall x :: multiset(oversized)[x] == if 0 < x.value && maxSeries < x.value then multiset(values)[x] else 0
  {
    forall x
      ensures multiset(Flatten(groups))[x] == multiset(Fitting(values, maxSeries))[x]
      ensures multiset(oversized)[x] == if 0 < x.value && maxSeries < x.value then multiset(values)[x] else 0
    {
      PlaceOf(groups, oversized, values, maxSeries, maxValues, x);
    }
  }

  lemma PlaceOf(groups: seq<Group>, oversized: Group, values: Group, maxSeries: int, maxValues: int, x: LabelValueCount)
    requires Packed(groups, oversized, values, maxSeries, maxValues)
    ensures multiset(Flatten(groups))[x] == multiset(Fitting(values, maxSeries))[x]
    ensures multiset(oversized)[x] == if 0 < x.value && maxSeries < x.value then multiset(values)[x] else 0
  {
    FittingCount(values, maxSeries, x);
    PositiveCount(values, x);
    assert multiset(Flatten(groups))[x] + multiset(oversized)[x] == multiset(Positive(values))[x];
    InFlatten(groups, x);
    if x in multiset(Flatten(groups)) {
      var g :| g in groups && x in g;
      assert GroupOk(g, maxSeries, maxValues);
    }
    assert x in multiset(oversized) ==> x in oversized;
  }

  /** The number of bins against any legal packing of the values that fit. */
  lemma BinCount(bins: seq<Bin>, oversized: Group, values: Group, packing: seq<Group>, maxSeries: int, maxValues: int)
    requires IsPacked(bins, oversized, values, maxSeries, maxValues)
    requires IsPackingOf(packing, Fitting(values, maxSeries), maxSeries, maxValues)
    ensures |Fitting(values, maxSeries)| <= maxValues ==> 2 * |bins| <= 3 * |packing|
    ensures maxValues >= 1 && bins != [] ==> |bins| < 3 * |packing|
  {
    var groups :| Describes(bins, groups) && Packed(groups, oversized, values, maxSeries, maxValues);
    EveryValueHasItsPlace(groups, oversized, values, maxSeries, maxValues);
    assert |Flatten(groups)| == |multiset(Flatten(groups))| == |Fitting(values, maxSeries)|;
    if |Flatten(groups)| <= maxValues {
      ThreeHalves(groups, packing, maxSeries, maxValues);
    }
    if maxValues >= 1 && bins != [] {
      BelowThreeTimes(groups, packing, maxSeries, maxValues);
    }
  }
}
