/** How well a label splits (scoreLabelDistribution of internal/splitter/splitter.go), without rounding. */
module Scoring {
  import opened BinPacking

  /** The largest count, or 0. */
  function Largest(dist: Group): (m: int)
    ensures m >= 0 && forall i :: 0 <= i < |dist| ==> dist[i].value <= m
    ensures m == 0 || exists i :: 0 <= i < |dist| && dist[i].value == m
  {
    if dist == [] then 0
    else if dist[0].value > Largest(dist[1..]) then dist[0].value
    else Largest(dist[1..])
  }

  /** Half a point for each value, and half the number of largest values that would make up the total. */
  function Score(dist: Group): real {
    if Sum(dist) == 0 || Largest(dist) == 0 then 0.0
    else (|dist| as real + Sum(dist) as real / Largest(dist) as real) / 2.0
  }

  /** The code's formula: granularity, with a bonus for the average count against the largest. */
  function Combined(granularity: real, total: real, largest: real): (score: real)
    requires granularity > 0.0 && largest > 0.0
    ensures score == (granularity + total / largest) / 2.0
  {
    var average := total / granularity;
    var evenness := average / largest;
    EvennessShare(granularity, average, largest);
    granularity * (0.5 + 0.5 * evenness)
  }

  lemma EvennessShare(n: real, average: real, largest: real)
    requires n > 0.0 && largest > 0.0
    ensures n * (0.5 + 0.5 * (average / largest)) == (n + n * average / largest) / 2.0
  {
    var evenness := average / largest;
    assert n * evenness == n * average / largest;
    assert n * (0.5 * evenness) == 0.5 * (n * evenness);
  }

  /** The loop over the counts. */
  method TotalAndLargest(dist: Group) returns (total: int, maxVal: int)
    ensures total == Sum(dist) && maxVal == Largest(dist)
  {
    total, maxVal := 0, 0;
    for i := 0 to |dist|
      invariant total + Sum(dist[i..]) == Sum(dist)
      invariant Largest(dist) == if maxVal > Largest(dist[i..]) then maxVal else Largest(dist[i..])
      invariant maxVal >= 0
    {
      assert dist[i..][1..] == dist[i + 1..];
      total := total + dist[i].value;
      if dist[i].value > maxVal {
        maxVal := dist[i].value;
      }
    }
    assert dist[|dist|..] == [];
  }

  method ScoreLabelDistribution(dist: Group) returns (score: real)
    ensures score == Score(dist)
    ensures Sum(dist) != 0 && Largest(dist) != 0 ==>
              score == (|dist| as real + Sum(dist) as real / Largest(dist) as real) / 2.0
  {
    if |dist| == 0 {
      return 0.0;
    }
    var total, maxVal := TotalAndLargest(dist);
    if total == 0 || maxVal == 0 {
      return 0.0;
    }
    return Combined(|dist| as real, total as real, maxVal as real);
  }

  // ---------- what the score prefers ----------

  predicate AllCounted(dist: Group) {
    dist != [] && forall i :: 0 <= i < |dist| ==> dist[i].value > 0
  }

  predicate AllEqual(dist: Group, count: int) {
    forall i :: 0 <= i < |dist| ==> dist[i].value == count
  }

  /** The sum against the sum of as many copies of an upper bound. */
  lemma {:induction false} SumBelow(dist: Group, bound: int)
    requires forall i :: 0 <= i < |dist| ==> 0 < dist[i].value <= bound
    ensures |dist| <= Sum(dist) <= |dist| * bound
    ensures Sum(dist) == |dist| * bound <==> AllEqual(dist, bound)
  {
    if dist != [] {
      SumBelow(dist[1..], bound);
      assert |dist| * bound == bound + |dist[1..]| * bound;
      assert AllEqual(dist, bound) <==> dist[0].value == bound && AllEqual(dist[1..], bound);
    }
  }

  lemma Cancel(a: real, b: real, c: real)
    requires c > 0.0
    ensures a * c <= b * c <==> a <= b
    ensures a * c == b * c <==> a == b
  {
    assert b * c - a * c == (b - a) * c;
  }

  lemma RatioBounds(total: int, n: int, largest: int)
    requires largest > 0 && 0 < total <= n * largest
    ensures 0.0 < total as real / largest as real <= n as real
    ensures total as real / largest as real == n as real <==> total == n * largest
  {
    var ratio := total as real / largest as real;
    assert ratio * largest as real == total as real;
    assert n as real * largest as real == (n * largest) as real;
    Cancel(ratio, n as real, largest as real);
  }

  /** More than half a point for each value, and a full point for each exactly when all counts are equal. */
  lemma ScoreBounds(dist: Group)
    requires AllCounted(dist)
    ensures |dist| as real / 2.0 < Score(dist) <= |dist| as real
    ensures Score(dist) == |dist| as real <==> AllEqual(dist, Largest(dist))
  {
    assert dist[0].value > 0;
    SumBelow(dist, Largest(dist));
    RatioBounds(Sum(dist), |dist|, Largest(dist));
  }

  /** Twice as many values always win, however uneven they are. */
  lemma TwiceTheValuesWin(a: Group, b: Group)
    requires AllCounted(a) && AllCounted(b) && |a| >= 2 * |b|
    ensures Score(a) > Score(b)
  {
    ScoreBounds(a);
    ScoreBounds(b);
  }
}
