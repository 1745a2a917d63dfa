/**
 * The source database, and the discovery client as exact answers about it
 * (internal/discovery/client.go without HTTP).
 */
module Discovery {
  import opened Selectors
  import opened BinPacking
  import opened Collections

  /** One point of a series. */
  datatype Sample = Sample(series: Series, at: int)

  /** The whole source, and how it reads matchers that are not interpreted here. */
  datatype Source = Source(samples: set<Sample>, other: Reader)

  /**
   * The source as seen in one time range: the series with a sample in it, and the query engine that
   * answers which of them a selector text selects.
   */
  datatype Db = Db(series: set<Series>, other: Reader, selects: (string, Series) -> bool)

  /** The engine reads selector text as `Selects` does. */
  ghost predicate Faithful(db: Db) {
    forall text, s {:trigger Selects(db.other, text, s)} :: db.selects(text, s) == Selects(db.other, text, s)
  }

  function Window(src: Source, start: int, end: int): (db: Db)
    ensures Faithful(db)
  {
    Db(set p | p in src.samples && start <= p.at < end :: p.series, src.other,
       (text, s) => Selects(src.other, text, s))
  }

  function Found(db: Db, selector: string): set<Series> {
    set s | s in db.series && db.selects(selector, s)
  }

  function GetSeriesCount(db: Db, selector: string): nat {
    |Found(db, selector)|
  }

  function WithValue(found: set<Series>, key: string, value: string): set<Series> {
    set s | s in found && Get(s, key) == value
  }

  /** The number of values a distribution is asked for. */
  const TOP_N := 100000

  /** The non-empty values of a label. */
  function ValuesOf(found: set<Series>, key: string): set<string> {
    set s | s in found && Get(s, key) != "" :: Get(s, key)
  }

  /** Each entry is a non-empty value of the label, listed once, with the number of series that carry it. */
  ghost predicate Lists(found: set<Series>, key: string, dist: Group) {
    && NoDuplicates(Names(dist))
    && forall i :: 0 <= i < |dist| ==>
         && dist[i].name in ValuesOf(found, key)
         && dist[i].value == |WithValue(found, key, dist[i].name)|
  }

  /** As many entries as the cap allows, and none that is left out is more frequent than one that is listed. */
  ghost predicate IsTop(found: set<Series>, key: string, dist: Group) {
    && Lists(found, key, dist)
    && |dist| == (if |ValuesOf(found, key)| <= TOP_N then |ValuesOf(found, key)| else TOP_N)
    && forall i, v :: 0 <= i < |dist| && v in ValuesOf(found, key) && v !in Names(dist) ==>
         |WithValue(found, key, v)| <= dist[i].value
  }

  /** Every value is listed. */
  ghost predicate IsDistribution(found: set<Series>, key: string, dist: Group) {
    Lists(found, key, dist) && Elements(Names(dist)) == ValuesOf(found, key)
  }

  lemma ListedAreValues(found: set<Series>, key: string, dist: Group)
    requires Lists(found, key, dist)
    ensures Elements(Names(dist)) <= ValuesOf(found, key) && |Elements(Names(dist))| == |dist|
  {
    forall v | v in Elements(Names(dist)) ensures v in ValuesOf(found, key) {
      var i :| 0 <= i < |dist| && Names(dist)[i] == v;
    }
    CountElements(Names(dist));
  }

  /** Within the cap the distribution is whole, above it never. */
  lemma CapIsHarmlessIff(found: set<Series>, key: string, dist: Group)
    requires IsTop(found, key, dist)
    ensures IsDistribution(found, key, dist) <==> |ValuesOf(found, key)| <= 100000
  {
    ListedAreValues(found, key, dist);
    SmallerSet(Elements(Names(dist)), ValuesOf(found, key));
  }

  lemma {:induction false} MostFrequentExists(found: set<Series>, key: string, values: set<string>)
    returns (v: string)
    requires values != {}
    ensures v in values && forall w :: w in values ==> |WithValue(found, key, w)| <= |WithValue(found, key, v)|
    decreases values
  {
    var x :| x in values;
    v := x;
    if values != {x} {
      var y := MostFrequentExists(found, key, values - {x});
      if |WithValue(found, key, x)| < |WithValue(found, key, y)| {
        v := y;
      }
    }
  }

  /** The server's answer: the most frequent values of the label, up to the cap. */
  method GetSeriesDistribution(db: Db, selector: string, key: string) returns (dist: Group)
    ensures IsTop(Found(db, selector), key, dist)
  {
    var found := Found(db, selector);
    var values := ValuesOf(found, key);
    var names := MostFrequentValues(found, key, values);
    dist := seq(|names|, i requires 0 <= i < |names| => LabelValueCount(names[i], |WithValue(found, key, names[i])|));
    assert Names(dist) == names;
    assert forall i :: 0 <= i < |names| ==> names[i] in Elements(names);
    CountElements(names);
  }

  method MostFrequentValues(found: set<Series>, key: string, values: set<string>) returns (names: seq<string>)
    ensures NoDuplicates(names) && Elements(names) <= values
    ensures |names| == (if |values| <= TOP_N then |values| else TOP_N)
    ensures forall x, y :: x in names && y in values && y !in names ==>
              |WithValue(found, key, y)| <= |WithValue(found, key, x)|
  {
    names := [];
    var rest := values;
    while rest != {} && |names| < TOP_N
      invariant NoDuplicates(names) && Elements(names) == values - rest && rest <= values
      invariant |names| + |rest| == |values| && |names| <= TOP_N
      invariant forall x, y :: x in names && y in rest ==> |WithValue(found, key, y)| <= |WithValue(found, key, x)|
      decreases rest
    {
      ghost var most := MostFrequentExists(found, key, rest);
      var v :| v in rest && forall w :: w in rest ==> |WithValue(found, key, w)| <= |WithValue(found, key, v)|;
      assert v !in Elements(names);
      ElementsAppend(names, [v]);
      assert Elements([v]) == {v};
      names := names + [v];
      rest := rest - {v};
    }
    forall y | y in values && y !in names ensures y in rest {
      assert y !in Elements(names);
    }
  }

  function LabelsOf(found: set<Series>): set<string> {
    set s, l | s in found && l in s :: l
  }

  method DiscoverLabels(db: Db, metric: string, baseSelector: string) returns (labels: seq<string>)
    ensures Elements(labels) == LabelsOf(Found(db, BuildMatchSelector(metric, baseSelector)))
  {
    labels := Enumerate(LabelsOf(Found(db, BuildMatchSelector(metric, baseSelector))));
  }

  /** The metric names of the series a filter selects. */
  method DiscoverMetrics(db: Db, filter: string) returns (metrics: seq<string>)
    ensures NoDuplicates(metrics)
    ensures Elements(metrics) == set s | s in Found(db, filter) && Get(s, NAME) != "" :: Get(s, NAME)
  {
    metrics := Enumerate(set s | s in Found(db, filter) && Get(s, NAME) != "" :: Get(s, NAME));
  }
}
