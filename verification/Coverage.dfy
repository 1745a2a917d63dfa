/** Each sample taken up is in exactly one accounted task: what the tasks cover in every reachable state. */
module Coverage {
  import Matchers
  import opened Selectors
  import opened Collections
  import opened Discovery
  import opened Splitting
  import opened TimeRanges
  import opened Tasks
  import opened Protocol
  import opened Ownership
  import opened Liveness
  import opened Origins

  /** The samples a task migrates. */
  predicate InTask(c: Config, t: Task, p: Sample) {
    p in c.source.samples && t.start <= p.at < t.end && Selects(c.source.other, t.selector, p.series)
  }

  function MetricOf(p: Sample): string {
    Get(p.series, NAME)
  }

  /** The samples the migration is about in one range: those of its metrics that match the base selector. */
  predicate InRange(c: Config, r: TimeRange, p: Sample) {
    && p in c.source.samples && Within(p.at, r) && MetricOf(p) in Metrics(c, r)
    && AllHold(c.source.other, Matchers.Split(BaseSelector(c)), p.series)
  }

  /** The samples of the ranges started so far. */
  ghost predicate InScope(c: Config, n: nat, p: Sample) {
    exists j :: 0 <= j < n && j < |c.ranges| && InRange(c, c.ranges[j], p)
  }

  /** The tasks that account for a sample. */
  function Coverers(c: Config, q: Queue, p: Sample): set<string> {
    set id | id in Accounted(q) && id in q.info && InTask(c, q.info[id], p)
  }

  /** A task that was never split still has the selector it was created with. */
  predicate Original(c: Config, t: Task) {
    !t.splitAttempted ==>
      t.selector == BuildOptimisticSelector(t.metric, BaseSelector(c)) && '"' !in t.metric && '\\' !in t.metric
  }

  ghost predicate AllOriginal(c: Config, q: Queue) {
    forall id :: id in q.info ==> Original(c, q.info[id])
  }

  /** Every sample in scope is accounted for by exactly one task, every other sample by none. */
  ghost predicate CoveredOnce(c: Config, q: Queue, n: nat) {
    forall p :: |Coverers(c, q, p)| == if InScope(c, n, p) then 1 else 0
  }

  /** Metric names are printable and the base selector is well formed. */
  ghost predicate Usable(c: Config) {
    && WellFormed(BaseSelector(c))
    && (forall p :: p in c.source.samples ==> '"' !in MetricOf(p) && '\\' !in MetricOf(p))
    && forall i, j, t :: 0 <= i < j < |c.ranges| && Within(t, c.ranges[i]) ==> !Within(t, c.ranges[j])
  }

  /** Every metric that can come up for splitting has labels the printed selectors can express. */
  ghost predicate CanSplit(c: Config) {
    forall t: Task :: FromRange(c, t.metric, t.start, t.end) ==> PrintableIfSplit(c, t)
  }

  ghost predicate CoverageInv(c: Config, s: State) {
    AllOriginal(c, s.queue) && CoveredOnce(c, s.queue, s.range)
  }

  // ---------- one task ----------

  /** The optimistic selector selects the metric's series on which the base selector holds. */
  lemma OptimisticMeans(c: Config, metric: string, s: Series)
    requires WellFormed(BaseSelector(c)) && '"' !in metric && '\\' !in metric
    ensures Selects(c.source.other, BuildOptimisticSelector(metric, BaseSelector(c)), s)
       <==> Get(s, NAME) == metric && AllHold(c.source.other, Matchers.Split(BaseSelector(c)), s)
  {
    PrintersAgree(metric, BaseSelector(c));
    StripOfClean(BaseSelector(c));
    BuildMatchMeans(c.source.other, metric, BaseSelector(c), s);
  }

  lemma MetricIsPlain(c: Config, r: TimeRange, metric: string)
    requires Usable(c) && metric in Metrics(c, r)
    ensures '"' !in metric && '\\' !in metric
  {
    var s :| s in Window(c.source, r.start, r.end).series && Get(s, NAME) == metric;
    var p :| p in c.source.samples && p.series == s;
    assert MetricOf(p) == metric;
  }

  /** A new task covers exactly its metric's samples in scope. */
  lemma OptimisticTaskCovers(c: Config, metric: string, r: TimeRange, p: Sample)
    requires Usable(c) && metric in Metrics(c, r)
    ensures InTask(c, OptimisticTask(c, metric, r), p) <==> InRange(c, r, p) && MetricOf(p) == metric
  {
    MetricIsPlain(c, r, metric);
    OptimisticMeans(c, metric, p.series);
  }

  /** The pieces of a split cover the parent's samples, each once. */
  lemma SubTasksCover(c: Config, t: Task, sels: seq<SelectorInfo>, p: Sample)
    requires Usable(c) && Original(c, t) && !t.splitAttempted && PrintableIfSplit(c, t) && IsResplit(c, t, sels)
    ensures InTask(c, t, p) <==> exists i :: 0 <= i < |sels| && InTask(c, SubTask(c, t, sels[i]), p)
    ensures forall i, j :: 0 <= i < j < |sels| && InTask(c, SubTask(c, t, sels[i]), p) ==>
              !InTask(c, SubTask(c, t, sels[j]), p)
  {
    var db := JobFor(c, t).db;
    var parts := Parts(db, sels);
    PrintersAgree(t.metric, BaseSelector(c));
    StripOfClean(BaseSelector(c));
    if p in c.source.samples && t.start <= p.at < t.end {
      assert p.series in db.series;
      forall i | 0 <= i < |sels| ensures InTask(c, SubTask(c, t, sels[i]), p) <==> p.series in parts[i] {
        assert db.selects(sels[i].selector, p.series) == Selects(c.source.other, sels[i].selector, p.series);
      }
      assert db.selects(t.selector, p.series) == Selects(c.source.other, t.selector, p.series);
      assert InTask(c, t, p) <==> p.series in Matching(JobFor(c, t), BaseSelector(c));
    }
  }

  // ---------- the queue operations ----------

  /** Operations that neither add nor drop work. */
  lemma SameCoverage(c: Config, q: Queue, q': Queue, n: nat)
    requires AllOriginal(c, q) && CoveredOnce(c, q, n) && KeepsWork(q, q')
    ensures AllOriginal(c, q') && CoveredOnce(c, q', n)
  {
    forall p ensures Coverers(c, q', p) == Coverers(c, q, p) {
    }
  }

  /** The new tasks that account for a sample. */
  function NewCoverers(c: Config, ids: seq<string>, ts: seq<Task>, p: Sample): set<string>
    requires |ids| == |ts|
  {
    set i | 0 <= i < |ids| && InTask(c, ts[i], p) :: ids[i]
  }

  lemma BatchCovers(c: Config, q: Queue, q': Queue, ids: seq<string>, ts: seq<Task>, batch: map<string, Task>,
                    gone: set<string>, p: Sample)
    requires |ids| == |ts| && IsBatch(q, ids, batch) && q'.info == q.info + batch
    requires forall i :: 0 <= i < |ids| ==> ids[i] in batch && batch[ids[i]] == ts[i]
    requires forall id :: id in Accounted(q') <==> (id in Accounted(q) && id !in gone) || id in ids
    requires Accounted(q) <= q.info.Keys
    ensures Coverers(c, q', p) == (Coverers(c, q, p) - gone) + NewCoverers(c, ids, ts, p)
    ensures Coverers(c, q, p) !! NewCoverers(c, ids, ts, p)
  {
    forall id ensures id in Coverers(c, q', p) <==> id in (Coverers(c, q, p) - gone) + NewCoverers(c, ids, ts, p) {
      if id in ids {
        var i :| 0 <= i < |ids| && ids[i] == id;
        assert id in batch && batch[ids[i]] == ts[i];
      }
      assert id in NewCoverers(c, ids, ts, p) ==> id in ids && id in batch;
    }
  }

  lemma NoNewCoverers(c: Config, ids: seq<string>, ts: seq<Task>, p: Sample)
    requires |ids| == |ts| && forall i :: 0 <= i < |ts| ==> !InTask(c, ts[i], p)
    ensures NewCoverers(c, ids, ts, p) == {}
  {
  }

  lemma OneNewCoverer(c: Config, ids: seq<string>, ts: seq<Task>, p: Sample, i: nat)
    requires |ids| == |ts| && i < |ts| && InTask(c, ts[i], p)
    requires forall j :: 0 <= j < |ts| && j != i ==> !InTask(c, ts[j], p)
    ensures NewCoverers(c, ids, ts, p) == {ids[i]}
  {
  }

  lemma AccountedIsKnown(q: Queue)
    requires Tracked(q)
    ensures Accounted(q) <= q.info.Keys
  {
    forall id | id in Accounted(q) ensures id in q.info {
      assert IdOk(q, id);
    }
  }

  /** Splitting a task moves its samples to the sub-tasks, each to one. */
  lemma ReplaceCovers(c: Config, q: Queue, n: nat, id: string, sels: seq<SelectorInfo>,
                      ids: seq<string>, batch: map<string, Task>)
    requires Usable(c) && Tracked(q) && AllOriginal(c, q) && CoveredOnce(c, q, n)
    requires id in q.running && id in q.info && !q.info[id].splitAttempted
    requires PrintableIfSplit(c, q.info[id]) && IsResplit(c, q.info[id], sels)
    requires |ids| == |sels| && IsBatch(q, ids, batch)
    requires forall i :: 0 <= i < |ids| ==> ids[i] in batch && batch[ids[i]] == SubTasks(c, q.info[id], sels)[i]
    ensures AllOriginal(c, Replace(q, id, ids, batch)) && CoveredOnce(c, Replace(q, id, ids, batch), n)
  {
    SubTasksCoverAll(c, q.info[id], sels);
    SubTasksAreOriginal(c, q.info[id], sels);
    ReplaceMoves(c, q, n, id, ids, SubTasks(c, q.info[id], sels), batch);
  }

  lemma SubTasksAreOriginal(c: Config, t: Task, sels: seq<SelectorInfo>)
    ensures forall i :: 0 <= i < |sels| ==> Original(c, SubTasks(c, t, sels)[i])
  {
  }

  lemma ReplaceMoves(c: Config, q: Queue, n: nat, id: string, ids: seq<string>, ts: seq<Task>,
                     batch: map<string, Task>)
    requires Tracked(q) && AllOriginal(c, q) && CoveredOnce(c, q, n) && id in q.running && id in q.info
    requires |ids| == |ts| && IsBatch(q, ids, batch)
    requires forall i :: 0 <= i < |ids| ==> ids[i] in batch && batch[ids[i]] == ts[i]
    requires forall i :: 0 <= i < |ts| ==> Original(c, ts[i])
    requires forall p :: InTask(c, q.info[id], p) <==> exists i :: 0 <= i < |ts| && InTask(c, ts[i], p)
    requires forall p, i, j :: 0 <= i < j < |ts| && InTask(c, ts[i], p) ==> !InTask(c, ts[j], p)
    ensures AllOriginal(c, Replace(q, id, ids, batch)) && CoveredOnce(c, Replace(q, id, ids, batch), n)
  {
    var q' := Replace(q, id, ids, batch);
    AccountedIsKnown(q);
    ReplaceAccounts(q, id, ids, batch);
    SplitMoves(c, q, q', n, id, ids, ts, batch);
    BatchIsOriginal(c, q, q', ids, ts, batch);
  }

  /** A sample of the replaced task goes to exactly one of the new tasks, any other stays where it is. */
  lemma SampleMoves(c: Config, q: Queue, q': Queue, id: string, ids: seq<string>, ts: seq<Task>,
                    batch: map<string, Task>, p: Sample)
    requires |ids| == |ts| && IsBatch(q, ids, batch) && q'.info == q.info + batch
    requires forall i :: 0 <= i < |ids| ==> ids[i] in batch && batch[ids[i]] == ts[i]
    requires forall k :: k in Accounted(q') <==> (k in Accounted(q) && k != id) || k in ids
    requires id in Accounted(q) && Accounted(q) <= q.info.Keys && |Coverers(c, q, p)| <= 1
    requires InTask(c, q.info[id], p) <==> exists i :: 0 <= i < |ts| && InTask(c, ts[i], p)
    requires forall i, j :: 0 <= i < j < |ts| && InTask(c, ts[i], p) ==> !InTask(c, ts[j], p)
    ensures |Coverers(c, q', p)| == |Coverers(c, q, p)|
  {
    BatchCovers(c, q, q', ids, ts, batch, {id}, p);
    NewCoverersOfSplit(c, q.info[id], ids, ts, p);
    MovedSize(Coverers(c, q, p), Coverers(c, q', p), id, NewCoverers(c, ids, ts, p));
  }

  lemma SplitMoves(c: Config, q: Queue, q': Queue, n: nat, id: string, ids: seq<string>, ts: seq<Task>,
                   batch: map<string, Task>)
    requires |ids| == |ts| && IsBatch(q, ids, batch) && q'.info == q.info + batch
    requires forall i :: 0 <= i < |ids| ==> ids[i] in batch && batch[ids[i]] == ts[i]
    requires forall k :: k in Accounted(q') <==> (k in Accounted(q) && k != id) || k in ids
    requires id in Accounted(q) && Accounted(q) <= q.info.Keys && CoveredOnce(c, q, n)
    requires forall p :: InTask(c, q.info[id], p) <==> exists i :: 0 <= i < |ts| && InTask(c, ts[i], p)
    requires forall p, i, j :: 0 <= i < j < |ts| && InTask(c, ts[i], p) ==> !InTask(c, ts[j], p)
    ensures CoveredOnce(c, q', n)
  {
    forall p ensures |Coverers(c, q', p)| == |Coverers(c, q, p)| {
      assert |Coverers(c, q, p)| <= 1;
      SampleMoves(c, q, q', id, ids, ts, batch, p);
    }
  }

  lemma MovedSize(before: set<string>, after: set<string>, id: string, added: set<string>)
    requires |before| <= 1 && after == (before - {id}) + added && before !! added
    requires |added| == if id in before then 1 else 0
    ensures |after| == |before|
  {
    if id in before {
      SmallerSet({id}, before);
      assert before == {id};
      assert after == added;
    } else {
      assert before - {id} == before && added == {};
    }
  }

  lemma NewCoverersOfSplit(c: Config, t: Task, ids: seq<string>, ts: seq<Task>, p: Sample)
    requires |ids| == |ts|
    requires InTask(c, t, p) <==> exists i :: 0 <= i < |ts| && InTask(c, ts[i], p)
    requires forall i, j :: 0 <= i < j < |ts| && InTask(c, ts[i], p) ==> !InTask(c, ts[j], p)
    ensures |NewCoverers(c, ids, ts, p)| == if InTask(c, t, p) then 1 else 0
  {
    if InTask(c, t, p) {
      var i :| 0 <= i < |ts| && InTask(c, ts[i], p);
      OneNewCoverer(c, ids, ts, p, i);
    } else {
      NoNewCoverers(c, ids, ts, p);
    }
  }

  lemma SubTasksCoverAll(c: Config, t: Task, sels: seq<SelectorInfo>)
    requires Usable(c) && Original(c, t) && !t.splitAttempted && PrintableIfSplit(c, t) && IsResplit(c, t, sels)
    ensures var ts := SubTasks(c, t, sels);
            && (forall p :: InTask(c, t, p) <==> exists i :: 0 <= i < |ts| && InTask(c, ts[i], p))
            && forall p, i, j :: 0 <= i < j < |ts| && InTask(c, ts[i], p) ==> !InTask(c, ts[j], p)
  {
    var ts := SubTasks(c, t, sels);
    forall p ensures InTask(c, t, p) <==> exists i :: 0 <= i < |ts| && InTask(c, ts[i], p) {
      SubTasksCover(c, t, sels, p);
    }
    forall p, i, j | 0 <= i < j < |ts| && InTask(c, ts[i], p) ensures !InTask(c, ts[j], p) {
      SubTasksCover(c, t, sels, p);
      assert ts[i] == SubTask(c, t, sels[i]) && ts[j] == SubTask(c, t, sels[j]);
    }
  }

  lemma BatchIsOriginal(c: Config, q: Queue, q': Queue, ids: seq<string>, ts: seq<Task>, batch: map<string, Task>)
    requires AllOriginal(c, q) && q'.info == q.info + batch && |ids| == |ts| && IsBatch(q, ids, batch)
    requires forall i :: 0 <= i < |ids| ==> ids[i] in batch && batch[ids[i]] == ts[i]
    requires forall i :: 0 <= i < |ts| ==> Original(c, ts[i])
    ensures AllOriginal(c, q')
  {
    forall k | k in q'.info ensures Original(c, q'.info[k]) {
      if k in batch {
        assert k in ids;
        var i :| 0 <= i < |ids| && ids[i] == k;
        assert batch[ids[i]] == ts[i];
      }
    }
  }

  /** Starting a range adds exactly its samples, one task per metric. */
  lemma AddCovers(c: Config, q: Queue, n: nat, metrics: seq<string>, ids: seq<string>, batch: map<string, Task>)
    requires Usable(c) && Tracked(q) && AllOriginal(c, q) && CoveredOnce(c, q, n) && n < |c.ranges|
    requires NoDuplicates(metrics) && Elements(metrics) == Metrics(c, c.ranges[n])
    requires |ids| == |metrics| && IsBatch(q, ids, batch)
    requires forall i :: 0 <= i < |ids| ==>
            ids[i] in batch && batch[ids[i]] == OptimisticTasks(c, metrics, c.ranges[n])[i]
    ensures AllOriginal(c, Add(q, ids, batch)) && CoveredOnce(c, Add(q, ids, batch), n + 1)
  {
    var q', r := Add(q, ids, batch), c.ranges[n];
    var ts := OptimisticTasks(c, metrics, r);
    AccountedIsKnown(q);
    AddAccounts(q, ids, batch);
    forall p ensures |Coverers(c, q', p)| == if InScope(c, n + 1, p) then 1 else 0 {
      BatchCovers(c, q, q', ids, ts, batch, {}, p);
      NewCoverersOfRange(c, metrics, r, ids, p);
      NextScope(c, n, p);
      assert |Coverers(c, q, p)| == if InScope(c, n, p) then 1 else 0;
    }
    forall i | 0 <= i < |ts| ensures Original(c, ts[i]) {
      assert metrics[i] in Elements(metrics);
      MetricIsPlain(c, r, metrics[i]);
    }
    BatchIsOriginal(c, q, q', ids, ts, batch);
  }

  lemma NewCoverersOfRange(c: Config, metrics: seq<string>, r: TimeRange, ids: seq<string>, p: Sample)
    requires Usable(c) && NoDuplicates(metrics) && Elements(metrics) == Metrics(c, r) && |ids| == |metrics|
    ensures |NewCoverers(c, ids, OptimisticTasks(c, metrics, r), p)| == if InRange(c, r, p) then 1 else 0
  {
    var ts := OptimisticTasks(c, metrics, r);
    forall i | 0 <= i < |ts| ensures InTask(c, ts[i], p) <==> InRange(c, r, p) && MetricOf(p) == metrics[i] {
      assert metrics[i] in Elements(metrics);
      OptimisticTaskCovers(c, metrics[i], r, p);
    }
    if InRange(c, r, p) {
      assert MetricOf(p) in Elements(metrics);
      var i :| 0 <= i < |metrics| && metrics[i] == MetricOf(p);
      OneNewCoverer(c, ids, ts, p, i);
    } else {
      NoNewCoverers(c, ids, ts, p);
    }
  }

  lemma NextScope(c: Config, n: nat, p: Sample)
    requires Usable(c) && n < |c.ranges|
    ensures InScope(c, n + 1, p) <==> InScope(c, n, p) || InRange(c, c.ranges[n], p)
    ensures !(InScope(c, n, p) && InRange(c, c.ranges[n], p))
  {
    if InScope(c, n + 1, p) {
      var j :| 0 <= j < n + 1 && j < |c.ranges| && InRange(c, c.ranges[j], p);
      assert j < n ==> InScope(c, n, p);
    }
    if InScope(c, n, p) {
      var j :| 0 <= j < n && j < |c.ranges| && InRange(c, c.ranges[j], p);
      assert InScope(c, n + 1, p) && Within(p.at, c.ranges[j]);
    }
  }

  // ---------- every step ----------

  lemma InitCovers(c: Config, s: State)
    requires Init(c, s)
    ensures CoverageInv(c, s)
  {
    assert forall p :: Coverers(c, EMPTY, p) == {};
  }

  lemma StartRangeCovers(c: Config, s: State, metrics: seq<string>)
    requires Usable(c) && CoverageInv(c, s) && Tracked(s.queue) && AllNumbered(s) && s.range < |c.ranges|
    requires NoDuplicates(metrics) && Elements(metrics) == Metrics(c, c.ranges[s.range])
    ensures CoverageInv(c, DoStartRange(c, s, metrics))
  {
    var ts := OptimisticTasks(c, metrics, c.ranges[s.range]);
    var ids, batch := NewIds(s.counter, |ts|), Batch(s.counter, ts);
    BatchIsNew(s, ts, ids, batch);
    BatchHas(s.counter, ts);
    AddCovers(c, s.queue, s.range, metrics, ids, batch);
    if metrics == [] {
      assert batch == map[] && ids == [];
      assert s.queue.info + batch == s.queue.info;
      assert s.queue.tasks + ids == s.queue.tasks && s.queue.pending + ids == s.queue.pending;
    }
  }

  lemma ResplitCovers(c: Config, s: State, id: string, sels: seq<SelectorInfo>)
    requires Usable(c) && CoverageInv(c, s) && Tracked(s.queue) && AllNumbered(s)
    requires id in s.queue.running && id in s.queue.info && !s.queue.info[id].splitAttempted
    requires PrintableIfSplit(c, s.queue.info[id]) && IsResplit(c, s.queue.info[id], sels)
    ensures var ts := SubTasks(c, s.queue.info[id], sels);
            var q' := Replace(s.queue, id, NewIds(s.counter, |ts|), Batch(s.counter, ts));
            AllOriginal(c, q') && CoveredOnce(c, q', s.range)
  {
    var ts := SubTasks(c, s.queue.info[id], sels);
    var ids, batch := NewIds(s.counter, |ts|), Batch(s.counter, ts);
    BatchIsNew(s, ts, ids, batch);
    BatchHas(s.counter, ts);
    ReplaceCovers(c, s.queue, s.range, id, sels, ids, batch);
  }

  lemma HandledResplitCovers(c: Config, s: State, sels: seq<SelectorInfo>)
    requires Usable(c) && CoverageInv(c, s) && Tracked(s.queue) && AllNumbered(s)
    requires Sane(s) && s.pc.Handling? && s.pc.message.id in s.queue.running
    requires MayResplit(s.queue, s.pc.message) && IsResplit(c, s.queue.info[s.pc.message.id], sels)
    requires PrintableIfSplit(c, s.queue.info[s.pc.message.id])
    ensures CoverageInv(c, DoHandle(c, s, Some(sels)))
  {
    ResplitCovers(c, s, s.pc.message.id, sels);
  }

  lemma PlainStepCovers(c: Config, s: State, step: Step, s': State)
    requires CoverageInv(c, s) && Takes(c, s, step, s') && IsPlain(step)
    requires s.pc.Handling? ==> s.pc.message.id in s.queue.running
    ensures CoverageInv(c, s')
  {
    PlainStepKeepsWork(c, s, step, s');
    SameCoverage(c, s.queue, s'.queue, s.range);
  }

  /** A task of the queue can be split when the configuration allows splitting. */
  lemma TaskIsPrintable(c: Config, q: Queue, id: string)
    requires CanSplit(c) && AllFromRanges(c, q) && id in q.info
    ensures PrintableIfSplit(c, q.info[id])
  {
    assert Stems(c, q.info[id]);
  }

  /** The handled task is running, and its selectors say what is meant if it can be split. */
  ghost predicate HandlesSplittable(c: Config, s: State) {
    s.pc.Handling? ==> s.pc.message.id in s.queue.running
                       && (s.pc.message.id in s.queue.info ==> PrintableIfSplit(c, s.queue.info[s.pc.message.id]))
  }

  lemma SplittableHandled(c: Config, s: State)
    requires CanSplit(c) && AllFromRanges(c, s.queue)
    requires s.pc.Handling? ==> s.pc.message.id in s.queue.running
    ensures HandlesSplittable(c, s)
  {
    if s.pc.Handling? && s.pc.message.id in s.queue.info {
      TaskIsPrintable(c, s.queue, s.pc.message.id);
    }
  }

  lemma ResplitStepCovers(c: Config, s: State, step: Step, s': State)
    requires Usable(c) && CoverageInv(c, s) && Tracked(s.queue) && AllNumbered(s) && Takes(c, s, step, s')
    requires step.Handle? && step.resplit.Some? && HandlesSplittable(c, s)
    ensures CoverageInv(c, s')
  {
    HandledResplitCovers(c, s, step.resplit.value);
  }

  lemma StartStepCovers(c: Config, s: State, step: Step, s': State)
    requires Usable(c) && CoverageInv(c, s) && Tracked(s.queue) && AllNumbered(s) && Takes(c, s, step, s')
    requires step.StartRange?
    ensures CoverageInv(c, s')
  {
    StartRangeCovers(c, s, step.metrics);
  }

  lemma StepCovers(c: Config, s: State, step: Step, s': State)
    requires Usable(c) && CoverageInv(c, s) && Tracked(s.queue) && AllNumbered(s) && Takes(c, s, step, s')
    requires HandlesSplittable(c, s)
    ensures CoverageInv(c, s')
  {
    if IsPlain(step) {
      PlainStepCovers(c, s, step, s');
    } else if step.StartRange? {
      StartStepCovers(c, s, step, s');
    } else {
      ResplitStepCovers(c, s, step, s');
    }
  }

  lemma {:induction false} RunCovers(c: Config, run: seq<State>)
    requires IsRun(c, run) && c.workers >= 1 && Usable(c) && CanSplit(c)
    ensures CoverageInv(c, run[|run| - 1])
  {
    if |run| == 1 {
      InitCovers(c, run[0]);
    } else {
      var before, step := LastStep(c, run);
      RunCovers(c, before);
      RunKeepsInv(c, before);
      RunOrigin(c, before);
      if before[|before| - 1].pc.Handling? {
        HandledTaskIsRunning(c, before[|before| - 1]);
      }
      SplittableHandled(c, before[|before| - 1]);
      StepCovers(c, run[|run| - 2], step, run[|run| - 1]);
    }
  }
}
