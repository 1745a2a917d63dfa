/**
 * The coordinator object of internal/orchestrator/orchestrator.go. The ghost states s and s' are what the
 * objects hold before and after a method: each method takes a step, or a run of steps, of the protocol,
 * and `Others` lets the goroutines and servers move between any two of the coordinator's actions.
 */
module Orchestrator {
  import opened Selectors
  import opened Filters
  import opened Collections
  import opened Discovery
  import opened Splitting
  import opened Plans
  import opened Splitter
  import opened TimeRanges
  import opened Identifiers
  import opened Tasks
  import opened TaskQueues
  import opened Workers
  import opened Protocol
  import opened Ownership
  import opened Liveness
  import opened Migration
  import opened Runs
  import opened Scope
  import opened World

  /** The records of a list of task objects. */
  ghost function RecordsOf(ts: seq<MigrationTask>): (r: seq<Task>)
    reads ts
    ensures |r| == |ts| && forall i :: 0 <= i < |ts| ==> r[i] == ts[i].Record()
  {
    seq(|ts|, i requires 0 <= i < |ts| reads ts => ts[i].Record())
  }

  /** New task objects as the counter numbers them. */
  ghost predicate IsNumberedBatch(ts: seq<MigrationTask>, counter: nat, records: seq<Task>)
    reads ts
  {
    var ids := NewIds(counter, |ts|);
    Ids(ts) == ids && RecordsOf(ts) == records
  }

  lemma OneMoreTask(ts: seq<MigrationTask>, t: MigrationTask, counter: nat, records: seq<Task>)
    requires IsNumberedBatch(ts, counter, records) && t.id == TaskId(counter + 1 + |ts|)
    ensures IsNumberedBatch(ts + [t], counter, records + [t.Record()])
  {
    assert Ids(ts + [t]) == NewIds(counter, |ts| + 1);
    assert RecordsOf(ts + [t]) == records + [t.Record()];
  }

  /** The task objects of the first metrics of a range. */
  ghost predicate AreOptimistic(c: Config, ts: seq<MigrationTask>, counter: nat, metrics: seq<string>, r: TimeRange)
    reads ts
  {
    IsNumberedBatch(ts, counter, OptimisticTasks(c, metrics, r))
  }

  lemma OptimisticSnoc(c: Config, metrics: seq<string>, r: TimeRange, i: nat)
    requires i < |metrics|
    ensures OptimisticTasks(c, metrics[..i + 1], r)
         == OptimisticTasks(c, metrics[..i], r) + [OptimisticTask(c, metrics[i], r)]
  {
  }

  lemma OneMoreOptimistic(c: Config, ts: seq<MigrationTask>, t: MigrationTask, counter: nat, metrics: seq<string>,
                          r: TimeRange, i: nat)
    requires i < |metrics| && AreOptimistic(c, ts, counter, metrics[..i], r) && |ts| == i
    requires t.id == TaskId(counter + 1 + i) && t.Record() == OptimisticTask(c, metrics[i], r)
    ensures AreOptimistic(c, ts + [t], counter, metrics[..i + 1], r)
  {
    OneMoreTask(ts, t, counter, OptimisticTasks(c, metrics[..i], r));
    OptimisticSnoc(c, metrics, r, i);
  }

  /** The queue of a known state takes a numbered batch as new tasks. */
  lemma NumberedBatchIsNew(s: State, n: nat)
    requires AllNumbered(s)
    ensures NoDuplicates(NewIds(s.counter, n)) && forall id :: id in NewIds(s.counter, n) ==> id !in s.queue.info
  {
    IdsDiffer(s.counter, n);
    forall id | id in NewIds(s.counter, n) ensures id !in s.queue.info {
      NewIdsAreNew(s, n, id);
    }
  }

  lemma RecordsAreBatch(queue: TaskQueue, ts: seq<MigrationTask>, counter: nat, records: seq<Task>)
    requires IsNumberedBatch(ts, counter, records) && NoDuplicates(Ids(ts))
    ensures queue.Records(ts) == Batch(counter, records)
  {
    BatchHas(counter, records);
    var m, batch := queue.Records(ts), Batch(counter, records);
    assert forall id :: id in m <==> id in batch;
    forall id | id in m ensures m[id] == batch[id] {
      var i :| 0 <= i < |ts| && Ids(ts)[i] == id;
      assert m[ts[i].id] == ts[i].Record() == RecordsOf(ts)[i];
      assert batch[NewIds(counter, |ts|)[i]] == records[i];
    }
  }

  /** The queue after a failure: with the pieces in the task's place, or the failure counted. */
  ghost function AfterFailure(c: Config, s: State, id: string, reason: string, sels: seq<SelectorInfo>): Queue
    requires s.queue.running <= s.queue.info.Keys && id in s.queue.running
  {
    if sels == [] then Tasks.Fail(s.queue, id, reason)
    else
      var ts := SubTasks(c, s.queue.info[id], sels);
      Replace(s.queue, id, NewIds(s.counter, |ts|), Batch(s.counter, ts))
  }

  /** The printed selectors say what is meant and only the metric name is excluded from splitting. */
  ghost predicate SplitsBelowLimit(c: Config, t: Task) {
    && WellFormed(BaseSelector(c)) && Printable(JobFor(c, t))
    && c.excludedLabels == {NAME} && c.maxSeries(t.metric) >= 1
  }

  /** When only the metric name is excluded, more series than the limit are enough. */
  lemma BelowLimitMustSplitIff(c: Config, t: Task, fastCount: Option<int>)
    requires SplitsBelowLimit(c, t) && !InLimit(c, t.metric, fastCount)
    ensures MustSplit(c, t, fastCount) <==> |Matching(JobFor(c, t), BaseSelector(c))| > c.maxSeries(t.metric)
  {
    var job, base := JobFor(c, t), BaseSelector(c);
    MatchingIsOfMetric(job, base);
    if Indivisible(Matching(job, base), job.excluded) {
      IndivisibleIsSingle(job, Matching(job, base));
    }
  }

  lemma HandledTaskIsKnown(c: Config, s: State)
    requires Reachable(c, s) && c.workers >= 1 && s.pc.Handling?
    ensures Sane(s) && AllNumbered(s) && s.pc.message.id in s.queue.running
  {
    ReachableIsKnown(c, s);
  }

  /** The goroutines moved and the coordinator did not. */
  ghost predicate SameCoordinator(s: State, s': State) {
    s' == s.(flights := s'.flights, servers := s'.servers, channel := s'.channel, busy := s'.busy)
  }

  lemma WaitingCanMove(c: Config, s: State)
    requires Reachable(c, s) && c.workers >= 1 && s.pc == AtHead && !IsComplete(s.queue) && s.channel == []
    ensures s.flights.Keys != {}
  {
    ReachableInv(c, s);
    assert s.queue.running != {};
    var id :| id in s.queue.running;
    assert TaskOwned(s, id);
  }

  /** Going on never undoes what was brought down. */
  lemma StaysBelow(c: Config, s: State, mid: State, s': State)
    requires Reachable(c, mid) && Follows(c, mid, s') && c.workers >= 1 && Below(Rank(c, mid), Rank(c, s))
    requires Follows(c, s, mid)
    ensures Below(Rank(c, s'), Rank(c, s)) && Follows(c, s, s')
  {
    FollowsRank(c, mid, s');
    FollowsOn(c, s, mid, s');
  }

  lemma BetweenIsQuiet(c: Config, s: State)
    requires Reachable(c, s) && c.workers >= 1 && s.pc == Between
    ensures s.channel == [] && AllNumbered(s)
  {
    ReachableInv(c, s);
    NothingOutstanding(c, s);
  }

  lemma FinishStep(c: Config, s: State, s': State) returns (next: State)
    requires Follows(c, s, s') && Reachable(c, s') && c.workers >= 1 && s'.pc == AtHead && IsComplete(s'.queue)
    ensures next == s'.(pc := Between) && Follows(c, s, next) && Reachable(c, next)
  {
    ReachableIsKnown(c, s');
    next := s'.(pc := Between);
    assert Takes(c, s', Finish, next);
    Continue(c, s, s', next);
  }

  lemma ReceiveStep(c: Config, s: State, s': State) returns (next: State)
    requires Follows(c, s, s') && Reachable(c, s) && Reachable(c, s') && c.workers >= 1
    requires s'.pc == AtHead && !IsComplete(s'.queue) && s'.channel != []
    ensures next == DoReceive(s') && Follows(c, s, next) && Reachable(c, next) && Below(Rank(c, next), Rank(c, s))
  {
    ReachableIsKnown(c, s');
    next := DoReceive(s');
    assert Takes(c, s', Receive, next);
    Continue(c, s, s', next);
    StepLowersRank(c, s', next);
    FollowsRank(c, s, s');
  }

  lemma HandleStep(c: Config, s: State, s': State, resplit: Option<seq<SelectorInfo>>) returns (next: State)
    requires Follows(c, s, s') && Reachable(c, s') && c.workers >= 1 && Sane(s') && s'.pc.Handling?
    requires Enabled(c, s', Step.Handle(resplit))
    ensures next == DoHandle(c, s', resplit) && Follows(c, s, next) && Reachable(c, next)
  {
    next := DoHandle(c, s', resplit);
    assert Takes(c, s', Step.Handle(resplit), next);
    Continue(c, s, s', next);
  }

  lemma StartStep(c: Config, s: State, metrics: seq<string>) returns (next: State)
    requires Reachable(c, s) && c.workers >= 1 && s.pc == Between && s.range < |c.ranges|
    requires NoDuplicates(metrics) && Elements(metrics) == Metrics(c, c.ranges[s.range])
    ensures next == DoStartRange(c, s, metrics) && Reachable(c, next)
  {
    ReachableIsKnown(c, s);
    next := DoStartRange(c, s, metrics);
    assert Takes(c, s, Step.StartRange(metrics), next);
    FollowsSelf(c, s);
    Continue(c, s, s, next);
  }

  lemma AcquireStep(c: Config, s: State, s': State) returns (next: State)
    requires Follows(c, s, s') && Reachable(c, s') && s'.pc == Dispatching && c.workers >= 1
    ensures next == DoAcquire(s') && Follows(c, s, next) && Reachable(c, next)
  {
    ReachableIsKnown(c, s');
    next := DoAcquire(s');
    assert Takes(c, s', Step.Acquire, next);
    Continue(c, s, s', next);
  }

  lemma TakeStep(c: Config, s: State, s': State) returns (next: State)
    requires Follows(c, s, s') && Reachable(c, s') && s'.pc.Holding? && c.workers >= 1
    ensures Sane(s') && s'.pc.worker < |s'.busy| && next == DoTakeNext(s') && Follows(c, s, next) && Reachable(c, next)
  {
    ReachableIsKnown(c, s');
    next := DoTakeNext(s');
    assert Takes(c, s', Step.TakeNext, next);
    Continue(c, s, s', next);
  }

  /** A coordinator with its workers connected and nothing done yet. */
  method Prepare(config: Config) returns (o: Orchestrator, ghost s: State)
    ensures fresh(o) && fresh(o.queue) && fresh(o.world) && fresh(o.world.hosts) && o.queue.objects == {}
    ensures fresh(o.manager.workers)
    ensures o.config == config && o.Holds(s) && Init(config, s)
  {
    var queue := new TaskQueue();
    var manager := Connect(config.workers);
    var world, servers := StartServers(config.workers);
    o := new Orchestrator(config, queue, manager, world);
    s := State(0, 0, EMPTY, manager.Flags(), servers, map[], [], {}, Between);
  }

  class Orchestrator {
    const config: Config
    const queue: TaskQueue
    const manager: Manager
    const world: World
    var taskCounter: nat
    /** The keys of the in-flight map of executeTasks. */
    var inflight: set<string>

    constructor (config: Config, queue: TaskQueue, manager: Manager, world: World)
      ensures this.config == config && this.queue == queue && this.manager == manager && this.world == world
      ensures taskCounter == 0 && inflight == {}
    {
      this.config, this.queue, this.manager, this.world := config, queue, manager, world;
      taskCounter, inflight := 0, {};
    }

    /** The queue object and the workers hold these values. */
    ghost predicate HoldsParts(q: Queue, busy: seq<bool>)
      reads queue, queue.objects, manager.workers
    {
      var tasks, pool := queue, manager;
      && tasks.Valid() && tasks.view == q
      && pool.Valid() && pool.Flags() == busy
    }

    /** The objects hold what the protocol state says. */
    ghost predicate Holds(s: State)
      reads this, queue, queue.objects, manager.workers, world, world.hosts
    {
      match s
      case State(_, counter, q, busy, _, _, _, known, _) =>
        HoldsParts(q, busy) && taskCounter == counter && inflight == known && world.Shows(s)
    }

    /** The task objects are those given and new ones. */
    twostate predicate OnlyNew(before: set<MigrationTask>)
      reads queue
    {
      forall t :: t in queue.objects && t !in before ==> fresh(t)
    }

    // ---------- creating tasks ----------

    method CreateTasksForMetric(metric: string, r: TimeRange) returns (t: MigrationTask)
      modifies this`taskCounter
      ensures fresh(t) && taskCounter == old(taskCounter) + 1
      ensures t.id == TaskId(taskCounter) && t.Record() == OptimisticTask(config, metric, r)
      ensures t.metric == metric && t.start == r.start && t.end == r.end && t.maxRetries == config.maxRetries
      ensures t.status == Pending && t.attempts == 0 && t.bytes == 0 && t.error == ""
      ensures t.estSeriesCount == 0 && !t.splitAttempted
    {
      var base := ExtractBaseSelector(config.filter);
      var selector := BuildOptimisticSelector(metric, base);
      taskCounter := taskCounter + 1;
      t := new MigrationTask(TaskId(taskCounter), metric, selector, r.start, r.end, 0, config.maxRetries, false);
    }

    /** The body of the loop over the metrics. */
    method AppendTask(ts: seq<MigrationTask>, metrics: seq<string>, r: TimeRange, i: nat, ghost first: nat)
      returns (more: seq<MigrationTask>)
      requires |ts| == i < |metrics| && taskCounter == first + i
      requires AreOptimistic(config, ts, first, metrics[..i], r)
      modifies this`taskCounter
      ensures |more| == i + 1 && taskCounter == first + i + 1
      ensures AreOptimistic(config, more, first, metrics[..i + 1], r)
      ensures forall t :: t in more ==> t in ts || fresh(t)
    {
      var t := CreateTasksForMetric(metrics[i], r);
      OneMoreOptimistic(config, ts, t, first, metrics, r, i);
      more := ts + [t];
    }

    /** One optimistic task per metric. */
    method CreateRangeTasks(metrics: seq<string>, r: TimeRange) returns (ts: seq<MigrationTask>)
      modifies this`taskCounter
      ensures forall t :: t in ts ==> fresh(t)
      ensures |ts| == |metrics| && taskCounter == old(taskCounter) + |ts|
      ensures IsNumberedBatch(ts, old(taskCounter), OptimisticTasks(config, metrics, r))
    {
      ts := [];
      for i := 0 to |metrics|
        invariant |ts| == i && taskCounter == old(taskCounter) + i
        invariant forall t :: t in ts ==> fresh(t)
        invariant AreOptimistic(config, ts, old(taskCounter), metrics[..i], r)
      {
        ts := AppendTask(ts, metrics, r, i, old(taskCounter));
      }
      assert metrics[..|metrics|] == metrics;
    }

    /** The body of Run's loop over the ranges, up to the first dispatch. */
    method StartRange(metrics: seq<string>, r: TimeRange, ghost s: State)
      requires Holds(s) && AllNumbered(s) && s.range < |config.ranges| && r == config.ranges[s.range]
      requires s.channel == []
      modifies this, queue
      ensures Holds(DoStartRange(config, s, metrics)) && OnlyNew(old(queue.objects))
    {
      var ts := CreateRangeTasks(metrics, r);
      if |ts| > 0 {
        inflight := {};
        AddRange(metrics, ts, s);
      }
    }

    method AddRange(ghost metrics: seq<string>, ts: seq<MigrationTask>, ghost s: State)
      requires HoldsParts(s.queue, s.busy) && world.Shows(s) && AllNumbered(s)
      requires s.range < |config.ranges| && s.channel == [] && metrics != []
      requires taskCounter == s.counter + |ts| && |ts| == |metrics| && inflight == {}
      requires IsNumberedBatch(ts, s.counter, OptimisticTasks(config, metrics, config.ranges[s.range]))
      modifies queue
      ensures Holds(DoStartRange(config, s, metrics)) && queue.objects == old(queue.objects) + Elements(ts)
    {
      AddBatch(ts, s, OptimisticTasks(config, metrics, config.ranges[s.range]));
      TogetherHolds(DoStartRange(config, s, metrics));
    }

    lemma TogetherHolds(s: State)
      requires HoldsParts(s.queue, s.busy) && taskCounter == s.counter && inflight == s.inflight && world.Shows(s)
      ensures Holds(s)
    {
    }

    method AddBatch(ts: seq<MigrationTask>, ghost s: State, ghost records: seq<Task>)
      requires HoldsParts(s.queue, s.busy) && AllNumbered(s) && IsNumberedBatch(ts, s.counter, records)
      requires |ts| == |records|
      modifies queue
      ensures HoldsParts(Add(s.queue, NewIds(s.counter, |ts|), Batch(s.counter, records)), s.busy)
      ensures queue.objects == old(queue.objects) + Elements(ts)
    {
      NumberedBatchIsNew(s, |ts|);
      RecordsAreBatch(queue, ts, s.counter, records);
      queue.AddTasks(ts);
    }

    method ReplaceByBatch(id: string, ts: seq<MigrationTask>, ghost s: State, ghost records: seq<Task>)
      requires HoldsParts(s.queue, s.busy) && AllNumbered(s) && IsNumberedBatch(ts, s.counter, records)
      requires |ts| == |records|
      modifies queue
      ensures HoldsParts(Replace(s.queue, id, NewIds(s.counter, |ts|), Batch(s.counter, records)), s.busy)
      ensures queue.objects == old(queue.objects) + Elements(ts)
    {
      NumberedBatchIsNew(s, |ts|);
      RecordsAreBatch(queue, ts, s.counter, records);
      queue.ReplaceTasks(id, ts);
    }

    // ---------- splitting a failed task ----------

    /**
     * The pieces of a failed task, none if it is not split; fastCount is what GetSeriesCountFast answers, None
     * when that call fails.
     */
    method FindPieces(task: MigrationTask, fastCount: Option<int>) returns (selectors: seq<SelectorInfo>)
      ensures selectors != [] ==>
                && IsResplit(config, task.Record(), selectors)
                && IsPlanned(JobFor(config, task.Record()), BaseSelector(config), selectors)
      ensures InLimit(config, task.metric, fastCount) ==> selectors == []
      ensures WellFormed(BaseSelector(config)) && Printable(JobFor(config, task.Record())) ==>
                ArePieces(task.Record(), fastCount, selectors)
    {
      var maxSeries := config.maxSeries(task.metric);
      var count := if fastCount.Some? then fastCount.value else maxSeries + 1;
      if count <= maxSeries {
        return [];
      }
      var base := ExtractBaseSelector(config.filter);
      var window := Window(config.source, task.start, task.end);
      var job := Job(window, task.metric, maxSeries, config.maxRegexValues, config.excludedLabels);
      var result; ghost var plan;
      result, plan := SplitMetric(job, base);
      if result.Failure? {
        return [];
      }
      selectors := result.value.selectors;
      SplitOutcome(task.Record(), fastCount, selectors);
      if |selectors| <= 1 {
        return [];
      }
    }

    /** Some exactly when the task must be split; each estimate is true, and there are no more than series. */
    ghost predicate ArePieces(t: Task, fastCount: Option<int>, sels: seq<SelectorInfo>) {
      var job, found := JobFor(config, t), Matching(JobFor(config, t), BaseSelector(config));
      && (job.maxSeries >= 0 ==> (sels != [] <==> MustSplit(config, t, fastCount)))
      && (found != {} ==> |sels| <= |found|)
      && forall i :: 0 <= i < |sels| ==> sels[i].estSeriesCount == |Found(job.db, sels[i].selector)|
    }

    method ResplitFailedTask(task: MigrationTask, fastCount: Option<int>)
      returns (subTasks: seq<MigrationTask>, ghost sels: seq<SelectorInfo>)
      modifies this`taskCounter
      ensures forall t :: t in subTasks ==> fresh(t)
      ensures taskCounter == old(taskCounter) + |subTasks| && |subTasks| == |sels|
      ensures subTasks != [] ==>
                && IsResplit(config, task.Record(), sels)
                && IsPlanned(JobFor(config, task.Record()), BaseSelector(config), sels)
                && IsNumberedBatch(subTasks, old(taskCounter), SubTasks(config, task.Record(), sels))
      ensures forall i :: 0 <= i < |subTasks| ==> IsSubTask(task, subTasks[i], sels[i])
      ensures InLimit(config, task.metric, fastCount) ==> subTasks == []
      ensures !InLimit(config, task.metric, fastCount) && SplitsBelowLimit(config, task.Record()) ==>
                var found := Matching(JobFor(config, task.Record()), BaseSelector(config));
                (subTasks != [] <==> |found| > config.maxSeries(task.metric))
      ensures WellFormed(BaseSelector(config)) && Printable(JobFor(config, task.Record())) ==>
                ArePieces(task.Record(), fastCount, sels)
    {
      var selectors := FindPieces(task, fastCount);
      sels := selectors;
      if SplitsBelowLimit(config, task.Record()) && !InLimit(config, task.metric, fastCount) {
        BelowLimitMustSplitIff(config, task.Record(), fastCount);
      }
      subTasks := CreateSubTasks(task, selectors);
    }

    /** What the splitter's selectors are for the coordinator, which takes two or more. */
    lemma SplitOutcome(t: Task, fastCount: Option<int>, sels: seq<SelectorInfo>)
      requires !InLimit(config, t.metric, fastCount)
      requires var job, base := JobFor(config, t), BaseSelector(config);
               WellFormed(base) && Printable(job) ==>
                 && IsSplit(job, Matching(job, base), sels)
                 && (Matching(job, base) != {} ==> NonEmpty(job, sels) && |sels| <= |Matching(job, base)|)
                 && (|Matching(job, base)| <= job.maxSeries ==> |sels| == 1)
      ensures WellFormed(BaseSelector(config)) && Printable(JobFor(config, t)) ==>
                ArePieces(t, fastCount, if |sels| <= 1 then [] else sels)
    {
      var job, base := JobFor(config, t), BaseSelector(config);
      if WellFormed(base) && Printable(job) {
        if |Matching(job, base)| > job.maxSeries >= 0 {
          SplitsInTwoIff(job, Matching(job, base), sels);
        }
        forall i | 0 <= i < |sels| ensures sels[i].estSeriesCount == |Found(job.db, sels[i].selector)| {
          assert Sound(job, sels[i]);
        }
      }
    }

    /** A task as new as its parent was, for one of its pieces, that is not split again. */
    ghost predicate IsSubTask(parent: MigrationTask, t: MigrationTask, sel: SelectorInfo)
      reads t
    {
      && t.metric == parent.metric && t.start == parent.start && t.end == parent.end
      && t.selector == sel.selector && t.estSeriesCount == sel.estSeriesCount
      && t.maxRetries == config.maxRetries && t.splitAttempted
      && t.status == Pending && t.attempts == 0 && t.bytes == 0 && t.error == ""
    }

    method CreateSubTasks(task: MigrationTask, selectors: seq<SelectorInfo>) returns (subTasks: seq<MigrationTask>)
      modifies this`taskCounter
      ensures forall t :: t in subTasks ==> fresh(t)
      ensures |subTasks| == |selectors| && taskCounter == old(taskCounter) + |subTasks|
      ensures IsNumberedBatch(subTasks, old(taskCounter), SubTasks(config, task.Record(), selectors))
      ensures forall i :: 0 <= i < |subTasks| ==> IsSubTask(task, subTasks[i], selectors[i])
    {
      subTasks := [];
      for i := 0 to |selectors|
        invariant |subTasks| == i && taskCounter == old(taskCounter) + i
        invariant forall k :: 0 <= k < i ==> fresh(subTasks[k])
        invariant forall k :: 0 <= k < i ==> subTasks[k].id == TaskId(old(taskCounter) + 1 + k)
        invariant forall k :: 0 <= k < i ==> subTasks[k].Record() == SubTask(config, task.Record(), selectors[k])
        invariant forall k :: 0 <= k < i ==> IsSubTask(task, subTasks[k], selectors[k])
      {
        var sel := selectors[i];
        taskCounter := taskCounter + 1;
        var subTask := new MigrationTask(TaskId(taskCounter), task.metric, sel.selector, task.start, task.end,
                                         sel.estSeriesCount, config.maxRetries, true);
        subTasks := subTasks + [subTask];
      }
    }

    // ---------- executeTasks ----------

    method Acquire(ghost s: State) returns (w: WorkerConn?)
      requires Holds(s)
      modifies manager.workers
      ensures Holds(DoAcquire(s))
      ensures w == null <==> FirstIdle(s.busy) == |s.busy|
      ensures w != null ==> w in manager.workers && w.addr == FirstIdle(s.busy)
    {
      w := manager.AcquireWorker();
    }

    method NextTask(ghost s: State) returns (task: MigrationTask?)
      requires HoldsParts(s.queue, s.busy) && (s.queue.pending != [] ==> s.queue.pending[0] in s.queue.info)
      modifies queue, queue.objects
      ensures HoldsParts(Next(s.queue), s.busy) && queue.objects == old(queue.objects)
      ensures if s.queue.pending == [] then task == null else task != null && task.id == s.queue.pending[0]
    {
      task := queue.NextTask();
    }

    /** The in-flight entry and the goroutine of a task just taken. */
    method Launch(id: string, w: WorkerConn, ghost s: State)
      requires Sane(s) && s.pc == Holding(w.addr) && w.addr < |s.busy| && s.queue.pending != []
      requires id == s.queue.pending[0]
      requires HoldsParts(Next(s.queue), s.busy) && taskCounter == s.counter && inflight == s.inflight && world.Shows(s)
      modifies this`inflight, world
      ensures Holds(DoTakeNext(s))
    {
      inflight := inflight + {id};
      world.Go(id, w.addr);
    }

    /** The next pending task, and the goroutine that dispatches it. */
    method TakeTask(w: WorkerConn, ghost s: State) returns (task: MigrationTask?)
      requires Holds(s) && Sane(s) && s.pc == Holding(w.addr) && w in manager.workers && w.addr < |s.busy|
      modifies this`inflight, queue, queue.objects, manager.workers, world, world.hosts
      ensures Holds(DoTakeNext(s)) && queue.objects == old(queue.objects)
      ensures task == null <==> s.queue.pending == []
    {
      task := NextTask(s);
      if task == null {
        manager.ReleaseWorker(w);
      } else {
        Launch(task.id, w, s);
      }
    }

    method LoseCall(id: string, ghost s: State) returns (ghost s': State)
      requires Holds(s) && Sane(s) && Enabled(config, s, Step.Lose(id))
      modifies world
      ensures Holds(s') && SameCoordinator(s, s') && Moves(config, s, s')
    {
      world.Lose(id, s);
      s' := DoLose(s, id);
      assert Takes(config, s, Step.Lose(id), s');
    }

    method DeliverCall(id: string, ghost s: State) returns (ghost s': State)
      requires Holds(s) && Sane(s) && Enabled(config, s, Step.Arrive(id))
      modifies world, world.hosts
      ensures Holds(s') && SameCoordinator(s, s') && Moves(config, s, s')
    {
      world.Arrive(id, s);
      s' := DoArrive(s, id);
      assert Takes(config, s, Step.Arrive(id), s');
    }

    method ReplyToCall(id: string, outcome: Outcome, ghost s: State) returns (ghost s': State)
      requires Holds(s) && Sane(s) && Enabled(config, s, Step.Reply(id, outcome))
      modifies world, world.hosts
      ensures Holds(s') && SameCoordinator(s, s') && Moves(config, s, s')
    {
      world.Reply(id, outcome, s);
      s' := DoReply(s, id, outcome);
      assert Takes(config, s, Step.Reply(id, outcome), s');
    }

    /** The call under way is lost, or reaches the server, or comes back. */
    method Call(id: string, lost: bool, outcome: Outcome, ghost s: State) returns (ghost s': State)
      requires Holds(s) && Sane(s) && id in world.flights && outcome.Exited?
      requires world.flights[id].phase == Calling || world.flights[id].phase == Serving
      modifies world, world.hosts
      ensures Holds(s') && SameCoordinator(s, s') && Moves(config, s, s')
    {
      if lost {
        s' := LoseCall(id, s);
      } else if world.flights[id].phase == Calling {
        s' := DeliverCall(id, s);
      } else {
        s' := ReplyToCall(id, outcome, s);
      }
    }

    /** The next move of the goroutine that has the task: its call, the release of the worker, the send. */
    method Move(id: string, lost: bool, outcome: Outcome, ghost s: State) returns (ghost s': State)
      requires Holds(s) && Sane(s) && id in world.flights && outcome.Exited?
      requires world.flights[id].phase.Released? ==> |world.channel| < config.capacity
      modifies manager.workers, world, world.hosts
      ensures Holds(s') && SameCoordinator(s, s') && Moves(config, s, s')
    {
      if world.flights[id].phase.Answered? {
        manager.ReleaseWorker(manager.workers[world.flights[id].worker]);
        world.Release(id, s);
        s' := DoRelease(s, id);
        assert Takes(config, s, Release(id), s');
      } else if world.flights[id].phase.Released? {
        world.Send(id, s);
        s' := DoSend(s, id);
        assert Takes(config, s, Send(id), s');
      } else {
        s' := Call(id, lost, outcome, s);
      }
    }

    /** Any one move of the goroutines and the servers, or none. */
    method AnyMove(ghost s: State) returns (ghost s': State)
      requires Holds(s) && Sane(s)
      modifies manager.workers, world, world.hosts
      ensures Holds(s') && SameCoordinator(s, s') && (s' == s || Moves(config, s, s'))
    {
      s' := s;
      var id: string, w: nat, lost: bool, outcome: Outcome := *, *, *, *;
      if id in world.flights {
        if outcome.Exited? && (world.flights[id].phase.Released? ==> |world.channel| < config.capacity) {
          s' := Move(id, lost, outcome, s);
        }
      } else if w < |world.hosts| {
        s' := AnyLateMove(w, id, s);
      }
    }

    method DeliverLate(w: nat, id: string, ghost s: State) returns (ghost s': State)
      requires Holds(s) && Sane(s) && w < |world.hosts| && id in world.late[w]
      modifies world, world.hosts
      ensures Holds(s') && SameCoordinator(s, s') && Moves(config, s, s')
    {
      world.LateArrive(w, id, s);
      s' := DoLateArrive(s, w, id);
      assert Takes(config, s, Step.LateArrive(w, id), s');
    }

    method DropLate(w: nat, id: string, ghost s: State) returns (ghost s': State)
      requires Holds(s) && Sane(s) && w < |world.hosts| && id in world.late[w]
      modifies world
      ensures Holds(s') && SameCoordinator(s, s') && Moves(config, s, s')
    {
      world.Vanish(w, id, s);
      s' := DoVanish(s, w, id);
      assert Takes(config, s, Step.Vanish(w, id), s');
    }

    /** A request whose caller has given up arrives or vanishes, or its vmctl ends. */
    method AnyLateMove(w: nat, id: string, ghost s: State) returns (ghost s': State)
      requires Holds(s) && Sane(s) && w < |world.hosts|
      modifies world, world.hosts
      ensures Holds(s') && SameCoordinator(s, s') && (s' == s || Moves(config, s, s'))
    {
      s' := s;
      var arrives: bool := *;
      if id in world.late[w] {
        if arrives {
          s' := DeliverLate(w, id, s);
        } else {
          s' := DropLate(w, id, s);
        }
      } else if world.hosts[w].busy && forall k :: k in world.flights ==> world.flights[k] != Flight(w, Serving) {
        world.LateDone(w, s);
        s' := DoLateDone(s, w);
        assert Takes(config, s, LateDone(w), s');
      }
    }

    /** Any number of moves by others between two actions of the coordinator. */
    method Others(ghost s: State) returns (ghost s': State)
      requires Holds(s) && Reachable(config, s) && config.workers >= 1
      modifies manager.workers, world, world.hosts
      ensures Holds(s') && SameCoordinator(s, s') && Follows(config, s, s') && Reachable(config, s')
    {
      s' := s;
      FollowsSelf(config, s);
      var n: int := *;
      while n > 0
        invariant Holds(s') && SameCoordinator(s, s') && Follows(config, s, s') && Reachable(config, s')
      {
        n := n - 1;
        ReachableIsKnown(config, s');
        ghost var next := AnyMove(s');
        if next != s' {
          Continue(config, s, s', next);
        }
        s' := next;
      }
    }

    /** The first half of a round of dispatchNext: an idle worker, if there is one. */
    method AcquireNext(ghost s: State) returns (w: WorkerConn?, ghost s': State)
      requires Holds(s) && Reachable(config, s) && s.pc == Dispatching && config.workers >= 1
      modifies manager.workers, world, world.hosts
      ensures Holds(s') && Follows(config, s, s') && Reachable(config, s') && s'.range == s.range && s'.queue == s.queue
      ensures if w == null then s'.pc == AtHead else s'.pc == Holding(w.addr) && w in manager.workers
      ensures w == null ==> forall k :: 0 <= k < |s'.busy| ==> s'.busy[k]
    {
      ghost var before := Others(s);
      w := Acquire(before);
      s' := AcquireStep(config, s, before);
    }

    /** The second half: a pending task, if there is one, and the goroutine that dispatches it. */
    method DispatchTo(w: WorkerConn, ghost s: State) returns (more: bool, ghost s': State)
      requires Holds(s) && Reachable(config, s) && config.workers >= 1
      requires s.pc == Holding(w.addr) && w in manager.workers
      modifies this`inflight, queue, queue.objects, manager.workers, world, world.hosts
      ensures Holds(s') && Follows(config, s, s') && Reachable(config, s') && s'.range == s.range
      ensures if more then s'.pc == Dispatching && |s'.queue.pending| < |s.queue.pending| else s'.pc == AtHead
      ensures !more ==> s'.queue.pending == []
      ensures queue.objects == old(queue.objects)
    {
      ghost var held := Others(s);
      ReachableIsKnown(config, held);
      var task := TakeTask(w, held);
      s' := TakeStep(config, s, held);
      more := task != null;
    }

    /** dispatchNext: afterwards nothing is pending, or every worker is busy. */
    method DispatchNext(ghost s: State) returns (ghost s': State)
      requires Holds(s) && Reachable(config, s) && s.pc == Dispatching && config.workers >= 1
      modifies this`inflight, queue, queue.objects, manager.workers, world, world.hosts
      ensures Holds(s') && Follows(config, s, s') && Reachable(config, s') && s'.pc == AtHead && s'.range == s.range
      ensures queue.objects == old(queue.objects)
      ensures s'.queue.pending == [] || forall k :: 0 <= k < |s'.busy| ==> s'.busy[k]
    {
      s' := s;
      FollowsSelf(config, s);
      var more := true;
      while more
        invariant queue.objects == old(queue.objects)
        invariant Holds(s') && Reachable(config, s') && Follows(config, s, s') && s'.range == s.range
        invariant s'.pc == (if more then Dispatching else AtHead) && (!more ==> s'.queue.pending == [])
        decreases more, |s'.queue.pending|
      {
        ghost var held, next;
        var w;
        w, held := AcquireNext(s');
        FollowsOn(config, s, s', held);
        if w == null {
          s' := held;
          break;
        }
        more, next := DispatchTo(w, held);
        FollowsOn(config, s, held, next);
        s' := next;
      }
    }

    method Complete(id: string, bytes: int, ghost s: State)
      requires HoldsParts(s.queue, s.busy) && s.queue.running <= s.queue.info.Keys
      modifies queue, queue.objects
      ensures queue.objects == old(queue.objects)
      ensures HoldsParts(Tasks.Complete(s.queue, id, bytes), s.busy)
    {
      queue.CompleteTask(id, bytes);
    }

    method Fail(id: string, error: string, ghost s: State)
      requires HoldsParts(s.queue, s.busy) && s.queue.running <= s.queue.info.Keys
      modifies queue, queue.objects
      ensures queue.objects == old(queue.objects)
      ensures HoldsParts(Tasks.Fail(s.queue, id, error), s.busy)
    {
      var _ := queue.FailTask(id, error);
    }

    method RunningTask(id: string, ghost s: State) returns (task: MigrationTask?)
      requires HoldsParts(s.queue, s.busy) && id in s.queue.running && id in s.queue.info
      ensures task != null && task.Record() == s.queue.info[id]
    {
      task := queue.GetTask(id);
    }

    /** The sub-tasks of a failed task, with the fast count of this attempt. */
    method NewSubTasks(task: MigrationTask, id: string, ghost due: bool)
      returns (subTasks: seq<MigrationTask>, ghost sels: seq<SelectorInfo>)
      requires due ==> MustSplit(config, task.Record(), config.fastCount(id, task.attempts))
      modifies this`taskCounter
      ensures forall t :: t in subTasks ==> fresh(t)
      ensures taskCounter == old(taskCounter) + |subTasks| && |subTasks| == |sels| && (due ==> sels != [])
      ensures sels != [] ==>
                && IsResplit(config, task.Record(), sels)
                && IsNumberedBatch(subTasks, old(taskCounter), SubTasks(config, task.Record(), sels))
    {
      subTasks, sels := ResplitFailedTask(task, config.fastCount(id, task.attempts));
    }

    /** Puts sub-tasks in the place of the task if it can be split, as it must when that is due. */
    method TryResplit(task: MigrationTask, id: string, ghost due: bool, ghost s: State)
      returns (replaced: bool, ghost sels: seq<SelectorInfo>)
      requires HoldsParts(s.queue, s.busy) && AllNumbered(s) && taskCounter == s.counter
      requires due ==> MustSplit(config, task.Record(), config.fastCount(id, task.attempts))
      modifies this`taskCounter, queue
      ensures taskCounter == s.counter + |sels| && (replaced <==> sels != []) && (due ==> replaced)
      ensures !replaced ==> HoldsParts(s.queue, s.busy) && queue.objects == old(queue.objects)
      ensures OnlyNew(old(queue.objects))
      ensures replaced ==> IsResplit(config, old(task.Record()), sels)
      ensures replaced ==>
                var ts := SubTasks(config, old(task.Record()), sels);
                HoldsParts(Replace(s.queue, id, NewIds(s.counter, |ts|), Batch(s.counter, ts)), s.busy)
    {
      var subTasks, pieces := NewSubTasks(task, id, due);
      replaced := |subTasks| > 0;
      sels := [];
      if replaced {
        sels := pieces;
        ReplaceByBatch(id, subTasks, s, SubTasks(config, task.Record(), sels));
      }
    }

    /** The task is replaced by its pieces, or its failure is counted. */
    method SplitOrFail(task: MigrationTask, id: string, reason: string, ghost due: bool, ghost s: State)
      returns (ghost sels: seq<SelectorInfo>)
      requires HoldsParts(s.queue, s.busy) && AllNumbered(s) && taskCounter == s.counter
      requires s.queue.running <= s.queue.info.Keys && id in s.queue.running && task.Record() == s.queue.info[id]
      requires due ==> MustSplit(config, task.Record(), config.fastCount(id, task.attempts))
      modifies this`taskCounter, queue, queue.objects
      ensures taskCounter == s.counter + |sels| && OnlyNew(old(queue.objects))
      ensures HoldsParts(AfterFailure(config, s, id, reason, sels), s.busy)
      ensures sels != [] ==> IsResplit(config, s.queue.info[id], sels)
      ensures due ==> sels != []
    {
      var replaced;
      replaced, sels := TryResplit(task, id, due, s);
      if !replaced {
        Fail(id, reason, s);
      }
    }

    /** vmctl failed: the task is split if that may help, as it must when due, and retried or abandoned otherwise. */
    method HandleFailure(id: string, cardinality: bool, reason: string, ghost due: bool, ghost s: State)
      returns (ghost sels: seq<SelectorInfo>)
      requires HoldsParts(s.queue, s.busy) && AllNumbered(s) && taskCounter == s.counter
      requires s.queue.running <= s.queue.info.Keys && id in s.queue.running
      requires due ==>
               var t := s.queue.info[id];
               cardinality && !t.splitAttempted && MustSplit(config, t, config.fastCount(id, t.attempts))
      modifies this`taskCounter, queue, queue.objects
      ensures taskCounter == s.counter + |sels| && OnlyNew(old(queue.objects)) && (due ==> sels != [])
      ensures HoldsParts(AfterFailure(config, s, id, reason, sels), s.busy)
      ensures sels != [] ==>
              cardinality && !s.queue.info[id].splitAttempted && IsResplit(config, s.queue.info[id], sels)
    {
      var task := RunningTask(id, s);
      if task != null && !task.splitAttempted && cardinality {
        sels := SplitOrFail(task, id, reason, due, s);
      } else {
        sels := [];
        Fail(id, reason, s);
      }
    }

    /** What the result loop does to the queue and the counter with an outcome. */
    method HandleOutcome(m: Message, ghost due: bool, ghost s: State)
      returns (ghost resplit: Option<seq<SelectorInfo>>)
      requires HoldsParts(s.queue, s.busy) && taskCounter == s.counter
      requires Sane(s) && AllNumbered(s) && s.pc == Handling(m) && m.id in s.queue.running
      requires due <==> SplitIsDue(config, s.queue, m)
      modifies this`taskCounter, queue, queue.objects
      ensures Enabled(config, s, Step.Handle(resplit)) && (due ==> resplit.Some?)
      ensures HoldsParts(DoHandle(config, s, resplit).queue, s.busy)
      ensures taskCounter == DoHandle(config, s, resplit).counter
      ensures OnlyNew(old(queue.objects))
    {
      resplit := None;
      match m.outcome {
        case RpcError(message) =>
          Fail(m.id, message, s);
        case Exited(code, bytes, cardinality, errorText) =>
          if code == 0 {
            Complete(m.id, bytes, s);
          } else {
            var reason := errorText;
            if reason == "" {
              reason := "vmctl exited with code " + Itoa(code);
            }
            ghost var sels := HandleFailure(m.id, cardinality, reason, due, s);
            resplit := if sels != [] then Some(sels) else None;
          }
      }
    }

    method ApplyResult(m: Message, ghost due: bool, ghost s: State)
      returns (ghost resplit: Option<seq<SelectorInfo>>)
      requires Holds(s) && Sane(s) && AllNumbered(s) && s.pc == Handling(m) && m.id in s.queue.running
      requires due <==> SplitIsDue(config, s.queue, m)
      modifies this`taskCounter, queue, queue.objects
      ensures Enabled(config, s, Step.Handle(resplit)) && Holds(DoHandle(config, s, resplit))
      ensures OnlyNew(old(queue.objects)) && (due ==> resplit.Some?)
    {
      resplit := HandleOutcome(m, due, s);
      HandledHolds(s, resplit);
    }

    /** The queue object after a result: settled, and a task that must be split is replaced and in no list. */
    ghost predicate IsSettled(q: Queue, m: Message, split: bool)
      reads queue
    {
      && m.id in q.info && m.id in queue.view.info && Settles(q, queue.view, m, split)
      && (SplitIsDue(config, q, m) ==>
            && m.id in queue.view.replaced
            && (IdOk(q, m.id) ==> m.id !in queue.view.pending + queue.view.done + queue.view.failed))
    }

    /** One result taken from the channel: what the result loop does with it. */
    method HandleResult(m: Message, ghost s: State)
      returns (ghost resplit: Option<seq<SelectorInfo>>)
      requires Holds(s) && Sane(s) && AllNumbered(s) && s.pc == Handling(m) && m.id in s.queue.running
      modifies this`taskCounter, queue, queue.objects
      ensures Enabled(config, s, Step.Handle(resplit)) && Holds(DoHandle(config, s, resplit))
      ensures OnlyNew(old(queue.objects)) && IsSettled(s.queue, m, resplit.Some?)
    {
      resplit := ApplyResult(m, SplitIsDue(config, s.queue, m), s);
      ResultSettled(s, resplit);
      assert queue.view == DoHandle(config, s, resplit).queue;
    }

    /** What became of the result, and that a split task has left the queue. */
    lemma ResultSettled(s: State, resplit: Option<seq<SelectorInfo>>)
      requires Sane(s) && AllNumbered(s) && s.pc.Handling? && s.pc.message.id in s.queue.running
      requires resplit.Some? ==> MayResplit(s.queue, s.pc.message)
      ensures var id, q := s.pc.message.id, DoHandle(config, s, resplit).queue;
              && id in q.info && Settles(s.queue, q, s.pc.message, resplit.Some?)
              && (resplit.Some? ==> id in q.replaced && (IdOk(s.queue, id) ==> id !in q.pending + q.done + q.failed))
    {
      HandleSettles(config, s, resplit);
      if resplit.Some? && IdOk(s.queue, s.pc.message.id) {
        SplitLeavesTheQueue(s, resplit.value);
      }
    }

    /** A task that is split is in none of the queue's lists any more. */
    lemma SplitLeavesTheQueue(s: State, sels: seq<SelectorInfo>)
      requires Sane(s) && AllNumbered(s) && s.pc.Handling? && MayResplit(s.queue, s.pc.message)
      requires s.pc.message.id in s.queue.running && IdOk(s.queue, s.pc.message.id)
      ensures var id, q := s.pc.message.id, DoHandle(config, s, Some(sels)).queue;
              id in q.replaced && id !in q.pending + q.done + q.failed
    {
      var ts := SubTasks(config, s.queue.info[s.pc.message.id], sels);
      NumberedBatchIsNew(s, |ts|);
      assert s.pc.message.id !in NewIds(s.counter, |ts|);
    }

    lemma HandledHolds(s: State, resplit: Option<seq<SelectorInfo>>)
      requires Sane(s) && s.pc.Handling? && (resplit.Some? ==> MayResplit(s.queue, s.pc.message))
      requires HoldsParts(DoHandle(config, s, resplit).queue, s.busy) && world.Shows(s) && inflight == s.inflight
      requires taskCounter == DoHandle(config, s, resplit).counter
      ensures Holds(DoHandle(config, s, resplit))
    {
      HandleLeavesOthers(config, s, resplit);
    }

    method TakeResult(ghost s: State) returns (m: Message)
      requires Holds(s) && s.channel != []
      modifies this`inflight, world, world.hosts
      ensures Holds(DoReceive(s)) && m == s.channel[0]
    {
      m := world.Receive();
      inflight := inflight - {m.id};
    }

    /** Waits for a result and takes it: some goroutine always moves until there is one. */
    method Await(ghost s: State) returns (m: Message, ghost s': State)
      requires Holds(s) && Reachable(config, s) && s.pc == AtHead && !IsComplete(s.queue)
      requires config.workers >= 1 && config.capacity >= 1
      modifies this`inflight, manager.workers, world, world.hosts
      ensures Holds(s') && Follows(config, s, s') && Reachable(config, s') && s'.pc == Handling(m)
      ensures s'.range == s.range
      ensures Below(Rank(config, s'), Rank(config, s))
    {
      ghost var mid := Others(s);
      ghost var r := Rank(config, mid);
      while |world.channel| == 0
        invariant Holds(mid) && SameCoordinator(s, mid) && Follows(config, s, mid) && Reachable(config, mid)
        invariant r == Rank(config, mid)
        decreases r.ranges, r.unsplit, r.attempts, r.pending, r.activity
      {
        ghost var next := OneMove(mid);
        FollowsOn(config, s, mid, next);
        mid, r := next, Rank(config, next);
      }
      m := TakeResult(mid);
      s' := ReceiveStep(config, s, mid);
    }

    /** While no result is there some goroutine makes a move, and others may too. */
    method OneMove(ghost s: State) returns (ghost s': State)
      requires Holds(s) && Reachable(config, s) && s.pc == AtHead && !IsComplete(s.queue) && s.channel == []
      requires config.workers >= 1 && config.capacity >= 1
      modifies manager.workers, world, world.hosts
      ensures Holds(s') && SameCoordinator(s, s') && Follows(config, s, s') && Reachable(config, s')
      ensures Below(Rank(config, s'), Rank(config, s))
    {
      ReachableIsKnown(config, s);
      WaitingCanMove(config, s);
      var id :| id in world.flights;
      var lost: bool, code: int, bytes: int, cardinality: bool, errorText: string := *, *, *, *, *;
      ghost var next := Move(id, lost, Exited(code, bytes, cardinality, errorText), s);
      FollowsSelf(config, s);
      Continue(config, s, s, next);
      StepLowersRank(config, s, next);
      s' := Others(next);
      StaysBelow(config, s, next, s');
    }

    /** The result in hand is dealt with. */
    method HandleNow(m: Message, ghost s: State) returns (ghost s': State)
      requires Holds(s) && Reachable(config, s) && s.pc == Handling(m) && config.workers >= 1
      modifies this`taskCounter, queue, queue.objects
      ensures Holds(s') && Follows(config, s, s') && Reachable(config, s') && s'.pc == Dispatching
      ensures s'.range == s.range
      ensures OnlyNew(old(queue.objects))
    {
      HandledTaskIsKnown(config, s);
      ghost var resplit := HandleResult(m, s);
      FollowsSelf(config, s);
      s' := HandleStep(config, s, s, resplit);
    }

    /** The result in hand is dealt with, after whatever the others do first. */
    method HandleOne(m: Message, ghost s: State) returns (ghost s': State)
      requires Holds(s) && Reachable(config, s) && s.pc == Handling(m) && config.workers >= 1
      modifies this`taskCounter, queue, queue.objects, manager.workers, world, world.hosts
      ensures Holds(s') && Follows(config, s, s') && Reachable(config, s') && s'.pc == Dispatching
      ensures s'.range == s.range
      ensures OnlyNew(old(queue.objects))
    {
      ghost var before := Others(s);
      s' := HandleNow(m, before);
      FollowsOn(config, s, before, s');
    }

    /** After a result: it is dealt with, and more is dispatched. */
    method AfterResult(m: Message, ghost first: State, ghost s: State) returns (ghost s': State)
      requires Holds(s) && Reachable(config, s) && s.pc == Handling(m) && config.workers >= 1
      requires Follows(config, first, s) && Below(Rank(config, s), Rank(config, first))
      modifies this`taskCounter, this`inflight, queue, queue.objects, manager.workers, world, world.hosts
      ensures Holds(s') && Follows(config, first, s') && Reachable(config, s') && s'.pc == AtHead && s'.range == s.range
      ensures OnlyNew(old(queue.objects)) && Below(Rank(config, s'), Rank(config, first))
    {
      ghost var handled := HandleOne(m, s);
      s' := DispatchNext(handled);
      FollowsOn(config, s, handled, s');
      StaysBelow(config, first, s, s');
    }

    /** The body of the result loop. */
    method HandleNext(ghost s: State) returns (ghost s': State)
      requires Holds(s) && Reachable(config, s) && s.pc == AtHead && !IsComplete(s.queue)
      requires config.workers >= 1 && config.capacity >= 1
      modifies this`taskCounter, this`inflight, queue, queue.objects, manager.workers, world, world.hosts
      ensures Holds(s') && Follows(config, s, s') && Reachable(config, s') && s'.pc == AtHead && s'.range == s.range
      ensures Below(Rank(config, s'), Rank(config, s)) && OnlyNew(old(queue.objects))
    {
      var m, received := Await(s);
      assert queue.objects == old(queue.objects);
      s' := AfterResult(m, s, received);
    }

    /** The result loop: until the queue is complete, whatever the others do meanwhile. */
    method HandleResults(ghost s: State) returns (ghost s': State)
      requires Holds(s) && Reachable(config, s) && s.pc == AtHead
      requires config.workers >= 1 && config.capacity >= 1
      modifies this`taskCounter, this`inflight, queue, queue.objects, manager.workers, world, world.hosts
      ensures Holds(s') && Follows(config, s, s') && Reachable(config, s') && s'.pc == AtHead && s'.range == s.range
      ensures IsComplete(s'.queue) && OnlyNew(old(queue.objects))
    {
      s' := s;
      FollowsSelf(config, s);
      ghost var r := Rank(config, s');
      while !queue.QueueIsComplete()
        invariant Holds(s') && Follows(config, s, s') && Reachable(config, s') && s'.pc == AtHead && s'.range == s.range
        invariant OnlyNew(old(queue.objects)) && r == Rank(config, s')
        decreases r.ranges, r.unsplit, r.attempts, r.pending, r.activity
      {
        ghost var next := HandleNext(s');
        FollowsOn(config, s, s', next);
        s', r := next, Rank(config, next);
      }
    }

    /** Dispatches and handles results until the queue is complete. */
    method ExecuteTasks(ghost s: State) returns (ghost s': State)
      requires Holds(s) && Reachable(config, s) && s.pc == Dispatching
      requires config.workers >= 1 && config.capacity >= 1
      modifies this`taskCounter, this`inflight, queue, queue.objects, manager.workers, world, world.hosts
      ensures Holds(s') && Follows(config, s, s') && Reachable(config, s') && s'.pc == Between && s'.range == s.range
      ensures OnlyNew(old(queue.objects))
    {
      ghost var started := DispatchNext(s);
      ghost var handled := HandleResults(started);
      FollowsOn(config, s, started, handled);
      s' := FinishStep(config, s, handled);
    }

    // ---------- Run ----------

    /** The metrics of a range that are not excluded. */
    method DiscoverMetrics(r: TimeRange) returns (metrics: seq<string>)
      ensures NoDuplicates(metrics) && Elements(metrics) == Metrics(config, r)
    {
      var db := Window(config.source, r.start, r.end);
      var discovered := Discovery.DiscoverMetrics(db, config.filter);
      metrics := FilterMetrics(discovered);
    }

    method FilterMetrics(metrics: seq<string>) returns (filtered: seq<string>)
      requires NoDuplicates(metrics)
      ensures NoDuplicates(filtered) && Elements(filtered) == set m | m in Elements(metrics) && config.keepMetric(m)
    {
      filtered := [];
      for i := 0 to |metrics|
        invariant NoDuplicates(filtered)
        invariant Elements(filtered) == set m | m in Elements(metrics[..i]) && config.keepMetric(m)
      {
        assert metrics[..i + 1] == metrics[..i] + [metrics[i]];
        if config.keepMetric(metrics[i]) {
          ElementsAppend(filtered, [metrics[i]]);
          assert metrics[i] !in Elements(filtered);
          filtered := filtered + [metrics[i]];
        }
      }
      assert metrics[..|metrics|] == metrics;
    }

    /** Adds the tasks of the metrics that were found. */
    method StartNow(metrics: seq<string>, r: TimeRange, ghost s: State) returns (ghost s': State)
      requires Holds(s) && Reachable(config, s) && s.pc == Between && s.range < |config.ranges|
      requires r == config.ranges[s.range] && NoDuplicates(metrics) && Elements(metrics) == Metrics(config, r)
      requires config.workers >= 1
      modifies this, queue
      ensures Holds(s') && Reachable(config, s') && s'.range == s.range + 1
      ensures s'.pc == (if metrics != [] then Dispatching else Between) && OnlyNew(old(queue.objects))
    {
      BetweenIsQuiet(config, s);
      StartRange(metrics, r, s);
      s' := StartStep(config, s, metrics);
    }

    /** The first half of a range: discover its metrics and add their tasks. */
    method TakeUpRange(r: TimeRange, ghost s: State) returns (some: bool, ghost s': State)
      requires Holds(s) && Reachable(config, s) && s.pc == Between && s.range < |config.ranges|
      requires r == config.ranges[s.range]
      requires config.workers >= 1
      modifies this, queue, manager.workers, world, world.hosts
      ensures Holds(s') && Reachable(config, s') && s'.range == s.range + 1
      ensures s'.pc == (if some then Dispatching else Between) && OnlyNew(old(queue.objects))
    {
      var metrics := DiscoverMetrics(r);
      ghost var before := Others(s);
      s' := StartNow(metrics, r, before);
      some := |metrics| > 0;
    }

    /** One range: discover, create the tasks, execute them. */
    method RunRange(r: TimeRange, ghost s: State) returns (ghost s': State)
      requires Holds(s) && Reachable(config, s) && s.pc == Between && s.range < |config.ranges|
      requires r == config.ranges[s.range]
      requires config.workers >= 1 && config.capacity >= 1
      modifies this, queue, queue.objects, manager.workers, world, world.hosts
      ensures Holds(s') && Reachable(config, s') && s'.pc == Between && s'.range == s.range + 1
      ensures OnlyNew(old(queue.objects))
    {
      var some;
      some, s' := TakeUpRange(r, s);
      if some {
        s' := ExecuteTasks(s');
      }
    }

    /** All the ranges, one after the other: every wanted sample ends up in exactly one finished task. */
    method Run(ghost start: int, ghost end: int, ghost s: State) returns (ghost s': State)
      requires Holds(s) && Init(config, s) && config.workers >= 1 && config.capacity >= 1
      modifies this, queue, queue.objects, manager.workers, world, world.hosts
      ensures Holds(s') && Reachable(config, s') && Ended(config, s')
      ensures WellConfigured(config, start, end) ==> NothingLost(config, queue.view, start, end)
      ensures WellConfigured(config, start, end) && NameDecides(config) ==> ExactlyOnce(config, queue.view, start, end)
    {
      s' := RunRanges(s);
      if WellConfigured(config, start, end) {
        EndedMigration(config, s', start, end);
      }
    }

    method RunRanges(ghost s: State) returns (ghost s': State)
      requires Holds(s) && Init(config, s)
      requires config.workers >= 1 && config.capacity >= 1
      modifies this, queue, queue.objects, manager.workers, world, world.hosts
      ensures Holds(s') && Reachable(config, s') && Ended(config, s')
    {
      s' := s;
      assert IsRun(config, [s]);
      for i := 0 to |config.ranges|
        invariant Holds(s') && Reachable(config, s') && s'.pc == Between && s'.range == i
        invariant OnlyNew(old(queue.objects))
      {
        s' := RunRange(config.ranges[i], s');
      }
    }
  }

  lemma EndedIsComplete(c: Config, s: State)
    requires Reachable(c, s) && c.workers >= 1 && s.pc == Between
    ensures IsComplete(s.queue) && Accounting(s.queue)
  {
    ReachableInv(c, s);
  }

  /**
   * The whole program: it cuts the interval, runs all ranges and ends with a complete queue that accounts
   * for every wanted sample once.
   */
  method Migrate(settings: Config, start: int, end: int, step: string, reverse: bool)
    returns (o: Orchestrator, ghost s: State)
    requires settings.workers >= 1 && settings.capacity >= 1
    ensures o.config == settings.(ranges := RangesOf(start, end, step, reverse))
    ensures o.Holds(s) && Reachable(o.config, s) && Ended(o.config, s)
    ensures o.queue.Valid() && IsComplete(o.queue.view) && Accounting(o.queue.view)
    ensures Expressible(o.config) ==> NothingLost(o.config, o.queue.view, start, end)
    ensures Expressible(o.config) && NameDecides(o.config) ==> ExactlyOnce(o.config, o.queue.view, start, end)
  {
    var ranges := SplitTimeRange(start, end, step, reverse);
    RangesCoverOnce(start, end, step, reverse);
    o, s := Prepare(settings.(ranges := ranges));
    s := o.Run(start, end, s);
    EndedIsComplete(o.config, s);
  }
}
