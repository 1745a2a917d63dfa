/** How often a sample is sent: at most two tasks ever cover it, and each is sent within its attempts. */
module Sends {
  import opened Selectors
  import opened Collections
  import opened Discovery
  import opened Splitting
  import opened Tasks
  import opened Protocol
  import opened Ownership
  import opened Liveness
  import opened Coverage
  import opened Answers
  import opened Starts

  /** The tasks that ever covered a sample, replaced or not. */
  function TasksOf(c: Config, q: Queue, p: Sample): set<string> {
    set id | id in q.info && InTask(c, q.info[id], p)
  }

  /** Those of them that did not come from a split. */
  function FirstTasks(c: Config, q: Queue, p: Sample): set<string> {
    set id | id in q.info && !q.info[id].splitAttempted && InTask(c, q.info[id], p)
  }

  /** Each sample in scope has one first task, and the pieces of a split are not split again. */
  ghost predicate SplitOnce(c: Config, q: Queue, n: nat) {
    && (forall p :: |FirstTasks(c, q, p)| == if InScope(c, n, p) then 1 else 0)
    && forall id :: id in q.replaced && id in q.info ==> !q.info[id].splitAttempted
  }

  lemma PlainSplitsOnce(c: Config, q: Queue, q': Queue, n: nat)
    requires SplitOnce(c, q, n) && KeepsWork(q, q') && q'.replaced == q.replaced
    ensures SplitOnce(c, q', n)
  {
    forall p ensures FirstTasks(c, q', p) == FirstTasks(c, q, p) {
    }
  }

  lemma AddSplitsOnce(c: Config, q: Queue, n: nat, metrics: seq<string>, ids: seq<string>, batch: map<string, Task>)
    requires Usable(c) && SplitOnce(c, q, n) && n < |c.ranges|
    requires NoDuplicates(metrics) && Elements(metrics) == Metrics(c, c.ranges[n])
    requires |ids| == |metrics| && IsBatch(q, ids, batch)
    requires forall i :: 0 <= i < |ids| ==>
               ids[i] in batch && batch[ids[i]] == OptimisticTasks(c, metrics, c.ranges[n])[i]
    ensures SplitOnce(c, Add(q, ids, batch), n + 1)
  {
    var q', ts := Add(q, ids, batch), OptimisticTasks(c, metrics, c.ranges[n]);
    forall p ensures |FirstTasks(c, q', p)| == if InScope(c, n + 1, p) then 1 else 0 {
      FirstTasksOfBatch(c, q, q', ids, ts, batch, p);
      NewCoverersOfRange(c, metrics, c.ranges[n], ids, p);
      NextScope(c, n, p);
      assert |FirstTasks(c, q, p)| == if InScope(c, n, p) then 1 else 0;
    }
  }

  lemma FirstTasksOfBatch(c: Config, q: Queue, q': Queue, ids: seq<string>, ts: seq<Task>, batch: map<string, Task>,
                          p: Sample)
    requires |ids| == |ts| && IsBatch(q, ids, batch) && q'.info == q.info + batch
    requires forall i :: 0 <= i < |ids| ==> ids[i] in batch && batch[ids[i]] == ts[i] && !ts[i].splitAttempted
    ensures FirstTasks(c, q', p) == FirstTasks(c, q, p) + NewCoverers(c, ids, ts, p)
    ensures FirstTasks(c, q, p) !! NewCoverers(c, ids, ts, p)
  {
    forall id ensures id in FirstTasks(c, q', p) <==> id in FirstTasks(c, q, p) + NewCoverers(c, ids, ts, p) {
      if id in batch {
        assert id in ids;
        var i :| 0 <= i < |ids| && ids[i] == id;
        assert batch[ids[i]] == ts[i];
      }
    }
  }

  lemma EmptyRangeSplitsOnce(c: Config, q: Queue, n: nat)
    requires Usable(c) && SplitOnce(c, q, n) && n < |c.ranges| && Metrics(c, c.ranges[n]) == {}
    ensures SplitOnce(c, q, n + 1)
  {
    forall p ensures InScope(c, n + 1, p) <==> InScope(c, n, p) {
      NextScope(c, n, p);
    }
  }

  lemma RangeBatch(c: Config, s: State, metrics: seq<string>)
    requires AllNumbered(s) && s.range < |c.ranges|
    ensures var ts := OptimisticTasks(c, metrics, c.ranges[s.range]);
            var ids, batch := NewIds(s.counter, |ts|), Batch(s.counter, ts);
            && IsBatch(s.queue, ids, batch)
            && forall i :: 0 <= i < |ids| ==> ids[i] in batch && batch[ids[i]] == ts[i]
  {
    var ts := OptimisticTasks(c, metrics, c.ranges[s.range]);
    BatchIsNew(s, ts, NewIds(s.counter, |ts|), Batch(s.counter, ts));
    BatchHas(s.counter, ts);
  }

  lemma BatchSplitsOnce(c: Config, s: State, metrics: seq<string>)
    requires Usable(c) && SplitOnce(c, s.queue, s.range) && AllNumbered(s) && s.range < |c.ranges|
    requires NoDuplicates(metrics) && Elements(metrics) == Metrics(c, c.ranges[s.range])
    ensures var ts := OptimisticTasks(c, metrics, c.ranges[s.range]);
            SplitOnce(c, Add(s.queue, NewIds(s.counter, |ts|), Batch(s.counter, ts)), s.range + 1)
  {
    var ts := OptimisticTasks(c, metrics, c.ranges[s.range]);
    RangeBatch(c, s, metrics);
    AddSplitsOnce(c, s.queue, s.range, metrics, NewIds(s.counter, |ts|), Batch(s.counter, ts));
  }

  lemma StartSplitsOnce(c: Config, s: State, metrics: seq<string>)
    requires Usable(c) && SplitOnce(c, s.queue, s.range) && AllNumbered(s) && s.range < |c.ranges|
    requires NoDuplicates(metrics) && Elements(metrics) == Metrics(c, c.ranges[s.range])
    ensures SplitOnce(c, DoStartRange(c, s, metrics).queue, s.range + 1)
  {
    if metrics == [] {
      EmptyRangeSplitsOnce(c, s.queue, s.range);
    } else {
      BatchSplitsOnce(c, s, metrics);
    }
  }

  lemma ReplaceSplitsOnce(c: Config, q: Queue, n: nat, id: string, ids: seq<string>, batch: map<string, Task>)
    requires SplitOnce(c, q, n) && IsBatch(q, ids, batch) && id in q.running && id in q.info
    requires q.replaced <= q.info.Keys
    requires !q.info[id].splitAttempted && forall k :: k in batch ==> batch[k].splitAttempted
    ensures SplitOnce(c, Replace(q, id, ids, batch), n)
  {
    forall p ensures FirstTasks(c, Replace(q, id, ids, batch), p) == FirstTasks(c, q, p) {
    }
  }

  lemma ResplitSplitsOnce(c: Config, s: State, sels: seq<SelectorInfo>)
    requires SplitOnce(c, s.queue, s.range) && Tracked(s.queue) && AllNumbered(s) && Sane(s) && s.pc.Handling?
    requires MayResplit(s.queue, s.pc.message) && s.pc.message.id in s.queue.running
    ensures SplitOnce(c, DoHandle(c, s, Some(sels)).queue, s.range)
  {
    var id := s.pc.message.id;
    var ts := SubTasks(c, s.queue.info[id], sels);
    var ids, batch := NewIds(s.counter, |ts|), Batch(s.counter, ts);
    BatchIsNew(s, ts, ids, batch);
    forall k | k in batch ensures batch[k].splitAttempted {
      BatchRecords(s.counter, ts, k);
    }
    forall k | k in s.queue.replaced ensures k in s.queue.info {
      assert IdOk(s.queue, k);
    }
    ReplaceSplitsOnce(c, s.queue, s.range, id, ids, batch);
  }

  lemma PlainStepSplitsOnce(c: Config, s: State, step: Step, s': State)
    requires SplitOnce(c, s.queue, s.range) && Takes(c, s, step, s') && IsPlain(step)
    requires s.pc.Handling? ==> s.pc.message.id in s.queue.running
    ensures SplitOnce(c, s'.queue, s'.range)
  {
    PlainStepKeepsWork(c, s, step, s');
    PlainKeepsReplaced(c, s, step, s');
    PlainSplitsOnce(c, s.queue, s'.queue, s.range);
  }

  lemma PlainKeepsReplaced(c: Config, s: State, step: Step, s': State)
    requires Takes(c, s, step, s') && IsPlain(step)
    ensures s'.queue.replaced == s.queue.replaced
  {
    if !IsQueueStep(step) {
      QuietQueue(c, s, step, s');
    }
  }

  lemma StepSplitsOnce(c: Config, s: State, step: Step, s': State)
    requires Usable(c) && Inv(c, s) && SplitOnce(c, s.queue, s.range) && Takes(c, s, step, s')
    requires s.pc.Handling? ==> s.pc.message.id in s.queue.running
    ensures SplitOnce(c, s'.queue, s'.range)
  {
    if IsPlain(step) {
      PlainStepSplitsOnce(c, s, step, s');
    } else if step.StartRange? {
      StartSplitsOnce(c, s, step.metrics);
    } else {
      ResplitSplitsOnce(c, s, step.resplit.value);
    }
  }

  lemma {:induction false} RunSplitsOnce(c: Config, run: seq<State>)
    requires IsRun(c, run) && c.workers >= 1 && Usable(c)
    ensures var s := run[|run| - 1]; SplitOnce(c, s.queue, s.range)
  {
    if |run| == 1 {
      assert forall p :: FirstTasks(c, EMPTY, p) == {};
    } else {
      var before, step := LastStep(c, run);
      RunSplitsOnce(c, before);
      RunKeepsInv(c, before);
      if before[|before| - 1].pc.Handling? {
        HandledTaskIsRunning(c, before[|before| - 1]);
      }
      StepSplitsOnce(c, before[|before| - 1], step, run[|run| - 1]);
    }
  }

  /** In every reachable state at most two tasks ever covered a sample: its first task and one piece of its split. */
  lemma AtMostTwoTasks(c: Config, run: seq<State>, p: Sample)
    requires IsRun(c, run) && c.workers >= 1 && Usable(c) && CanSplit(c)
    ensures |TasksOf(c, run[|run| - 1].queue, p)| <= 2
  {
    var s := run[|run| - 1];
    RunKeepsInv(c, run);
    RunCovers(c, run);
    RunSplitsOnce(c, run);
    FirstOrAccounted(c, s.queue, p);
    assert |Coverers(c, s.queue, p)| <= 1 && |FirstTasks(c, s.queue, p)| <= 1;
    SmallerSet(TasksOf(c, s.queue, p), Coverers(c, s.queue, p) + FirstTasks(c, s.queue, p));
  }

  lemma FirstOrAccounted(c: Config, q: Queue, p: Sample)
    requires Tracked(q) && forall id :: id in q.replaced && id in q.info ==> !q.info[id].splitAttempted
    ensures TasksOf(c, q, p) <= Coverers(c, q, p) + FirstTasks(c, q, p)
  {
    forall id | id in TasksOf(c, q, p) ensures id in Coverers(c, q, p) || id in FirstTasks(c, q, p) {
      assert IdOk(q, id);
    }
  }

  // ---------- the processes begun for a sample ----------

  /** The task for which a step may begin a process. */
  function Sender(step: Step): string {
    match step
    case Arrive(id) => id
    case LateArrive(_, id) => id
    case _ => ""
  }

  /** How many processes are begun for any of the tasks. */
  function BegunFor(run: seq<State>, steps: seq<Step>, ids: set<string>): nat
    requires |run| == |steps| + 1
  {
    if steps == [] then 0
    else
      var n := |steps| - 1;
      var id := Sender(steps[n]);
      BegunFor(run[..n + 1], steps[..n], ids) + if id in ids && Begins(run[n], steps[n], id) then 1 else 0
  }

  lemma {:induction false} BegunForOneMore(run: seq<State>, steps: seq<Step>, ids: set<string>, x: string)
    requires |run| == |steps| + 1 && x in ids
    ensures BegunFor(run, steps, ids) == BegunFor(run, steps, ids - {x}) + Begun(run, steps, x)
    decreases |steps|
  {
    if steps != [] {
      var n := |steps| - 1;
      BegunForOneMore(run[..n + 1], steps[..n], ids, x);
      assert Begins(run[n], steps[n], x) ==> Sender(steps[n]) == x;
    }
  }

  lemma {:induction false} BegunForNone(run: seq<State>, steps: seq<Step>)
    requires |run| == |steps| + 1
    ensures BegunFor(run, steps, {}) == 0
    decreases |steps|
  {
    if steps != [] {
      BegunForNone(run[..|steps|], steps[..|steps| - 1]);
    }
  }

  lemma OneMoreTime(n: nat, limit: nat)
    ensures (n + 1) * limit == n * limit + limit
  {
  }

  lemma {:induction false} BegunForBound(run: seq<State>, steps: seq<Step>, ids: set<string>, limit: nat)
    requires |run| == |steps| + 1 && forall id :: id in ids ==> Begun(run, steps, id) <= limit
    ensures BegunFor(run, steps, ids) <= |ids| * limit
    decreases ids
  {
    if ids == {} {
      BegunForNone(run, steps);
    } else {
      var x :| x in ids;
      BegunForOneMore(run, steps, ids, x);
      BegunForBound(run, steps, ids - {x}, limit);
      OneMoreTime(|ids - {x}|, limit);
    }
  }

  /**
   * In any run, with calls lost and requests late, at most twice max(1, MaxRetries) vmctl processes are begun
   * for the tasks that cover a sample: its first task and one piece of its split.
   */
  lemma SampleIsSentAtMost(c: Config, run: seq<State>, steps: seq<Step>, p: Sample)
    requires IsTrace(c, run, steps) && c.workers >= 1 && Usable(c) && CanSplit(c)
    ensures var limit := if c.maxRetries < 1 then 1 else c.maxRetries;
            BegunFor(run, steps, TasksOf(c, run[|steps|].queue, p)) <= 2 * limit
  {
    var limit: nat := if c.maxRetries < 1 then 1 else c.maxRetries;
    var ids := TasksOf(c, run[|steps|].queue, p);
    TraceIsRun(c, run, steps);
    AtMostTwoTasks(c, run, p);
    forall id | id in ids ensures Begun(run, steps, id) <= limit {
      SentWithinAttempts(c, run, steps, id);
    }
    BegunForBound(run, steps, ids, limit);
    TwiceAtMost(|ids|, limit);
  }

  lemma TwiceAtMost(n: nat, limit: nat)
    requires n <= 2
    ensures n * limit <= 2 * limit
  {
  }
}
