/** Where tasks come from: every task is about a metric that was discovered in one of the ranges. */
module Origins {
  import opened Selectors
  import opened Collections
  import opened Splitting
  import opened TimeRanges
  import opened Tasks
  import opened Protocol
  import opened Ownership
  import opened Liveness

  ghost predicate FromRange(c: Config, metric: string, start: int, end: int) {
    exists i :: 0 <= i < |c.ranges| && c.ranges[i] == TimeRange(start, end) && metric in Metrics(c, c.ranges[i])
  }

  /** The task is about such a metric and range, and may be tried as often as is configured. */
  ghost predicate Stems(c: Config, t: Task) {
    FromRange(c, t.metric, t.start, t.end) && t.maxRetries == c.maxRetries
  }

  ghost predicate AllFromRanges(c: Config, q: Queue) {
    forall id :: id in q.info ==> Stems(c, q.info[id])
  }

  lemma SameWorkSameOrigin(c: Config, q: Queue, q': Queue)
    requires AllFromRanges(c, q) && KeepsWork(q, q')
    ensures AllFromRanges(c, q')
  {
    forall id | id in q'.info ensures Stems(c, q'.info[id]) {
      assert SameWork(q.info[id], q'.info[id]) && Stems(c, q.info[id]);
    }
  }

  lemma BatchOrigin(c: Config, q: Queue, q': Queue, counter: nat, ts: seq<Task>)
    requires AllFromRanges(c, q) && q'.info == q.info + Batch(counter, ts)
    requires forall t :: t in ts ==> Stems(c, t)
    ensures AllFromRanges(c, q')
  {
    forall id | id in q'.info ensures Stems(c, q'.info[id]) {
      if id in Batch(counter, ts) {
        BatchRecords(counter, ts, id);
      }
    }
  }

  lemma StartRangeOrigin(c: Config, s: State, metrics: seq<string>)
    requires AllFromRanges(c, s.queue) && s.range < |c.ranges|
    requires Elements(metrics) == Metrics(c, c.ranges[s.range])
    ensures AllFromRanges(c, DoStartRange(c, s, metrics).queue)
  {
    var ts := OptimisticTasks(c, metrics, c.ranges[s.range]);
    forall i | 0 <= i < |ts| ensures Stems(c, ts[i]) {
      assert metrics[i] in Elements(metrics);
      assert c.ranges[s.range] == TimeRange(ts[i].start, ts[i].end);
    }
    if metrics != [] {
      BatchOrigin(c, s.queue, DoStartRange(c, s, metrics).queue, s.counter, ts);
    }
  }

  lemma ResplitOrigin(c: Config, s: State, sels: seq<SelectorInfo>)
    requires AllFromRanges(c, s.queue) && Sane(s) && s.pc.Handling? && s.pc.message.id in s.queue.running
    requires MayResplit(s.queue, s.pc.message)
    ensures AllFromRanges(c, DoHandle(c, s, Some(sels)).queue)
  {
    var t := s.queue.info[s.pc.message.id];
    assert Stems(c, t);
    BatchOrigin(c, s.queue, DoHandle(c, s, Some(sels)).queue, s.counter, SubTasks(c, t, sels));
  }

  lemma StepOrigin(c: Config, s: State, step: Step, s': State)
    requires AllFromRanges(c, s.queue) && Takes(c, s, step, s')
    requires s.pc.Handling? ==> s.pc.message.id in s.queue.running
    ensures AllFromRanges(c, s'.queue)
  {
    if IsPlain(step) {
      PlainStepKeepsWork(c, s, step, s');
      SameWorkSameOrigin(c, s.queue, s'.queue);
    } else if step.StartRange? {
      StartRangeOrigin(c, s, step.metrics);
    } else {
      ResplitOrigin(c, s, step.resplit.value);
    }
  }

  /** In every reachable state. */
  lemma {:induction false} RunOrigin(c: Config, run: seq<State>)
    requires IsRun(c, run) && c.workers >= 1
    ensures AllFromRanges(c, run[|run| - 1].queue)
  {
    if |run| > 1 {
      var before, step := LastStep(c, run);
      RunOrigin(c, before);
      RunKeepsInv(c, before);
      if run[|run| - 2].pc.Handling? {
        HandledTaskIsRunning(c, run[|run| - 2]);
      }
      StepOrigin(c, run[|run| - 2], step, run[|run| - 1]);
    }
  }
}
