/** How often a sample is delivered: over a whole migration, by exactly one successful answer if its task is done. */
module Deliveries {
  import opened Selectors
  import opened Collections
  import opened Discovery
  import opened Splitting
  import opened Tasks
  import opened Protocol
  import opened Ownership
  import opened Liveness
  import opened Coverage
  import opened Scope
  import opened Migration
  import opened Answers

  // ---------- tasks keep their work ----------

  /** The known tasks stay known, with the same work. */
  ghost predicate KeepsTasks(q: Queue, q': Queue) {
    forall id :: id in q.info ==> id in q'.info && SameWork(q.info[id], q'.info[id])
  }

  lemma BatchKeepsTasks(s: State, q': Queue, ts: seq<Task>)
    requires AllNumbered(s) && q'.info == s.queue.info + Batch(s.counter, ts)
    ensures KeepsTasks(s.queue, q')
  {
    forall id | id in s.queue.info ensures id !in Batch(s.counter, ts) {
      if id in Batch(s.counter, ts) {
        BatchRecords(s.counter, ts, id);
        NewIdsAreNew(s, |ts|, id);
      }
    }
  }

  lemma StartRangeKeepsTasks(c: Config, s: State, metrics: seq<string>)
    requires AllNumbered(s) && s.range < |c.ranges|
    ensures KeepsTasks(s.queue, DoStartRange(c, s, metrics).queue)
  {
    if metrics != [] {
      var ts := OptimisticTasks(c, metrics, c.ranges[s.range]);
      BatchKeepsTasks(s, DoStartRange(c, s, metrics).queue, ts);
    }
  }

  lemma ResplitKeepsTasks(c: Config, s: State, sels: seq<SelectorInfo>)
    requires AllNumbered(s) && Sane(s) && s.pc.Handling? && MayResplit(s.queue, s.pc.message)
    ensures KeepsTasks(s.queue, DoHandle(c, s, Some(sels)).queue)
  {
    var ts := SubTasks(c, s.queue.info[s.pc.message.id], sels);
    BatchKeepsTasks(s, DoHandle(c, s, Some(sels)).queue, ts);
  }

  lemma StepKeepsTasks(c: Config, s: State, step: Step, s': State)
    requires AllNumbered(s) && Takes(c, s, step, s')
    requires s.pc.Handling? ==> s.pc.message.id in s.queue.running
    ensures KeepsTasks(s.queue, s'.queue)
  {
    if IsPlain(step) {
      PlainStepKeepsWork(c, s, step, s');
    } else if step.StartRange? {
      StartRangeKeepsTasks(c, s, step.metrics);
    } else {
      ResplitKeepsTasks(c, s, step.resplit.value);
    }
  }

  lemma {:induction false} TraceKeepsTasks(c: Config, run: seq<State>, steps: seq<Step>, i: nat)
    requires IsTrace(c, run, steps) && i <= |steps| && c.workers >= 1
    ensures KeepsTasks(run[i].queue, run[|steps|].queue)
    decreases |steps| - i
  {
    if i < |steps| {
      TraceInv(c, run, steps, i);
      assert TakesAt(c, run, steps, i);
      if run[i].pc.Handling? {
        HandledTaskIsRunning(c, run[i]);
      }
      StepKeepsTasks(c, run[i], steps[i], run[i + 1]);
      TraceKeepsTasks(c, run, steps, i + 1);
      assert forall id :: id in run[i].queue.info ==> id in run[i + 1].queue.info;
    }
  }

  // ---------- deliveries ----------

  /** A server answers with success for a task that covers the sample. */
  predicate Delivers(c: Config, s: State, step: Step, p: Sample) {
    && step.Reply? && IsSuccess(step.outcome)
    && step.id in s.queue.info && InTask(c, s.queue.info[step.id], p)
  }

  /** The points of a trace at which the sample is delivered. */
  function DeliveriesOf(c: Config, run: seq<State>, steps: seq<Step>, p: Sample): set<nat>
    requires |run| == |steps| + 1
  {
    set i: nat | i < |steps| && Delivers(c, run[i], steps[i], p)
  }

  /** A delivery is the successful answer of a task that covers the sample to the end. */
  lemma DeliveryIsOfTask(c: Config, run: seq<State>, steps: seq<Step>, p: Sample, i: nat)
    requires IsTrace(c, run, steps) && c.workers >= 1 && Ended(c, run[|steps|])
    requires i in DeliveriesOf(c, run, steps, p)
    ensures var id, q := steps[i].id, run[|steps|].queue;
            i in Successes(steps, id) && id in q.done && id in Coverers(c, q, p)
  {
    var id := steps[i].id;
    DoneIsAnsweredOnce(c, run, steps, id);
    TraceKeepsTasks(c, run, steps, i);
    assert i in Successes(steps, id);
    assert Successes(steps, id) != {};
  }

  lemma AnswerIsDelivery(c: Config, run: seq<State>, steps: seq<Step>, p: Sample, id: string, i: nat)
    requires IsTrace(c, run, steps) && c.workers >= 1
    requires i in Successes(steps, id) && id in Coverers(c, run[|steps|].queue, p)
    ensures i in DeliveriesOf(c, run, steps, p)
  {
    TraceInv(c, run, steps, i);
    assert TakesAt(c, run, steps, i);
    FlyingIsKnown(c, run[i], id);
    TraceKeepsTasks(c, run, steps, i);
    assert SameWork(run[i].queue.info[id], run[|steps|].queue.info[id]);
  }

  lemma FlyingIsKnown(c: Config, s: State, id: string)
    requires Inv(c, s) && id in s.flights
    ensures id in s.queue.info
  {
    assert TaskOwned(s, id) && IdOk(s.queue, id);
  }

  /** The deliveries of a sample are the successful answers of the done tasks that cover it. */
  lemma DeliveriesAreAnswers(c: Config, run: seq<State>, steps: seq<Step>, p: Sample)
    requires IsTrace(c, run, steps) && c.workers >= 1 && Ended(c, run[|steps|])
    requires |Coverers(c, run[|steps|].queue, p)| <= 1
    ensures var q := run[|steps|].queue;
            |DeliveriesOf(c, run, steps, p)| == |Coverers(c, q, p) * Elements(q.done)|
  {
    var q := run[|steps|].queue;
    var deliveries, covering := DeliveriesOf(c, run, steps, p), Coverers(c, q, p);
    if covering == {} {
      forall i | i in deliveries ensures false {
        DeliveryIsOfTask(c, run, steps, p, i);
      }
      assert deliveries == {} && covering * Elements(q.done) == {};
    } else {
      var id :| id in covering;
      SmallerSet({id}, covering);
      assert covering == {id};
      DoneIsAnsweredOnce(c, run, steps, id);
      forall i: nat ensures i in deliveries <==> i in Successes(steps, id) {
        if i in deliveries {
          DeliveryIsOfTask(c, run, steps, p, i);
        }
        if i in Successes(steps, id) {
          AnswerIsDelivery(c, run, steps, p, id, i);
        }
      }
      assert deliveries == Successes(steps, id);
      assert covering * Elements(q.done) == if id in q.done then {id} else {};
    }
  }

  /**
   * Over a whole migration a sample is delivered by one successful answer exactly when it is wanted and its
   * task was not abandoned, and by none otherwise.
   */
  lemma DeliveredOnce(c: Config, run: seq<State>, steps: seq<Step>, start: int, end: int, p: Sample)
    requires WellConfigured(c, start, end) && NameDecides(c)
    requires IsTrace(c, run, steps) && Ended(c, run[|steps|])
    ensures var q := run[|steps|].queue;
            var abandoned := Coverers(c, q, p) * Elements(q.failed) != {};
            |DeliveriesOf(c, run, steps, p)| == if Wanted(c, start, end, p) && !abandoned then 1 else 0
  {
    var q := run[|steps|].queue;
    TraceIsRun(c, run, steps);
    FinishedExactlyOnce(c, run, start, end, p);
    DeliveriesAreAnswers(c, run, steps, p);
    TraceInv(c, run, steps, |steps|);
    OneFinishedTask(c, q, p);
  }

  /** A single finished task is done or abandoned, not both. */
  lemma OneFinishedTask(c: Config, q: Queue, p: Sample)
    requires Tracked(q) && |Coverers(c, q, p)| <= 1 && Coverers(c, q, p) <= Finished(q)
    ensures var covering := Coverers(c, q, p);
            |covering * Elements(q.done)| ==
            if covering != {} && covering * Elements(q.failed) == {} then 1 else 0
  {
    var covering := Coverers(c, q, p);
    if covering == {} {
      assert covering * Elements(q.done) == {};
    } else {
      var id :| id in covering;
      SmallerSet({id}, covering);
      assert covering == {id} && IdOk(q, id);
      assert id in q.done || id in q.failed;
      assert covering * Elements(q.done) == if id in q.done then {id} else {};
      assert covering * Elements(q.failed) == if id in q.failed then {id} else {};
    }
  }
}
