/** The bytes that workers report: none is lost on the way from an answer to the total. */
module Transfers {
  import opened Selectors
  import opened Collections
  import opened Splitting
  import opened Tasks
  import opened Protocol
  import opened Ownership
  import opened Liveness
  import opened Answers

  // ---------- bytes on their way ----------

  function BytesOf(o: Outcome): int {
    if IsSuccess(o) then o.bytes else 0
  }

  function FlightBytes(s: State, id: string): int {
    if id !in s.flights then 0
    else
      match s.flights[id].phase
      case Answered(o) => BytesOf(o)
      case Released(o) => BytesOf(o)
      case _ => 0
  }

  function ChannelBytes(channel: seq<Message>, id: string): int {
    if channel == [] then 0
    else (if channel[0].id == id then BytesOf(channel[0].outcome) else 0) + ChannelBytes(channel[1..], id)
  }

  function HandledBytes(s: State, id: string): int {
    if s.pc.Handling? && s.pc.message.id == id then BytesOf(s.pc.message.outcome) else 0
  }

  function RecordedBytes(q: Queue, id: string): int {
    if id in q.done && id in q.info then q.info[id].bytes else 0
  }

  /** The bytes of a task: recorded, or with its goroutine, in the channel or in the coordinator's hands. */
  function CarriedBytes(s: State, id: string): int {
    RecordedBytes(s.queue, id) + FlightBytes(s, id) + ChannelBytes(s.channel, id) + HandledBytes(s, id)
  }

  /** What a step adds to them: the bytes of a successful answer. */
  function ReportedBytes(step: Step, id: string): int {
    if step.Reply? && step.id == id then BytesOf(step.outcome) else 0
  }

  predicate Carries(s: State, step: Step, s': State, id: string) {
    CarriedBytes(s', id) == CarriedBytes(s, id) + ReportedBytes(step, id)
  }

  lemma {:induction false} ChannelBytesAppend(channel: seq<Message>, m: Message, id: string)
    ensures ChannelBytes(channel + [m], id)
         == ChannelBytes(channel, id) + if m.id == id then BytesOf(m.outcome) else 0
  {
    if channel == [] {
      assert (channel + [m])[1..] == [];
    } else {
      assert (channel + [m])[1..] == channel[1..] + [m];
      ChannelBytesAppend(channel[1..], m, id);
    }
  }

  /** A step of one goroutine that keeps everything but its phase and the servers. */
  lemma PhaseCarries(s: State, s': State, k: string, more: int, id: string)
    requires k in s.flights && s'.flights.Keys == s.flights.Keys
    requires forall x :: x in s.flights && x != k ==> s'.flights[x] == s.flights[x]
    requires s'.queue == s.queue && s'.channel == s.channel && s'.pc == s.pc
    requires FlightBytes(s', k) == FlightBytes(s, k) + more
    ensures CarriedBytes(s', id) == CarriedBytes(s, id) + if k == id then more else 0
  {
  }

  lemma GoroutineCarries(c: Config, s: State, step: Step, s': State, id: string)
    requires Takes(c, s, step, s') && (step.Arrive? || step.Reply? || step.Lose? || step.Release?)
    ensures Carries(s, step, s', id)
  {
    PhaseCarries(s, s', step.id, ReportedBytes(step, step.id), id);
  }

  lemma SendCarries(s: State, k: string, id: string)
    requires k in s.flights && s.flights[k].phase.Released?
    ensures Carries(s, Send(k), DoSend(s, k), id)
  {
    ChannelBytesAppend(s.channel, Message(k, s.flights[k].phase.outcome), id);
  }

  lemma ReceiveCarries(s: State, id: string)
    requires s.channel != [] && !s.pc.Handling?
    ensures Carries(s, Receive, DoReceive(s), id)
  {
  }

  lemma TakeNextCarries(s: State, id: string)
    requires Sane(s) && s.pc.Holding? && s.pc.worker < |s.busy|
    requires s.queue.pending != [] ==> s.queue.pending[0] !in s.flights && s.queue.pending[0] !in s.queue.done
    ensures Carries(s, TakeNext, DoTakeNext(s), id)
  {
  }

  lemma QuietStepCarries(c: Config, s: State, step: Step, s': State, id: string)
    requires Takes(c, s, step, s')
    requires step.Acquire? || step.Finish? || step.LateArrive? || step.Vanish? || step.LateDone?
    ensures Carries(s, step, s', id)
  {
    assert s'.queue == s.queue && s'.flights == s.flights && s'.channel == s.channel;
  }

  // ---------- the coordinator's queue ----------

  lemma FailKeepsBytes(q: Queue, k: string, error: string, id: string)
    requires q.running <= q.info.Keys && k in q.running && k !in q.done
    ensures RecordedBytes(Fail(q, k, error), id) == RecordedBytes(q, id)
  {
  }

  lemma CompleteRecords(q: Queue, k: string, bytes: int, id: string)
    requires q.running <= q.info.Keys && k in q.running && k !in q.done
    ensures RecordedBytes(Complete(q, k, bytes), id) == RecordedBytes(q, id) + if id == k then bytes else 0
  {
  }

  lemma OutcomeCarries(c: Config, s: State, id: string)
    requires Sane(s) && s.pc.Handling? && s.pc.message.id in s.queue.running && s.pc.message.id !in s.queue.done
    ensures Carries(s, Step.Handle(None), DoHandle(c, s, None), id)
  {
    var m := s.pc.message;
    match m.outcome
    case RpcError(message) => FailKeepsBytes(s.queue, m.id, message, id);
    case Exited(code, bytes, cardinality, errorText) =>
      if code == 0 {
        CompleteRecords(s.queue, m.id, bytes, id);
      } else {
        FailKeepsBytes(s.queue, m.id, FailureReason(code, errorText), id);
      }
  }

  lemma BatchKeepsBytes(q: Queue, q': Queue, batch: map<string, Task>, id: string)
    requires q'.info == q.info + batch && q'.done == q.done && forall k :: k in batch ==> k !in q.info
    requires forall k :: k in q.done ==> k in q.info
    ensures RecordedBytes(q', id) == RecordedBytes(q, id)
  {
  }

  lemma ResplitCarries(c: Config, s: State, sels: seq<SelectorInfo>, id: string)
    requires Inv(c, s) && Sane(s) && s.pc.Handling? && MayResplit(s.queue, s.pc.message)
    ensures Carries(s, Step.Handle(Some(sels)), DoHandle(c, s, Some(sels)), id)
  {
    var ts := SubTasks(c, s.queue.info[s.pc.message.id], sels);
    BatchIsNew(s, ts, NewIds(s.counter, |ts|), Batch(s.counter, ts));
    DoneIsKnown(s.queue);
    BatchKeepsBytes(s.queue, DoHandle(c, s, Some(sels)).queue, Batch(s.counter, ts), id);
  }

  lemma StartRangeCarries(c: Config, s: State, metrics: seq<string>, id: string)
    requires Inv(c, s) && Sane(s) && s.range < |c.ranges| && s.pc == Between && s.channel == []
    ensures Carries(s, StartRange(metrics), DoStartRange(c, s, metrics), id)
  {
    if metrics != [] {
      var ts := OptimisticTasks(c, metrics, c.ranges[s.range]);
      BatchIsNew(s, ts, NewIds(s.counter, |ts|), Batch(s.counter, ts));
      DoneIsKnown(s.queue);
      BatchKeepsBytes(s.queue, DoStartRange(c, s, metrics).queue, Batch(s.counter, ts), id);
    }
  }

  lemma DoneIsKnown(q: Queue)
    requires Tracked(q)
    ensures forall id :: id in q.done ==> id in q.info
  {
    forall id | id in q.done ensures id in q.info {
      assert IdOk(q, id);
    }
  }

  lemma HandleCarries(c: Config, s: State, step: Step, s': State, id: string)
    requires Inv(c, s) && Takes(c, s, step, s') && step.Handle?
    ensures Carries(s, step, s', id)
  {
    HandledTaskIsRunning(c, s);
    assert IdOk(s.queue, s.pc.message.id);
    if step.resplit.Some? {
      ResplitCarries(c, s, step.resplit.value, id);
    } else {
      OutcomeCarries(c, s, id);
    }
  }

  lemma DispatchCarries(c: Config, s: State, step: Step, s': State, id: string)
    requires Inv(c, s) && Takes(c, s, step, s') && step.TakeNext?
    ensures Carries(s, step, s', id)
  {
    if s.queue.pending != [] {
      assert TaskOwned(s, s.queue.pending[0]) && IdOk(s.queue, s.queue.pending[0]);
    }
    TakeNextCarries(s, id);
  }

  /** No step loses or adds bytes but a successful answer. */
  lemma StepCarries(c: Config, s: State, step: Step, s': State, id: string)
    requires Inv(c, s) && Takes(c, s, step, s')
    ensures Carries(s, step, s', id)
  {
    if step.Arrive? || step.Reply? || step.Lose? || step.Release? {
      GoroutineCarries(c, s, step, s', id);
    } else if step.Send? {
      SendCarries(s, step.id, id);
    } else if step.Receive? {
      ReceiveCarries(s, id);
    } else if step.Handle? {
      HandleCarries(c, s, step, s', id);
    } else if step.TakeNext? {
      DispatchCarries(c, s, step, s', id);
    } else if step.StartRange? {
      NothingOutstanding(c, s);
      StartRangeCarries(c, s, step.metrics, id);
    } else {
      QuietStepCarries(c, s, step, s', id);
    }
  }

  // ---------- whole runs ----------

  /** The bytes of the task's successful answers. */
  function Reported(steps: seq<Step>, id: string): int {
    if steps == [] then 0 else Reported(steps[..|steps| - 1], id) + ReportedBytes(steps[|steps| - 1], id)
  }

  /** The bytes of all successful answers. */
  function AllReported(steps: seq<Step>): int {
    if steps == [] then 0
    else
      var last := steps[|steps| - 1];
      AllReported(steps[..|steps| - 1]) + if last.Reply? then BytesOf(last.outcome) else 0
  }

  /** In any run a task's bytes are those of its successful answers, wherever they are. */
  lemma {:induction false} BytesAreCarried(c: Config, run: seq<State>, steps: seq<Step>, id: string)
    requires IsTrace(c, run, steps) && c.workers >= 1
    ensures CarriedBytes(run[|steps|], id) == Reported(steps, id)
    decreases |steps|
  {
    if steps != [] {
      var n := |steps| - 1;
      TracePrefix(c, run, steps, n);
      BytesAreCarried(c, run[..n + 1], steps[..n], id);
      TraceInv(c, run, steps, n);
      assert TakesAt(c, run, steps, n);
      StepCarries(c, run[n], steps[n], run[n + 1], id);
    }
  }

  /** A success that was reported once: its bytes are all the task's. */
  lemma {:induction false} ReportedOnce(steps: seq<Step>, id: string, i: nat)
    requires i in Successes(steps, id) && |Successes(steps, id)| == 1
    ensures Reported(steps, id) == BytesOf(steps[i].outcome)
  {
    var n := |steps| - 1;
    SuccessesSnoc(steps, id);
    if i == n {
      NoneReported(steps[..n], id);
    } else {
      assert i in Successes(steps[..n], id);
      SmallerSet({i}, Successes(steps[..n], id));
      ReportedOnce(steps[..n], id, i);
    }
  }

  lemma {:induction false} NoneReported(steps: seq<Step>, id: string)
    requires Successes(steps, id) == {}
    ensures Reported(steps, id) == 0
  {
    if steps != [] {
      var n := |steps| - 1;
      SuccessesSnoc(steps, id);
      assert n !in Successes(steps, id);
      assert Successes(steps[..n], id) == {};
      NoneReported(steps[..n], id);
    }
  }

  /** At the end a task that is done has the bytes of its one successful answer. */
  lemma DoneHasItsBytes(c: Config, run: seq<State>, steps: seq<Step>, id: string, i: nat)
    requires IsTrace(c, run, steps) && c.workers >= 1 && Ended(c, run[|steps|])
    requires i in Successes(steps, id)
    ensures var q := run[|steps|].queue;
            id in q.done && id in q.info && q.info[id].bytes == steps[i].outcome.bytes
  {
    DoneIsAnsweredOnce(c, run, steps, id);
    assert Successes(steps, id) != {};
    TraceInv(c, run, steps, |steps|);
    NothingOutstanding(c, run[|steps|]);
    DoneIsKnown(run[|steps|].queue);
    BytesAreCarried(c, run, steps, id);
    ReportedOnce(steps, id, i);
  }

  // ---------- the total ----------

  function SumReported(steps: seq<Step>, ids: seq<string>): int {
    if ids == [] then 0 else SumReported(steps, ids[..|ids| - 1]) + Reported(steps, ids[|ids| - 1])
  }

  lemma ReportedSnoc(steps: seq<Step>, last: Step, id: string)
    ensures Reported(steps + [last], id)
         == Reported(steps, id) + if last.Reply? && last.id == id then BytesOf(last.outcome) else 0
  {
    assert (steps + [last])[..|steps|] == steps;
  }

  /** One more step adds its bytes to the sum if its task is among them. */
  lemma {:induction false} SumSnoc(steps: seq<Step>, last: Step, ids: seq<string>)
    requires NoDuplicates(ids)
    ensures SumReported(steps + [last], ids)
         == SumReported(steps, ids) + if last.Reply? && last.id in ids then BytesOf(last.outcome) else 0
  {
    if ids != [] {
      var n := |ids| - 1;
      SumSnoc(steps, last, ids[..n]);
      ReportedSnoc(steps, last, ids[n]);
      assert ids == ids[..n] + [ids[n]];
    }
  }

  lemma {:induction false} SumOfNone(ids: seq<string>)
    ensures SumReported([], ids) == 0
  {
    if ids != [] {
      SumOfNone(ids[..|ids| - 1]);
    }
  }

  /** All answers are for tasks among these. */
  lemma {:induction false} AllReportedIsSum(steps: seq<Step>, ids: seq<string>)
    requires NoDuplicates(ids)
    requires forall i :: 0 <= i < |steps| && steps[i].Reply? && IsSuccess(steps[i].outcome) ==> steps[i].id in ids
    ensures AllReported(steps) == SumReported(steps, ids)
  {
    if steps == [] {
      SumOfNone(ids);
    } else {
      var n := |steps| - 1;
      AllReportedIsSum(steps[..n], ids);
      SumSnoc(steps[..n], steps[n], ids);
      assert steps == steps[..n] + [steps[n]];
    }
  }

  lemma {:induction false} DoneBytesAreSum(q: Queue, steps: seq<Step>, ids: seq<string>)
    requires forall id :: id in ids ==> id in q.info && id in q.done && RecordedBytes(q, id) == Reported(steps, id)
    ensures DoneBytes(q, ids) == SumReported(steps, ids)
  {
    if ids != [] {
      DoneBytesAreSum(q, steps, ids[..|ids| - 1]);
    }
  }

  /** At the end the total is the sum of the bytes of all successful answers of the run. */
  lemma TotalIsReported(c: Config, run: seq<State>, steps: seq<Step>)
    requires IsTrace(c, run, steps) && c.workers >= 1 && Ended(c, run[|steps|])
    ensures var q := run[|steps|].queue;
            (forall id :: id in q.done ==> id in q.info) && DoneBytes(q, q.done) == AllReported(steps)
  {
    var s := run[|steps|];
    TraceInv(c, run, steps, |steps|);
    NothingOutstanding(c, s);
    DoneIsKnown(s.queue);
    forall i | 0 <= i < |steps| && steps[i].Reply? && IsSuccess(steps[i].outcome) ensures steps[i].id in s.queue.done {
      assert i in Successes(steps, steps[i].id);
      DoneHasItsBytes(c, run, steps, steps[i].id, i);
    }
    forall id | id in s.queue.done ensures RecordedBytes(s.queue, id) == Reported(steps, id) {
      BytesAreCarried(c, run, steps, id);
    }
    DoneBytesAreSum(s.queue, steps, s.queue.done);
    AllReportedIsSum(steps, s.queue.done);
  }
}
