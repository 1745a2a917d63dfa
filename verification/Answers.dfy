/** How often a task is answered with success: at most once in any run, by the answer that makes it done. */
module Answers {
  import opened Tasks
  import opened Protocol
  import opened Ownership
  import opened Liveness

  predicate IsSuccess(o: Outcome) {
    o.Exited? && o.code == 0
  }

  predicate FlightSucceeded(s: State, id: string) {
    && id in s.flights
    && match s.flights[id].phase
       case Answered(o) => IsSuccess(o)
       case Released(o) => IsSuccess(o)
       case _ => false
  }

  predicate MessageSucceeded(channel: seq<Message>, id: string) {
    exists k :: 0 <= k < |channel| && channel[k].id == id && IsSuccess(channel[k].outcome)
  }

  predicate HandledSucceeded(s: State, id: string) {
    s.pc.Handling? && s.pc.message.id == id && IsSuccess(s.pc.message.outcome)
  }

  /** Some call of the task was answered with success: it is done, or the answer is still on its way. */
  predicate Succeeded(s: State, id: string) {
    id in s.queue.done || FlightSucceeded(s, id) || MessageSucceeded(s.channel, id) || HandledSucceeded(s, id)
  }

  /** The step in which a server answers the task with success. */
  predicate Answers(step: Step, id: string) {
    step.Reply? && step.id == id && IsSuccess(step.outcome)
  }

  lemma MessageHasId(channel: seq<Message>, id: string)
    ensures MessageSucceeded(channel, id) ==> id in ChannelIds(channel)
  {
    if MessageSucceeded(channel, id) {
      var k :| 0 <= k < |channel| && channel[k].id == id && IsSuccess(channel[k].outcome);
      assert ChannelIds(channel)[k] == id;
    }
  }

  /** While the server still works on a task, no call of it has succeeded. */
  lemma ServedIsUnanswered(c: Config, s: State, id: string)
    requires Inv(c, s) && id in s.flights && s.flights[id].phase == Serving
    ensures !Succeeded(s, id)
  {
    assert TaskOwned(s, id) && IdOk(s.queue, id);
    MessageHasId(s.channel, id);
  }

  /** An abandoned or replaced task was never answered with success. */
  lemma GivenUpIsUnanswered(c: Config, s: State, id: string)
    requires Inv(c, s) && (id in s.queue.failed || id in s.queue.replaced)
    ensures !Succeeded(s, id)
  {
    assert TaskOwned(s, id) && IdOk(s.queue, id);
    MessageHasId(s.channel, id);
  }

  // ---------- every step ----------

  lemma ReceiveAnswers(s: State, id: string)
    requires s.channel != [] && s.pc == AtHead
    ensures Succeeded(DoReceive(s), id) <==> Succeeded(s, id)
  {
    var rest := s.channel[1..];
    assert forall k :: 0 <= k < |rest| ==> rest[k] == s.channel[k + 1];
    if MessageSucceeded(s.channel, id) && !HandledSucceeded(DoReceive(s), id) {
      var k :| 0 <= k < |s.channel| && s.channel[k].id == id && IsSuccess(s.channel[k].outcome);
      assert rest[k - 1] == s.channel[k];
    }
  }

  lemma SendAnswers(s: State, id: string, k: string)
    requires id in s.flights && s.flights[id].phase.Released?
    ensures Succeeded(DoSend(s, id), k) <==> Succeeded(s, k)
  {
    var m := Message(id, s.flights[id].phase.outcome);
    var longer := s.channel + [m];
    assert forall i :: 0 <= i < |s.channel| ==> longer[i] == s.channel[i];
    assert longer[|s.channel|] == m;
  }

  lemma HandleAnswers(c: Config, s: State, step: Step, s': State, id: string)
    requires Takes(c, s, step, s') && step.Handle? && s.pc.message.id in s.queue.running
    ensures Succeeded(s', id) <==> Succeeded(s, id)
  {
    assert s'.flights == s.flights && s'.channel == s.channel && s'.pc == Dispatching;
  }

  lemma StartAnswers(c: Config, s: State, step: Step, s': State, id: string)
    requires Takes(c, s, step, s') && step.StartRange? && s.channel == []
    ensures Succeeded(s', id) <==> Succeeded(s, id)
  {
  }

  lemma TakeNextAnswers(s: State, id: string)
    requires Sane(s) && s.pc.Holding? && s.pc.worker < |s.busy|
    requires s.queue.pending != [] ==> s.queue.pending[0] !in s.flights
    ensures Succeeded(DoTakeNext(s), id) <==> Succeeded(s, id)
  {
  }

  /** Steps of one goroutine other than the send. */
  lemma PhaseAnswers(s: State, s': State, k: string, id: string)
    requires k in s.flights && s'.flights.Keys == s.flights.Keys
    requires forall x :: x in s.flights && x != k ==> s'.flights[x] == s.flights[x]
    requires s'.queue == s.queue && s'.channel == s.channel && s'.pc == s.pc
    ensures id != k ==> (Succeeded(s', id) <==> Succeeded(s, id))
    ensures FlightSucceeded(s', k) == FlightSucceeded(s, k) ==> (Succeeded(s', k) <==> Succeeded(s, k))
    ensures FlightSucceeded(s', k) ==> Succeeded(s', k)
  {
  }

  lemma OtherStepsAnswer(c: Config, s: State, step: Step, s': State, id: string)
    requires Takes(c, s, step, s')
    requires step.Acquire? || step.Finish? || step.LateArrive? || step.Vanish? || step.LateDone?
    ensures Succeeded(s', id) <==> Succeeded(s, id)
  {
    assert s'.queue == s.queue && s'.flights == s.flights && s'.channel == s.channel;
  }

  lemma GoroutineAnswers(c: Config, s: State, step: Step, s': State, id: string)
    requires Takes(c, s, step, s') && (step.Arrive? || step.Reply? || step.Lose? || step.Release?)
    requires step.Reply? ==> !Succeeded(s, step.id)
    ensures Succeeded(s', id) <==> Succeeded(s, id) || Answers(step, id)
  {
    PhaseAnswers(s, s', step.id, id);
  }

  /** A task becomes answered in exactly one kind of step, and is unanswered before it. */
  lemma StepAnswers(c: Config, s: State, step: Step, s': State, id: string)
    requires Inv(c, s) && Takes(c, s, step, s')
    ensures Succeeded(s', id) <==> Succeeded(s, id) || Answers(step, id)
    ensures Answers(step, id) ==> !Succeeded(s, id)
  {
    if step.Reply? {
      ServedIsUnanswered(c, s, step.id);
    }
    if step.Arrive? || step.Reply? || step.Lose? || step.Release? {
      GoroutineAnswers(c, s, step, s', id);
    } else if step.Receive? {
      ReceiveAnswers(s, id);
    } else if step.Send? {
      SendAnswers(s, step.id, id);
    } else if step.Handle? {
      HandledTaskIsRunning(c, s);
      HandleAnswers(c, s, step, s', id);
    } else if step.StartRange? {
      NothingOutstanding(c, s);
      StartAnswers(c, s, step, s', id);
    } else if step.TakeNext? {
      PendingIsNotFlying(c, s);
      TakeNextAnswers(s, id);
    } else {
      OtherStepsAnswer(c, s, step, s', id);
    }
  }

  // ---------- whole runs ----------

  ghost predicate TakesAt(c: Config, run: seq<State>, steps: seq<Step>, i: nat)
    requires i < |steps| && |run| == |steps| + 1
  {
    Takes(c, run[i], steps[i], run[i + 1])
  }

  /** A run together with its steps. */
  ghost predicate IsTrace(c: Config, run: seq<State>, steps: seq<Step>) {
    && |run| == |steps| + 1 && Init(c, run[0])
    && forall i :: 0 <= i < |steps| ==> TakesAt(c, run, steps, i)
  }

  lemma TraceIsRun(c: Config, run: seq<State>, steps: seq<Step>)
    requires IsTrace(c, run, steps)
    ensures IsRun(c, run)
  {
    forall i | 0 <= i < |run| - 1 ensures MovesAt(c, run, i) {
      assert TakesAt(c, run, steps, i);
    }
  }

  ghost function StepAt(c: Config, run: seq<State>, i: nat): (step: Step)
    requires i + 1 < |run| && MovesAt(c, run, i)
    ensures Takes(c, run[i], step, run[i + 1])
  {
    var step :| Takes(c, run[i], step, run[i + 1]);
    step
  }

  /** Every run is one of a trace. */
  lemma RunHasTrace(c: Config, run: seq<State>) returns (steps: seq<Step>)
    requires IsRun(c, run)
    ensures IsTrace(c, run, steps)
  {
    steps := seq(|run| - 1, i requires 0 <= i < |run| - 1 && MovesAt(c, run, i) => StepAt(c, run, i));
  }

  lemma TracePrefix(c: Config, run: seq<State>, steps: seq<Step>, n: nat)
    requires IsTrace(c, run, steps) && n <= |steps|
    ensures IsTrace(c, run[..n + 1], steps[..n])
  {
    var before, prefix := run[..n + 1], steps[..n];
    forall i | 0 <= i < n ensures TakesAt(c, before, prefix, i) {
      assert TakesAt(c, run, steps, i);
    }
  }

  lemma TraceInv(c: Config, run: seq<State>, steps: seq<Step>, n: nat)
    requires IsTrace(c, run, steps) && n <= |steps| && c.workers >= 1
    ensures Inv(c, run[n])
  {
    TracePrefix(c, run, steps, n);
    TraceIsRun(c, run[..n + 1], steps[..n]);
    RunKeepsInv(c, run[..n + 1]);
  }

  /** The points at which the task is answered with success. */
  function Successes(steps: seq<Step>, id: string): set<nat> {
    set i: nat | i < |steps| && Answers(steps[i], id)
  }

  lemma SuccessesSnoc(steps: seq<Step>, id: string)
    requires steps != []
    ensures var n := |steps| - 1;
            |Successes(steps, id)| == |Successes(steps[..n], id)| + if Answers(steps[n], id) then 1 else 0
  {
    var n := |steps| - 1;
    var before := Successes(steps[..n], id);
    if Answers(steps[n], id) {
      assert Successes(steps, id) == before + {n};
    } else {
      assert Successes(steps, id) == before;
    }
  }

  /** In any run a task is answered with success at most once: once if some call succeeded, never otherwise. */
  lemma {:induction false} AnsweredAtMostOnce(c: Config, run: seq<State>, steps: seq<Step>, id: string)
    requires IsTrace(c, run, steps) && c.workers >= 1
    ensures |Successes(steps, id)| == if Succeeded(run[|steps|], id) then 1 else 0
    decreases |steps|
  {
    if steps == [] {
      assert Successes(steps, id) == {};
    } else {
      var n := |steps| - 1;
      TracePrefix(c, run, steps, n);
      AnsweredAtMostOnce(c, run[..n + 1], steps[..n], id);
      TraceInv(c, run, steps, n);
      assert TakesAt(c, run, steps, n);
      StepAnswers(c, run[n], steps[n], run[n + 1], id);
      SuccessesSnoc(steps, id);
    }
  }

  /** When the migration has ended, exactly the done tasks were answered with success, each once. */
  lemma DoneIsAnsweredOnce(c: Config, run: seq<State>, steps: seq<Step>, id: string)
    requires IsTrace(c, run, steps) && c.workers >= 1 && Ended(c, run[|steps|])
    ensures |Successes(steps, id)| == if id in run[|steps|].queue.done then 1 else 0
  {
    AnsweredAtMostOnce(c, run, steps, id);
    TraceInv(c, run, steps, |steps|);
    NothingOutstanding(c, run[|steps|]);
  }
}
