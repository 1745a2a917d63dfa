/** How often a task is sent: each dispatch is one request, and a request begins at most one vmctl process. */
module Starts {
  import opened Selectors
  import opened Splitting
  import opened Tasks
  import opened Protocol
  import opened Ownership
  import opened Liveness
  import opened Origins
  import opened Rejections
  import opened Answers

  predicate Admits(s: State, w: nat) {
    w < |s.servers| && !s.servers[w].gate.busy
  }

  /** A server begins a vmctl process for the task in this step. */
  predicate Begins(s: State, step: Step, id: string) {
    match step
    case Arrive(k) => k == id && id in s.flights && Admits(s, s.flights[id].worker)
    case LateArrive(w, k) => k == id && Admits(s, w)
    case _ => false
  }

  /** A request of the task is turned away or gets lost for good in this step. */
  predicate Falls(s: State, step: Step, id: string) {
    match step
    case Arrive(k) => k == id && id in s.flights && !Admits(s, s.flights[id].worker)
    case LateArrive(w, k) => k == id && !Admits(s, w)
    case Vanish(_, k) => k == id
    case _ => false
  }

  function LateCount(servers: seq<ServerState>, id: string): nat {
    if servers == [] then 0 else servers[0].late[id] + LateCount(servers[1..], id)
  }

  /** The task's requests that have not reached their server yet, with their caller or without. */
  function UnderWay(s: State, id: string): nat {
    (if id in s.flights && s.flights[id].phase == Calling then 1 else 0) + LateCount(s.servers, id)
  }

  /** How often the task was dispatched: each dispatch failed, succeeded, was replaced or is running. */
  function Dispatched(q: Queue, id: string): nat {
    if id !in q.info then 0
    else q.info[id].attempts + (if id in q.running || id in q.done || id in q.replaced then 1 else 0)
  }

  lemma {:induction false} LateCountUpdate(servers: seq<ServerState>, w: nat, server: ServerState, id: string)
    requires w < |servers|
    ensures LateCount(servers[w := server], id) + servers[w].late[id] == LateCount(servers, id) + server.late[id]
  {
    var after := servers[w := server];
    if w == 0 {
      assert after[1..] == servers[1..];
    } else {
      assert after[1..] == servers[1..][w - 1 := server];
      LateCountUpdate(servers[1..], w - 1, server, id);
    }
  }

  /** What a step begins, drops and leaves under way is what was under way and what it dispatches. */
  predicate Pays(s: State, step: Step, s': State, id: string) {
    (if Begins(s, step, id) then 1 else 0) + (if Falls(s, step, id) then 1 else 0)
    + UnderWay(s', id) + Dispatched(s.queue, id) == UnderWay(s, id) + Dispatched(s'.queue, id)
  }

  lemma ArrivePays(s: State, k: string, id: string)
    requires Sane(s) && k in s.flights && s.flights[k].phase == Calling
    ensures Pays(s, Arrive(k), DoArrive(s, k), id)
  {
    var w := s.flights[k].worker;
    LateCountUpdate(s.servers, w, DoArrive(s, k).servers[w], id);
    assert s.servers[w := s.servers[w]] == s.servers;
  }

  lemma ServedPays(s: State, k: string, outcome: Outcome, id: string)
    requires Sane(s) && k in s.flights && s.flights[k].phase == Serving
    ensures Pays(s, Reply(k, outcome), DoReply(s, k, outcome), id)
  {
    var w := s.flights[k].worker;
    LateCountUpdate(s.servers, w, DoReply(s, k, outcome).servers[w], id);
  }

  /** A lost request that has not arrived stays under way without its caller. */
  lemma LosePays(s: State, k: string, id: string)
    requires Sane(s) && k in s.flights && (s.flights[k].phase == Calling || s.flights[k].phase == Serving)
    ensures Pays(s, Lose(k), DoLose(s, k), id)
  {
    if s.flights[k].phase == Calling {
      var w := s.flights[k].worker;
      LateCountUpdate(s.servers, w, s.servers[w].(late := s.servers[w].late + multiset{k}), id);
    }
  }

  lemma LatePays(s: State, w: nat, k: string, id: string)
    requires Sane(s) && w < |s.servers| && k in s.servers[w].late
    ensures Pays(s, LateArrive(w, k), DoLateArrive(s, w, k), id)
    ensures Pays(s, Vanish(w, k), DoVanish(s, w, k), id)
  {
    LateCountUpdate(s.servers, w, DoLateArrive(s, w, k).servers[w], id);
    LateCountUpdate(s.servers, w, DoVanish(s, w, k).servers[w], id);
  }

  lemma LateDonePays(s: State, w: nat, id: string)
    requires Sane(s) && w < |s.servers|
    ensures Pays(s, LateDone(w), DoLateDone(s, w), id)
  {
    LateCountUpdate(s.servers, w, DoLateDone(s, w).servers[w], id);
  }

  /** A dispatch is what a new request is paid with. */
  lemma TakeNextPays(s: State, id: string)
    requires Sane(s) && s.pc.Holding? && s.pc.worker < |s.busy|
    requires s.queue.pending != [] ==> PendingOnly(s, s.queue.pending[0])
    ensures Pays(s, TakeNext, DoTakeNext(s), id)
  {
  }

  predicate PendingOnly(s: State, id: string) {
    id !in s.flights && id !in s.queue.running && id !in s.queue.done && id !in s.queue.replaced
  }

  lemma FirstIsPendingOnly(c: Config, s: State)
    requires Inv(c, s) && s.queue.pending != []
    ensures PendingOnly(s, s.queue.pending[0])
  {
    var id := s.queue.pending[0];
    assert TaskOwned(s, id) && IdOk(s.queue, id);
  }

  lemma AddKeepsDispatched(q: Queue, ids: seq<string>, batch: map<string, Task>, id: string)
    requires Accounting(q) && IsBatch(q, ids, batch)
    ensures Dispatched(Add(q, ids, batch), id) == Dispatched(q, id)
  {
    assert IdOk(q, id);
  }

  lemma SettledKeepsDispatched(q: Queue, k: string, id: string, error: string, bytes: int)
    requires Accounting(q) && q.running <= q.info.Keys && k in q.running
    ensures Dispatched(Fail(q, k, error), id) == Dispatched(q, id)
    ensures Dispatched(Complete(q, k, bytes), id) == Dispatched(q, id)
  {
    assert IdOk(q, k);
  }

  lemma ReplacedKeepsDispatched(q: Queue, k: string, ids: seq<string>, batch: map<string, Task>, id: string)
    requires Accounting(q) && k in q.running && IsBatch(q, ids, batch)
    ensures Dispatched(Replace(q, k, ids, batch), id) == Dispatched(q, id)
  {
    assert IdOk(q, id) && IdOk(q, k);
  }

  /** Replacing a handled task by the pieces of a split. */
  lemma ResplitKeepsDispatched(c: Config, s: State, sels: seq<SelectorInfo>, id: string)
    requires Inv(c, s) && Sane(s) && s.pc.Handling? && MayResplit(s.queue, s.pc.message)
    requires s.pc.message.id in s.queue.running
    ensures Dispatched(DoHandle(c, s, Some(sels)).queue, id) == Dispatched(s.queue, id)
  {
    var m := s.pc.message;
    var ts := SubTasks(c, s.queue.info[m.id], sels);
    BatchIsNew(s, ts, NewIds(s.counter, |ts|), Batch(s.counter, ts));
    ReplacedKeepsDispatched(s.queue, m.id, NewIds(s.counter, |ts|), Batch(s.counter, ts), id);
  }

  lemma OutcomeKeepsDispatched(c: Config, s: State, id: string)
    requires Accounting(s.queue) && Sane(s) && s.pc.Handling? && s.pc.message.id in s.queue.running
    ensures Dispatched(DoHandle(c, s, None).queue, id) == Dispatched(s.queue, id)
  {
    var m := s.pc.message;
    if m.outcome.RpcError? {
      SettledKeepsDispatched(s.queue, m.id, id, m.outcome.message, 0);
    } else {
      SettledKeepsDispatched(s.queue, m.id, id, FailureReason(m.outcome.code, m.outcome.errorText), m.outcome.bytes);
    }
  }

  lemma HandlePays(c: Config, s: State, resplit: Option<seq<SelectorInfo>>, id: string)
    requires Inv(c, s) && Sane(s) && Enabled(c, s, Handle(resplit))
    ensures Pays(s, Handle(resplit), DoHandle(c, s, resplit), id)
  {
    HandledTaskIsRunning(c, s);
    HandleLeavesOthers(c, s, resplit);
    if resplit.Some? {
      ResplitKeepsDispatched(c, s, resplit.value, id);
    } else {
      OutcomeKeepsDispatched(c, s, id);
    }
  }

  lemma StartRangePays(c: Config, s: State, metrics: seq<string>, id: string)
    requires Inv(c, s) && Sane(s) && s.range < |c.ranges|
    ensures Pays(s, StartRange(metrics), DoStartRange(c, s, metrics), id)
  {
    if metrics != [] {
      var ts := OptimisticTasks(c, metrics, c.ranges[s.range]);
      BatchIsNew(s, ts, NewIds(s.counter, |ts|), Batch(s.counter, ts));
      AddKeepsDispatched(s.queue, NewIds(s.counter, |ts|), Batch(s.counter, ts), id);
    }
  }

  /** The coordinator's other steps and those of a goroutine after its answer touch no request. */
  lemma QuietStepPays(c: Config, s: State, step: Step, s': State, id: string)
    requires Takes(c, s, step, s')
    requires step.Acquire? || step.Finish? || step.Receive? || step.Release? || step.Send?
    ensures Pays(s, step, s', id)
  {
  }

  lemma CoordinatorPays(c: Config, s: State, step: Step, s': State, id: string)
    requires Inv(c, s) && Takes(c, s, step, s') && (step.TakeNext? || step.Handle? || step.StartRange?)
    ensures Pays(s, step, s', id)
  {
    if step.TakeNext? {
      if s.queue.pending != [] {
        FirstIsPendingOnly(c, s);
      }
      TakeNextPays(s, id);
    } else if step.Handle? {
      HandlePays(c, s, step.resplit, id);
    } else {
      StartRangePays(c, s, step.metrics, id);
    }
  }

  lemma CallPays(c: Config, s: State, step: Step, s': State, id: string)
    requires Takes(c, s, step, s') && (step.Arrive? || step.Reply? || step.Lose?)
    ensures Pays(s, step, s', id)
  {
    match step
    case Arrive(k) => ArrivePays(s, k, id);
    case Reply(k, outcome) => ServedPays(s, k, outcome, id);
    case Lose(k) => LosePays(s, k, id);
  }

  lemma LateStepPays(c: Config, s: State, step: Step, s': State, id: string)
    requires Takes(c, s, step, s') && (step.LateArrive? || step.Vanish? || step.LateDone?)
    ensures Pays(s, step, s', id)
  {
    match step
    case LateArrive(w, k) => LatePays(s, w, k, id);
    case Vanish(w, k) => LatePays(s, w, k, id);
    case LateDone(w) => LateDonePays(s, w, id);
  }

  lemma StepPays(c: Config, s: State, step: Step, s': State, id: string)
    requires Inv(c, s) && Takes(c, s, step, s')
    ensures Pays(s, step, s', id)
  {
    if step.Arrive? || step.Reply? || step.Lose? {
      CallPays(c, s, step, s', id);
    } else if step.LateArrive? || step.Vanish? || step.LateDone? {
      LateStepPays(c, s, step, s', id);
    } else if step.TakeNext? || step.Handle? || step.StartRange? {
      CoordinatorPays(c, s, step, s', id);
    } else {
      QuietStepPays(c, s, step, s', id);
    }
  }

  // ---------- whole runs ----------

  /** How many vmctl processes are begun for the task. */
  function Begun(run: seq<State>, steps: seq<Step>, id: string): nat
    requires |run| == |steps| + 1
  {
    if steps == [] then 0
    else
      var n := |steps| - 1;
      Begun(run[..n + 1], steps[..n], id) + if Begins(run[n], steps[n], id) then 1 else 0
  }

  /** How many requests of the task are turned away or never arrive. */
  function Fallen(run: seq<State>, steps: seq<Step>, id: string): nat
    requires |run| == |steps| + 1
  {
    if steps == [] then 0
    else
      var n := |steps| - 1;
      Fallen(run[..n + 1], steps[..n], id) + if Falls(run[n], steps[n], id) then 1 else 0
  }

  lemma {:induction false} NoneIsLate(servers: seq<ServerState>, id: string)
    requires forall w :: 0 <= w < |servers| ==> servers[w].late == multiset{}
    ensures LateCount(servers, id) == 0
  {
    if servers != [] {
      NoneIsLate(servers[1..], id);
    }
  }

  /**
   * In any run each dispatch of a task is one request, which begins a vmctl process, is turned away, vanishes
   * or is still under way.
   */
  lemma {:induction false} RequestsAreConserved(c: Config, run: seq<State>, steps: seq<Step>, id: string)
    requires IsTrace(c, run, steps) && c.workers >= 1
    ensures Begun(run, steps, id) + Fallen(run, steps, id) + UnderWay(run[|steps|], id)
         == Dispatched(run[|steps|].queue, id)
    decreases |steps|
  {
    if steps == [] {
      NoneIsLate(run[0].servers, id);
    } else {
      var n := |steps| - 1;
      TracePrefix(c, run, steps, n);
      RequestsAreConserved(c, run[..n + 1], steps[..n], id);
      TraceInv(c, run, steps, n);
      assert TakesAt(c, run, steps, n);
      StepPays(c, run[n], steps[n], run[n + 1], id);
    }
  }

  // ---------- the bound ----------

  /** Whatever is lost or late, a task is sent at most as often as it may be attempted. */
  lemma SentWithinAttempts(c: Config, run: seq<State>, steps: seq<Step>, id: string)
    requires IsTrace(c, run, steps) && c.workers >= 1
    ensures Begun(run, steps, id) <= if c.maxRetries < 1 then 1 else c.maxRetries
  {
    RequestsAreConserved(c, run, steps, id);
    TraceInv(c, run, steps, |steps|);
    TraceIsRun(c, run, steps);
    RunOrigin(c, run);
    var q := run[|steps|].queue;
    assert IdOk(q, id) && (id in q.info ==> Stems(c, q.info[id]));
  }

  // ---------- without lost calls ----------

  /** Where every process serves its caller no request falls. */
  lemma AttendedNeverFalls(c: Config, s: State, step: Step, s': State, id: string)
    requires Inv(c, s) && Attended(s) && Takes(c, s, step, s')
    ensures !Falls(s, step, id)
  {
    if step.LateArrive? || step.Vanish? {
      NotLate(c, s, step.worker, step.id);
    } else if step.Arrive? {
      var w := s.flights[step.id].worker;
      if s.servers[w].gate.busy {
        BusyForItsCaller(s, w);
      }
    }
  }

  lemma {:induction false} NothingFalls(c: Config, run: seq<State>, steps: seq<Step>, id: string)
    requires IsTrace(c, run, steps) && c.workers >= 1 && forall i :: 0 <= i < |run| ==> Attended(run[i])
    ensures Fallen(run, steps, id) == 0
    decreases |steps|
  {
    if steps != [] {
      var n := |steps| - 1;
      TracePrefix(c, run, steps, n);
      NothingFalls(c, run[..n + 1], steps[..n], id);
      TraceInv(c, run, steps, n);
      assert TakesAt(c, run, steps, n);
      AttendedNeverFalls(c, run[n], steps[n], run[n + 1], id);
    }
  }

  /**
   * In a run without lost calls (`FaithfulIffAttended`) a finished task was sent exactly as often as it was
   * dispatched: one that is done, once more than it had failed.
   */
  lemma SentAsDispatched(c: Config, run: seq<State>, steps: seq<Step>, id: string)
    requires IsTrace(c, run, steps) && c.workers >= 1 && Ended(c, run[|steps|])
    requires forall i :: 0 <= i < |run| ==> Attended(run[i])
    ensures var q := run[|steps|].queue;
            && Begun(run, steps, id) == Dispatched(q, id)
            && (id in q.done ==> id in q.info && Begun(run, steps, id) == q.info[id].attempts + 1)
  {
    var s := run[|steps|];
    RequestsAreConserved(c, run, steps, id);
    NothingFalls(c, run, steps, id);
    TraceInv(c, run, steps, |steps|);
    NothingOutstanding(c, s);
    forall w | 0 <= w < |s.servers| ensures s.servers[w].late == multiset{} {
      assert AttendedAt(s, w);
    }
    NoneIsLate(s.servers, id);
    assert IdOk(s.queue, id);
  }
}
