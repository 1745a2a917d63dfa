/**
 * The coordinator, its goroutines, the result channel and the worker servers as one transition system:
 * the range loop of Run and executeTasks (internal/orchestrator/orchestrator.go), DispatchTask and the
 * busy flags (internal/worker/manager.go) and Server.ExecuteTask (internal/workerserver/server.go).
 * The steps may interleave in any order and the environment picks every outcome.
 */
module Protocol {
  import opened Strings
  import opened Selectors
  import opened Filters
  import opened Collections
  import opened Discovery
  import opened Splitting
  import opened TimeRanges
  import opened Identifiers
  import opened Tasks
  import opened Workers

  /**
   * What a run of the migration is given, with the answers of GetSeriesCountFast by task id and failed attempts
   * (None when that call fails).
   */
  datatype Config = Config(source: Source, filter: string, ranges: seq<TimeRange>, keepMetric: string -> bool,
                           maxRetries: int, maxSeries: string -> int, maxRegexValues: int, excludedLabels: set<string>,
                           workers: nat, capacity: nat, fastCount: (string, nat) -> Option<int>)

  /** RpcError: the call failed; Exited: vmctl ran, and perhaps complained about cardinality. */
  datatype Outcome = RpcError(message: string) | Exited(code: int, bytes: int, cardinality: bool, errorText: string)

  /** What a failed vmctl is recorded with. */
  function FailureReason(code: int, errorText: string): string {
    if errorText == "" then "vmctl exited with code " + Itoa(code) else errorText
  }

  /** A dispatching goroutine, up to the moment it puts its result on the channel. */
  datatype Phase = Calling | Serving | Answered(outcome: Outcome) | Released(outcome: Outcome)

  datatype Flight = Flight(worker: nat, phase: Phase)

  datatype Message = Message(id: string, outcome: Outcome)

  /** Where the coordinator is: between ranges, in dispatchNext, at the loop head, or with a result in hand. */
  datatype Pc = Between | Dispatching | Holding(worker: nat) | AtHead | Handling(message: Message)

  /** A worker server, and the requests whose caller has given up but which may still arrive. */
  datatype ServerState = ServerState(gate: Gate, late: multiset<string>)

  datatype State = State(range: nat, counter: nat, queue: Queue, busy: seq<bool>, servers: seq<ServerState>,
                         flights: map<string, Flight>, channel: seq<Message>, inflight: set<string>, pc: Pc)

  datatype Step =
    | StartRange(metrics: seq<string>)
    | Acquire
    | TakeNext
    | Finish
    | Receive
    | Handle(resplit: Option<seq<SelectorInfo>>)
    | Arrive(id: string)
    | Reply(id: string, outcome: Outcome)
    | Lose(id: string)
    | Release(id: string)
    | Send(id: string)
    | LateArrive(worker: nat, id: string)
    | Vanish(worker: nat, id: string)
    | LateDone(worker: nat)

  // ---------- tasks ----------

  function BaseSelector(c: Config): string {
    Join(BaseMatchers(c.filter), ',')
  }

  /** The metrics DiscoverMetrics and filterMetrics leave for a range. */
  function Metrics(c: Config, r: TimeRange): set<string> {
    set s | s in Window(c.source, r.start, r.end).series && Selects(c.source.other, c.filter, s)
            && Get(s, NAME) != "" && c.keepMetric(Get(s, NAME)) :: Get(s, NAME)
  }

  /** createTasksForMetric */
  function OptimisticTask(c: Config, metric: string, r: TimeRange): Task {
    Task(metric, BuildOptimisticSelector(metric, BaseSelector(c)), r.start, r.end, 0, c.maxRetries, false,
         Pending, 0, 0, "")
  }

  function OptimisticTasks(c: Config, metrics: seq<string>, r: TimeRange): (ts: seq<Task>)
    ensures |ts| == |metrics| && forall i :: 0 <= i < |ts| ==> ts[i] == OptimisticTask(c, metrics[i], r)
  {
    seq(|metrics|, i requires 0 <= i < |metrics| => OptimisticTask(c, metrics[i], r))
  }

  /** The sub-task of resplitFailedTask. */
  function SubTask(c: Config, parent: Task, sel: SelectorInfo): Task {
    Task(parent.metric, sel.selector, parent.start, parent.end, sel.estSeriesCount, c.maxRetries, true,
         Pending, 0, 0, "")
  }

  function SubTasks(c: Config, parent: Task, sels: seq<SelectorInfo>): (ts: seq<Task>)
    ensures |ts| == |sels| && forall i :: 0 <= i < |ts| ==> ts[i] == SubTask(c, parent, sels[i])
  {
    seq(|sels|, i requires 0 <= i < |sels| => SubTask(c, parent, sels[i]))
  }

  /** The ids the counter hands out next. */
  function NewIds(counter: nat, n: nat): (ids: seq<string>)
    ensures |ids| == n && forall i :: 0 <= i < n ==> ids[i] == TaskId(counter + 1 + i)
  {
    seq(n, i requires 0 <= i < n => TaskId(counter + 1 + i))
  }

  /** New tasks under new ids. */
  function Batch(counter: nat, ts: seq<Task>): map<string, Task> {
    Zip(NewIds(counter, |ts|), ts)
  }

  function Zip(ids: seq<string>, ts: seq<Task>): map<string, Task>
    requires |ids| == |ts|
  {
    if ids == [] then map[] else Zip(ids[..|ids| - 1], ts[..|ts| - 1])[ids[|ids| - 1] := ts[|ts| - 1]]
  }

  lemma {:induction false} ZipHas(ids: seq<string>, ts: seq<Task>)
    requires |ids| == |ts| && NoDuplicates(ids)
    ensures forall id :: id in Zip(ids, ts) <==> id in ids
    ensures forall i :: 0 <= i < |ids| ==> ids[i] in Zip(ids, ts) && Zip(ids, ts)[ids[i]] == ts[i]
  {
    if ids != [] {
      var n := |ids| - 1;
      ZipHas(ids[..n], ts[..n]);
      assert ids == ids[..n] + [ids[n]];
    }
  }

  lemma BatchHas(counter: nat, ts: seq<Task>)
    ensures var ids, batch := NewIds(counter, |ts|), Batch(counter, ts);
            && NoDuplicates(ids)
            && (forall id :: id in batch <==> id in ids)
            && forall i :: 0 <= i < |ids| ==> ids[i] in batch && batch[ids[i]] == ts[i]
  {
    IdsDiffer(counter, |ts|);
    ZipHas(NewIds(counter, |ts|), ts);
  }

  lemma IdsDiffer(counter: nat, n: nat)
    ensures NoDuplicates(NewIds(counter, n))
  {
    forall i, j | 0 <= i < j < n ensures NewIds(counter, n)[i] != NewIds(counter, n)[j] {
      if TaskId(counter + 1 + i) == TaskId(counter + 1 + j) {
        TaskIdIsInjective(counter + 1 + i, counter + 1 + j);
      }
    }
  }

  // ---------- the split a coordinator may apply ----------

  function JobFor(c: Config, t: Task): Job {
    Job(Window(c.source, t.start, t.end), t.metric, c.maxSeries(t.metric), c.maxRegexValues, c.excludedLabels)
  }

  /**
   * resplitFailedTask returns sub-tasks only for two or more pieces of a metric above its limit. Where the
   * printed selectors say what is meant the pieces are a split.
   */
  ghost predicate IsResplit(c: Config, t: Task, sels: seq<SelectorInfo>) {
    var job, base := JobFor(c, t), BaseSelector(c);
    && |sels| >= 2 && |Matching(job, base)| > job.maxSeries
    && (WellFormed(base) && Printable(job) ==> IsSplit(job, Matching(job, base), sels))
  }

  /** The selectors that splitting the task would print say what is meant. */
  ghost predicate PrintableIfSplit(c: Config, t: Task) {
    |Matching(JobFor(c, t), BaseSelector(c))| > c.maxSeries(t.metric) ==> Printable(JobFor(c, t))
  }

  /** The branch of the result loop that tries to split. */
  predicate MayResplit(q: Queue, m: Message) {
    && m.outcome.Exited? && m.outcome.code != 0 && m.outcome.cardinality
    && m.id in q.info && !q.info[m.id].splitAttempted
  }

  /** The fast count succeeded and does not exceed the limit. */
  predicate InLimit(c: Config, metric: string, fastCount: Option<int>) {
    fastCount.Some? && fastCount.value <= c.maxSeries(metric)
  }

  /** The fast count is not within the limit, but the splitter finds more series, told apart by some label. */
  ghost predicate MustSplit(c: Config, t: Task, fastCount: Option<int>) {
    var job, base := JobFor(c, t), BaseSelector(c);
    && !InLimit(c, t.metric, fastCount)
    && WellFormed(base) && Printable(job) && |Matching(job, base)| > job.maxSeries >= 0
    && !Indivisible(Matching(job, base), job.excluded)
  }

  /** The result is a cardinality error of a task that was not split before and must be. */
  ghost predicate SplitIsDue(c: Config, q: Queue, m: Message) {
    && MayResplit(q, m) && MustSplit(c, q.info[m.id], c.fastCount(m.id, q.info[m.id].attempts))
  }

  /** A task is kept in the queue after a failure only when no split is due, or there is none. */
  ghost predicate MayKeep(c: Config, q: Queue, m: Message) {
    SplitIsDue(c, q, m) ==> forall sels :: !IsResplit(c, q.info[m.id], sels)
  }

  // ---------- steps ----------

  /** The queue only lists tasks it knows; every reachable state is like this. */
  predicate Sane(s: State) {
    && s.queue.running <= s.queue.info.Keys && (s.queue.pending != [] ==> s.queue.pending[0] in s.queue.info)
    && |s.servers| == |s.busy| && forall id :: id in s.flights ==> s.flights[id].worker < |s.busy|
  }

  ghost predicate Enabled(c: Config, s: State, step: Step)
    requires Sane(s)
  {
    match step
    case StartRange(metrics) =>
      s.pc == Between && s.range < |c.ranges|
      && NoDuplicates(metrics) && Elements(metrics) == Metrics(c, c.ranges[s.range])
    case Acquire => s.pc == Dispatching
    case TakeNext => s.pc.Holding? && s.pc.worker < |s.busy|
    case Finish => s.pc == AtHead && IsComplete(s.queue)
    case Receive => s.pc == AtHead && !IsComplete(s.queue) && s.channel != []
    case Handle(resplit) =>
      s.pc.Handling? && (resplit.None? ==> MayKeep(c, s.queue, s.pc.message)) && (resplit.Some? ==>
        MayResplit(s.queue, s.pc.message) && IsResplit(c, s.queue.info[s.pc.message.id], resplit.value))
    case Arrive(id) => id in s.flights && s.flights[id].phase == Calling
    case Reply(id, outcome) => id in s.flights && s.flights[id].phase == Serving && outcome.Exited?
    case Lose(id) => id in s.flights && (s.flights[id].phase == Calling || s.flights[id].phase == Serving)
    case Release(id) => id in s.flights && s.flights[id].phase.Answered?
    case Send(id) => id in s.flights && s.flights[id].phase.Released? && |s.channel| < c.capacity
    case LateArrive(w, id) => w < |s.servers| && id in s.servers[w].late
    case Vanish(w, id) => w < |s.servers| && id in s.servers[w].late
    case LateDone(w) => w < |s.servers| && s.servers[w].gate.busy
                        && forall id :: id in s.flights ==> s.flights[id] != Flight(w, Serving)
  }

  /** AddTasks with one optimistic task per metric, then executeTasks; nothing to do without metrics. */
  function DoStartRange(c: Config, s: State, metrics: seq<string>): State
    requires s.range < |c.ranges|
  {
    if metrics == [] then s.(range := s.range + 1)
    else
      var ts := OptimisticTasks(c, metrics, c.ranges[s.range]);
      s.(range := s.range + 1, counter := s.counter + |ts|,
         queue := Add(s.queue, NewIds(s.counter, |ts|), Batch(s.counter, ts)),
         channel := [], inflight := {}, pc := Dispatching)
  }

  function DoAcquire(s: State): State {
    var w := FirstIdle(s.busy);
    if w < |s.busy| then s.(busy := s.busy[w := true], pc := Holding(w)) else s.(pc := AtHead)
  }

  function DoTakeNext(s: State): State
    requires Sane(s) && s.pc.Holding? && s.pc.worker < |s.busy|
  {
    if s.queue.pending == [] then s.(busy := s.busy[s.pc.worker := false], pc := AtHead)
    else
      var id := s.queue.pending[0];
      s.(queue := Next(s.queue), inflight := s.inflight + {id},
         flights := s.flights[id := Flight(s.pc.worker, Calling)], pc := Dispatching)
  }

  function DoReceive(s: State): State
    requires s.channel != []
  {
    s.(channel := s.channel[1..], inflight := s.inflight - {s.channel[0].id}, pc := Handling(s.channel[0]))
  }

  function DoHandle(c: Config, s: State, resplit: Option<seq<SelectorInfo>>): State
    requires Sane(s) && s.pc.Handling?
    requires resplit.Some? ==> MayResplit(s.queue, s.pc.message)
  {
    var m := s.pc.message;
    match m.outcome
    case RpcError(message) => s.(queue := Fail(s.queue, m.id, message), pc := Dispatching)
    case Exited(code, bytes, cardinality, errorText) =>
      if code == 0 then s.(queue := Complete(s.queue, m.id, bytes), pc := Dispatching)
      else if resplit.Some? then
        var ts := SubTasks(c, s.queue.info[m.id], resplit.value);
        s.(queue := Replace(s.queue, m.id, NewIds(s.counter, |ts|), Batch(s.counter, ts)),
           counter := s.counter + |ts|, pc := Dispatching)
      else s.(queue := Fail(s.queue, m.id, FailureReason(code, errorText)), pc := Dispatching)
  }

  /** One more failure is recorded: the task waits at the end of the queue, or it is abandoned. */
  predicate Counts(q: Queue, q': Queue, id: string, error: string)
    requires id in q.info && id in q'.info
  {
    var t, u, again := q.info[id], q'.info[id], q.info[id].attempts + 1 < q.info[id].maxRetries;
    && u == t.(attempts := t.attempts + 1, error := error, status := if again then Retrying else Abandoned)
    && q'.pending == q.pending + (if again then [id] else []) && q'.failed == q.failed + (if again then [] else [id])
    && q'.done == q.done && q'.replaced == q.replaced
  }

  /** What a result does to the queue: a failed call, a success, a split and a failed vmctl. */
  predicate Settles(q: Queue, q': Queue, m: Message, split: bool)
    requires m.id in q.info && m.id in q'.info
  {
    && q'.running == q.running - {m.id}
    && match m.outcome
       case RpcError(message) => Counts(q, q', m.id, message)
       case Exited(code, bytes, _, errorText) =>
         if code == 0 then
           && q'.info[m.id] == q.info[m.id].(status := Succeeded, bytes := bytes)
           && q'.done == q.done + [m.id] && q'.pending == q.pending && q'.failed == q.failed
         else if split then
           m.id in q'.replaced && q.pending <= q'.pending && q'.done == q.done && q'.failed == q.failed
         else
           Counts(q, q', m.id, if errorText == "" then "vmctl exited with code " + Itoa(code) else errorText)
  }

  function SetPhase(s: State, id: string, phase: Phase): State
    requires id in s.flights
  {
    s.(flights := s.flights[id := s.flights[id].(phase := phase)])
  }

  function SetServer(s: State, w: nat, server: ServerState): State
    requires w < |s.servers|
  {
    s.(servers := s.servers[w := server])
  }

  function DoArrive(s: State, id: string): State
    requires Sane(s) && id in s.flights
  {
    var w := s.flights[id].worker;
    var server := s.servers[w];
    if server.gate.busy then SetPhase(s, id, Answered(RpcError("worker is busy")))
    else SetPhase(SetServer(s, w, server.(gate := Enter(server.gate, id))), id, Serving)
  }

  function DoReply(s: State, id: string, outcome: Outcome): State
    requires Sane(s) && id in s.flights
  {
    var w := s.flights[id].worker;
    SetPhase(SetServer(s, w, s.servers[w].(gate := Leave(s.servers[w].gate))), id, Answered(outcome))
  }

  /** The call fails under the coordinator; the request may still arrive, or the process go on. */
  function DoLose(s: State, id: string): State
    requires Sane(s) && id in s.flights
  {
    var w := s.flights[id].worker;
    var server := s.servers[w].(late := s.servers[w].late + multiset{id});
    var lost := if s.flights[id].phase == Calling then SetServer(s, w, server) else s;
    SetPhase(lost, id, Answered(RpcError("unavailable")))
  }

  function DoRelease(s: State, id: string): State
    requires Sane(s) && id in s.flights && s.flights[id].phase.Answered?
  {
    SetPhase(s, id, Released(s.flights[id].phase.outcome)).(busy := s.busy[s.flights[id].worker := false])
  }

  function DoSend(s: State, id: string): State
    requires id in s.flights && s.flights[id].phase.Released?
  {
    s.(flights := s.flights - {id}, channel := s.channel + [Message(id, s.flights[id].phase.outcome)])
  }

  function DoLateArrive(s: State, w: nat, id: string): State
    requires w < |s.servers|
  {
    SetServer(s, w, ServerState(Enter(s.servers[w].gate, id), s.servers[w].late - multiset{id}))
  }

  /** The request never arrives. */
  function DoVanish(s: State, w: nat, id: string): State
    requires w < |s.servers|
  {
    SetServer(s, w, s.servers[w].(late := s.servers[w].late - multiset{id}))
  }

  function DoLateDone(s: State, w: nat): State
    requires w < |s.servers|
  {
    SetServer(s, w, s.servers[w].(gate := Leave(s.servers[w].gate)))
  }

  ghost function Apply(c: Config, s: State, step: Step): State
    requires Sane(s) && Enabled(c, s, step)
  {
    match step
    case StartRange(metrics) => DoStartRange(c, s, metrics)
    case Acquire => DoAcquire(s)
    case TakeNext => DoTakeNext(s)
    case Finish => s.(pc := Between)
    case Receive => DoReceive(s)
    case Handle(resplit) => DoHandle(c, s, resplit)
    case Arrive(id) => DoArrive(s, id)
    case Reply(id, outcome) => DoReply(s, id, outcome)
    case Lose(id) => DoLose(s, id)
    case Release(id) => DoRelease(s, id)
    case Send(id) => DoSend(s, id)
    case LateArrive(w, id) => DoLateArrive(s, w, id)
    case Vanish(w, id) => DoVanish(s, w, id)
    case LateDone(w) => DoLateDone(s, w)
  }

  /** The steps after which the queue may be another one. */
  predicate IsQueueStep(step: Step) {
    step.StartRange? || step.TakeNext? || step.Handle?
  }

  ghost predicate Init(c: Config, s: State) {
    s == State(0, 0, EMPTY, seq(c.workers, _ => false), seq(c.workers, _ => ServerState(IDLE, multiset{})),
               map[], [], {}, Between)
  }

  ghost predicate Takes(c: Config, s: State, step: Step, s': State) {
    Sane(s) && Enabled(c, s, step) && s' == Apply(c, s, step)
  }

  lemma QuietQueue(c: Config, s: State, step: Step, s': State)
    requires Takes(c, s, step, s') && !IsQueueStep(step)
    ensures s'.queue == s.queue && s'.range == s.range && s'.counter == s.counter
  {
  }

  ghost predicate Moves(c: Config, s: State, s': State) {
    exists step :: Takes(c, s, step, s')
  }

  ghost predicate CanMove(c: Config, s: State) {
    exists s' :: Moves(c, s, s')
  }

  ghost predicate MovesAt(c: Config, path: seq<State>, i: nat)
    requires i + 1 < |path|
  {
    Moves(c, path[i], path[i + 1])
  }

  /** States that follow one another. */
  ghost predicate Chain(c: Config, path: seq<State>) {
    path != [] && forall i :: 0 <= i < |path| - 1 ==> MovesAt(c, path, i)
  }

  /** A run: from the start, one step after the other. */
  ghost predicate IsRun(c: Config, run: seq<State>) {
    Chain(c, run) && Init(c, run[0])
  }

  /** The last step of a run, and the run before it. */
  lemma LastStep(c: Config, run: seq<State>) returns (before: seq<State>, step: Step)
    requires IsRun(c, run) && |run| > 1
    ensures before == run[..|run| - 1] && IsRun(c, before)
    ensures Takes(c, before[|before| - 1], step, run[|run| - 1])
  {
    before := run[..|run| - 1];
    forall i | 0 <= i < |before| - 1 ensures MovesAt(c, before, i) {
      assert MovesAt(c, run, i);
    }
    assert MovesAt(c, run, |run| - 2);
    step :| Takes(c, run[|run| - 2], step, run[|run| - 1]);
  }

  ghost predicate Reachable(c: Config, s: State) {
    exists run :: IsRun(c, run) && run[|run| - 1] == s
  }
}
