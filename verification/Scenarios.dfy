/**
 * Runs that happen on a single worker: a process that outlives its caller sends a task that is already done,
 * and more tasks can be running than there are workers.
 */
module Scenarios {
  import opened Selectors
  import opened Collections
  import opened Tasks
  import opened Workers
  import opened Protocol
  import opened Ownership
  import opened Liveness
  import opened Runs

  lemma Advance(c: Config, s: State, step: Step) returns (s': State)
    requires Reachable(c, s) && c.workers >= 1 && Sane(s) && Enabled(c, s, step)
    ensures s' == Apply(c, s, step) && Reachable(c, s') && Sane(s')
  {
    s' := Apply(c, s, step);
    assert Takes(c, s, step, s');
    FollowsSelf(c, s);
    Continue(c, s, s, s');
    ReachableIsKnown(c, s');
  }

  /** One worker, one task at most under way: the parts of the state that matter here. */
  predicate Looks(s: State, queue: Queue, busy: bool, server: ServerState, flights: map<string, Flight>, pc: Pc) {
    && s.queue == queue && s.busy == [busy] && s.servers == [server] && s.flights == flights
    && s.channel == [] && s.pc == pc && s.range == 1
  }

  /** The only pending task is dispatched to the only worker. */
  lemma Dispatch(c: Config, s: State, id: string, server: ServerState) returns (s': State)
    requires Reachable(c, s) && c.workers == 1 && Sane(s)
    requires s.queue.pending == [id] && Looks(s, s.queue, false, server, map[], Dispatching)
    ensures Reachable(c, s') && Sane(s')
    ensures Looks(s', Next(s.queue), true, server, map[id := Flight(0, Calling)], AtHead)
  {
    var s1 := Advance(c, s, Acquire);
    var s2 := Advance(c, s1, TakeNext);
    s' := Advance(c, s2, Acquire);
  }

  /** The answer gets to the coordinator. */
  lemma Deliver(c: Config, s: State, id: string, o: Outcome, server: ServerState) returns (s': State)
    requires Reachable(c, s) && c.workers == 1 && c.capacity >= 1 && Sane(s) && !IsComplete(s.queue)
    requires Looks(s, s.queue, true, server, map[id := Flight(0, Answered(o))], AtHead)
    ensures Reachable(c, s') && Sane(s')
    ensures Looks(s', s.queue, false, server, map[], Handling(Message(id, o)))
  {
    var s1 := Advance(c, s, Release(id));
    var s2 := Advance(c, s1, Send(id));
    s' := Advance(c, s2, Receive);
  }

  /** Nothing is left to dispatch, and the range ends. */
  lemma Drain(c: Config, s: State, server: ServerState) returns (s': State)
    requires Reachable(c, s) && c.workers == 1 && Sane(s)
    requires IsComplete(s.queue) && Looks(s, s.queue, false, server, map[], Dispatching)
    ensures Reachable(c, s') && Sane(s') && Looks(s', s.queue, false, server, map[], Between)
  {
    var s1 := Advance(c, s, Acquire);
    var s2 := Advance(c, s1, TakeNext);
    s' := Advance(c, s2, Finish);
  }

  function FirstState(c: Config): State {
    State(0, 0, EMPTY, seq(c.workers, _ => false), seq(c.workers, _ => ServerState(IDLE, multiset{})),
          map[], [], {}, Between)
  }

  lemma FirstRange(c: Config) returns (metrics: seq<string>, s: State)
    requires c.workers == 1 && |c.ranges| >= 1
    ensures NoDuplicates(metrics) && |metrics| == |Metrics(c, c.ranges[0])|
    ensures s == DoStartRange(c, FirstState(c), metrics) && Reachable(c, s) && Sane(s)
  {
    var first := FirstState(c);
    assert IsRun(c, [first]);
    metrics := EnumerationExists(Metrics(c, c.ranges[0]));
    CountElements(metrics);
    s := Advance(c, first, StartRange(metrics));
  }

  lemma FirstBatch(c: Config, metrics: seq<string>) returns (id: string)
    requires |c.ranges| >= 1 && |metrics| == 1
    ensures var s := DoStartRange(c, FirstState(c), metrics);
            && s.queue.pending == [id] && id in s.queue.info
            && s.queue.info[id].attempts == 0 && s.queue.info[id].maxRetries == c.maxRetries
  {
    var ts := OptimisticTasks(c, metrics, c.ranges[0]);
    BatchHas(0, ts);
    id := NewIds(0, 1)[0];
    assert NewIds(0, 1) == [id];
  }

  /** The first range has one task, and it waits to be dispatched. */
  lemma OneTaskPending(c: Config) returns (s: State, id: string)
    requires c.workers == 1 && |c.ranges| >= 1 && |Metrics(c, c.ranges[0])| == 1
    ensures Reachable(c, s) && Sane(s) && Looks(s, s.queue, false, ServerState(IDLE, multiset{}), map[], Dispatching)
    ensures s.queue.pending == [id] && s.queue.running == {} && s.queue.done == [] && id in s.queue.info
    ensures s.queue.info[id].attempts == 0 && s.queue.info[id].maxRetries == c.maxRetries
  {
    var metrics;
    metrics, s := FirstRange(c);
    id := FirstBatch(c, metrics);
  }

  lemma LoseCall(c: Config, s: State, id: string) returns (s': State)
    requires Reachable(c, s) && c.workers == 1 && Sane(s)
    requires Looks(s, s.queue, true, ServerState(IDLE, multiset{}), map[id := Flight(0, Calling)], AtHead)
    ensures Reachable(c, s') && Sane(s')
    ensures var answered := Flight(0, Answered(RpcError("unavailable")));
            Looks(s', s.queue, true, ServerState(IDLE, multiset{id}), map[id := answered], AtHead)
  {
    s' := Advance(c, s, Lose(id));
    assert multiset{} + multiset{id} == multiset{id};
    assert s'.servers == [ServerState(IDLE, multiset{id})];
  }

  lemma AdmitCall(c: Config, s: State, id: string, late: multiset<string>) returns (s': State)
    requires Reachable(c, s) && c.workers == 1 && Sane(s)
    requires Looks(s, s.queue, true, ServerState(IDLE, late), map[id := Flight(0, Calling)], AtHead)
    ensures Reachable(c, s') && Sane(s')
    ensures Looks(s', s.queue, true, ServerState(Gate(true, [id]), late), map[id := Flight(0, Serving)], AtHead)
  {
    s' := Advance(c, s, Arrive(id));
    assert [] + [id] == [id];
    assert s'.servers[0] == ServerState(Gate(true, [id]), late);
  }

  lemma ServeCall(c: Config, s: State, id: string, late: multiset<string>, o: Outcome) returns (s': State)
    requires Reachable(c, s) && c.workers == 1 && Sane(s) && o.Exited?
    requires Looks(s, s.queue, true, ServerState(IDLE, late), map[id := Flight(0, Calling)], AtHead)
    ensures Reachable(c, s') && Sane(s')
    ensures Looks(s', s.queue, true, ServerState(IDLE, late), map[id := Flight(0, Answered(o))], AtHead)
  {
    var s1 := AdmitCall(c, s, id, late);
    s' := Advance(c, s1, Reply(id, o));
  }

  /** The call is lost before it arrives, and the task is queued again. */
  lemma LoseAndRetry(c: Config, s: State, id: string) returns (s': State)
    requires Reachable(c, s) && c.workers == 1 && c.capacity >= 1 && c.maxRetries >= 2 && Sane(s)
    requires s.queue.pending == [id] && s.queue.running == {} && s.queue.done == [] && id in s.queue.info
    requires s.queue.info[id].attempts == 0 && s.queue.info[id].maxRetries == c.maxRetries
    requires Looks(s, s.queue, false, ServerState(IDLE, multiset{}), map[], Dispatching)
    ensures Reachable(c, s') && Sane(s')
    ensures Looks(s', s'.queue, false, ServerState(IDLE, multiset{id}), map[], Dispatching)
    ensures s'.queue.pending == [id] && s'.queue.running == {} && s'.queue.done == []
  {
    var idle := ServerState(IDLE, multiset{});
    var s1 := Dispatch(c, s, id, idle);
    var s2 := LoseCall(c, s1, id);
    var s3 := Deliver(c, s2, id, RpcError("unavailable"), ServerState(IDLE, multiset{id}));
    s' := Advance(c, s3, Handle(None));
  }

  /** The task is done at the next attempt. */
  lemma RetrySucceeds(c: Config, s: State, id: string, late: multiset<string>) returns (s': State)
    requires Reachable(c, s) && c.workers == 1 && c.capacity >= 1 && Sane(s)
    requires s.queue.pending == [id] && s.queue.running == {} && s.queue.done == []
    requires Looks(s, s.queue, false, ServerState(IDLE, late), map[], Dispatching)
    ensures Reachable(c, s') && Sane(s')
    ensures Looks(s', s'.queue, false, ServerState(IDLE, late), map[], Dispatching)
    ensures s'.queue.pending == [] && s'.queue.running == {} && s'.queue.done == [id]
  {
    var o := Exited(0, 0, false, "");
    var s1 := Dispatch(c, s, id, ServerState(IDLE, late));
    var s2 := ServeCall(c, s1, id, late, o);
    var s3 := Deliver(c, s2, id, o, ServerState(IDLE, late));
    s' := Advance(c, s3, Handle(None));
  }

  /**
   * One worker, one range with one metric and a retry are enough: the migration has ended, its only task is
   * done, and its server runs vmctl for that task once more.
   */
  lemma DoneAndStillSent(c: Config) returns (s: State, id: string)
    requires c.workers == 1 && c.capacity >= 1 && c.maxRetries >= 2
    requires |c.ranges| == 1 && |Metrics(c, c.ranges[0])| == 1
    ensures Reachable(c, s) && Ended(c, s)
    ensures s.queue.done == [id] && |s.servers| == 1
    ensures s.servers[0].gate.active == [id]
  {
    var s0;
    s0, id := OneTaskPending(c);
    var s1 := LoseAndRetry(c, s0, id);
    var s2 := RetrySucceeds(c, s1, id, multiset{id});
    var s3 := Drain(c, s2, ServerState(IDLE, multiset{id}));
    s := Advance(c, s3, LateArrive(0, id));
  }

  // ---------- running tasks are not bounded by the workers ----------

  /**
   * One worker, two pending tasks: the worker finishes the first and is released before the coordinator
   * looks for the next idle worker, so both tasks are running although there is only one worker.
   */
  lemma TwoRunningOnOneWorker(c: Config, s: State)
    returns (s1: State, s2: State, s3: State, s4: State, s5: State, s6: State)
    requires Inv(c, s) && c.workers == 1 && s.pc == Holding(0) && s.queue.running == {} && |s.queue.pending| >= 2
    requires !s.servers[0].gate.busy
    ensures Moves(c, s, s1) && Moves(c, s1, s2) && Moves(c, s2, s3)
    ensures Moves(c, s3, s4) && Moves(c, s4, s5) && Moves(c, s5, s6)
    ensures |s6.queue.running| == 2 > c.workers
  {
    InvIsSane(c, s);
    TwoPending(s.queue);
    s1, s2 := FirstDispatch(c, s);
    s3, s4 := FirstFinish(c, s2, s.queue.pending[0]);
    s5, s6 := SecondDispatch(c, s4);
    TwoRunning(s.queue);
  }

  /** So one worker and a first range with two metrics are enough for more running tasks than workers. */
  lemma RunningExceedsWorkers(c: Config) returns (s: State)
    requires c.workers == 1 && |c.ranges| >= 1 && |Metrics(c, c.ranges[0])| >= 2
    ensures Reachable(c, s) && |s.queue.running| == 2 > c.workers
  {
    var held := HoldingOnTwoPending(c);
    ReachableInv(c, held);
    var s1, s2, s3, s4, s5, s6 := TwoRunningOnOneWorker(c, held);
    FollowsSelf(c, held);
    Continue(c, held, held, s1);
    Continue(c, held, s1, s2);
    Continue(c, held, s2, s3);
    Continue(c, held, s3, s4);
    Continue(c, held, s4, s5);
    Continue(c, held, s5, s6);
    s := s6;
  }

  /** The coordinator has started the first range and acquired its only worker. */
  lemma HoldingOnTwoPending(c: Config) returns (s: State)
    requires c.workers == 1 && |c.ranges| >= 1 && |Metrics(c, c.ranges[0])| >= 2
    ensures Reachable(c, s) && s.pc == Holding(0) && s.queue.running == {} && |s.queue.pending| >= 2
    ensures s.servers == [ServerState(IDLE, multiset{})]
  {
    var metrics, started := FirstRange(c);
    s := Advance(c, started, Acquire);
  }

  lemma TwoPending(q: Queue)
    requires Tracked(q) && Listed(q) && |q.pending| >= 2
    ensures q.pending[0] in q.info && q.pending[1] in q.info && q.pending[0] != q.pending[1]
  {
    assert IdOk(q, q.pending[0]) && IdOk(q, q.pending[1]);
  }

  lemma TwoRunning(q: Queue)
    requires |q.pending| >= 2 && q.running == {} && q.pending[0] in q.info && q.pending[1] in q.info
    requires q.pending[0] != q.pending[1]
    ensures |Next(Next(q)).running| == 2
  {
    assert Next(Next(q)).running == {q.pending[0], q.pending[1]};
  }

  lemma FirstDispatch(c: Config, s: State) returns (s1: State, s2: State)
    requires Sane(s) && |s.busy| == 1 && s.pc == Holding(0) && s.queue.pending != []
    requires !s.servers[0].gate.busy && |s.queue.pending| >= 2 && s.queue.pending[1] in s.queue.info
    ensures Moves(c, s, s1) && Moves(c, s1, s2)
    ensures Sane(s2) && s2.pc == Dispatching && s2.queue == Next(s.queue) && |s2.busy| == 1
    ensures s.queue.pending[0] in s2.flights && s2.flights[s.queue.pending[0]] == Flight(0, Serving)
  {
    var a := s.queue.pending[0];
    s1 := DoTakeNext(s);
    assert Takes(c, s, TakeNext, s1);
    assert Sane(s1);
    s2 := DoArrive(s1, a);
    assert Takes(c, s1, Arrive(a), s2);
  }

  lemma FirstFinish(c: Config, s: State, a: string) returns (s1: State, s2: State)
    requires Sane(s) && |s.busy| == 1 && a in s.flights && s.flights[a] == Flight(0, Serving)
    ensures Moves(c, s, s1) && Moves(c, s1, s2)
    ensures s2.queue == s.queue && s2.pc == s.pc && Sane(s2) && |s2.busy| == 1 && !s2.busy[0]
  {
    var outcome := Exited(0, 0, false, "");
    s1 := DoReply(s, a, outcome);
    assert Takes(c, s, Reply(a, outcome), s1);
    assert Sane(s1);
    s2 := DoRelease(s1, a);
    assert Takes(c, s1, Release(a), s2);
  }

  lemma SecondDispatch(c: Config, s: State) returns (s1: State, s2: State)
    requires Sane(s) && |s.busy| == 1 && !s.busy[0] && s.pc == Dispatching && s.queue.pending != []
    ensures Moves(c, s, s1) && Moves(c, s1, s2) && s2.queue == Next(s.queue)
  {
    s1 := DoAcquire(s);
    assert Takes(c, s, Acquire, s1);
    assert Sane(s1);
    s2 := DoTakeNext(s1);
    assert Takes(c, s1, TakeNext, s2);
  }
}
