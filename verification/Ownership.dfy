/** Who owns what in every reachable state: tasks, goroutines, messages, workers and servers. */
module Ownership {
  import opened Selectors
  import opened Collections
  import opened Splitting
  import opened Identifiers
  import opened Tasks
  import opened Workers
  import opened Protocol

  // ---------- the invariant ----------

  function ChannelIds(channel: seq<Message>): (ids: seq<string>)
    ensures |ids| == |channel| && forall i :: 0 <= i < |ids| ==> ids[i] == channel[i].id
  {
    seq(|channel|, i requires 0 <= i < |channel| => channel[i].id)
  }

  /** The goroutines and messages a task has: executing or unsent, undelivered, in the coordinator's hands. */
  function Outstanding(s: State, id: string): nat {
    (if id in s.flights then 1 else 0) + (if id in ChannelIds(s.channel) then 1 else 0)
    + (if s.pc.Handling? && s.pc.message.id == id then 1 else 0)
  }

  /** A running task has exactly one of them, any other task none. */
  predicate TaskOwned(s: State, id: string) {
    && Outstanding(s, id) == (if id in s.queue.running then 1 else 0)
    && (id in s.inflight <==> id in s.flights || id in ChannelIds(s.channel))
  }

  ghost predicate TasksOwned(s: State) {
    NoDuplicates(ChannelIds(s.channel)) && forall id :: TaskOwned(s, id)
  }

  /** A goroutine that has not released its worker yet. */
  predicate Uses(s: State, id: string, w: nat) {
    id in s.flights && s.flights[id].worker == w && !s.flights[id].phase.Released?
  }

  ghost predicate Used(s: State, w: nat) {
    exists id :: Uses(s, id, w)
  }

  /** Busy workers are those held by the coordinator or used by exactly one goroutine. */
  ghost predicate WorkersOwned(s: State) {
    && (forall id, w: nat :: Uses(s, id, w) ==> w < |s.busy| && s.busy[w] && s.pc != Holding(w))
    && (forall id, k, w: nat :: Uses(s, id, w) && Uses(s, k, w) ==> id == k)
    && (s.pc.Holding? ==> s.pc.worker < |s.busy| && s.busy[s.pc.worker])
    && forall w :: 0 <= w < |s.busy| && s.busy[w] ==> s.pc == Holding(w) || Used(s, w)
  }

  /** A server runs at most one process, and its flag says whether it does. */
  predicate GateOk(g: Gate) {
    |g.active| == if g.busy then 1 else 0
  }

  ghost predicate ServersOwned(s: State) {
    && (forall w :: 0 <= w < |s.servers| ==> GateOk(s.servers[w].gate))
    && forall id :: id in s.flights && s.flights[id].worker < |s.servers| && s.flights[id].phase == Serving ==>
         s.servers[s.flights[id].worker].gate == Gate(true, [id])
  }

  ghost predicate Shape(c: Config, s: State) {
    && |s.busy| == |s.servers| == c.workers
    && forall id :: id in s.flights ==> s.flights[id].worker < |s.busy|
  }

  /** Between ranges nothing is left; at the loop head pending work never waits without any running. */
  predicate PcOk(s: State) {
    && (s.pc == Between ==> IsComplete(s.queue))
    && (s.pc == AtHead ==> s.queue.pending == [] || s.queue.running != {})
  }

  ghost predicate Numbered(s: State, id: string) {
    exists n: nat :: 1 <= n <= s.counter && TaskId(n) == id
  }

  ghost predicate AllNumbered(s: State) {
    forall id :: id in s.queue.info ==> Numbered(s, id)
  }

  ghost predicate Inv(c: Config, s: State) {
    var q := s.queue;
    && Shape(c, s) && Accounting(q) && AllNumbered(s)
    && TasksOwned(s) && WorkersOwned(s) && ServersOwned(s) && PcOk(s)
  }

  lemma InvIsSane(c: Config, s: State)
    requires Inv(c, s)
    ensures Sane(s)
  {
    RunningIsKnown(s.queue);
    if s.queue.pending != [] {
      assert IdOk(s.queue, s.queue.pending[0]);
    }
  }

  // ---------- the start ----------

  lemma InitInv(c: Config, s: State)
    requires Init(c, s)
    ensures Inv(c, s)
  {
    EmptyAccounting();
  }

  // ---------- steps of the goroutines and the servers ----------

  lemma ArriveKeepsServers(s: State, id: string)
    requires ServersOwned(s) && Sane(s) && id in s.flights && s.flights[id].phase == Calling
    ensures ServersOwned(DoArrive(s, id))
  {
  }

  lemma ArriveKeeps(c: Config, s: State, id: string)
    requires Inv(c, s) && Sane(s) && Enabled(c, s, Arrive(id))
    ensures Inv(c, DoArrive(s, id))
  {
    ArriveKeepsServers(s, id);
    PhaseKeepsInv(c, s, DoArrive(s, id));
  }

  /** A goroutine that keeps its worker goes on, and the servers stay owned. */
  lemma PhaseKeepsInv(c: Config, s: State, s': State)
    requires Inv(c, s) && s' == s.(flights := s'.flights, servers := s'.servers)
    requires s'.flights.Keys == s.flights.Keys && |s'.servers| == |s.servers| && ServersOwned(s')
    requires forall k :: k in s.flights ==>
               s'.flights[k].worker == s.flights[k].worker
               && s'.flights[k].phase.Released? == s.flights[k].phase.Released?
    ensures Inv(c, s')
  {
    KeepsTasks(s, s');
    SamePlaces(s, s');
    SameNumbers(s, s');
  }

  /** Steps that keep the goroutines' ids, the channel and the queue keep the ownership of tasks. */
  lemma KeepsTasks(s: State, s': State)
    requires TasksOwned(s)
    requires s'.flights.Keys == s.flights.Keys && s'.channel == s.channel && s'.inflight == s.inflight
    requires s'.queue.running == s.queue.running
    requires s'.pc == s.pc || (!s.pc.Handling? && !s'.pc.Handling?)
    ensures TasksOwned(s')
  {
    forall id ensures TaskOwned(s', id) {
      assert TaskOwned(s, id);
    }
  }

  /** Steps that do not change who uses which worker, and the flags only where the coordinator holds one. */
  lemma SamePlaces(s: State, s': State)
    requires WorkersOwned(s) && |s'.busy| == |s.busy|
    requires forall id, w: nat :: Uses(s', id, w) <==> Uses(s, id, w)
    requires forall w: nat :: w < |s.busy| && s.pc != Holding(w) && s'.pc != Holding(w) ==> s'.busy[w] == s.busy[w]
    requires s.pc.Holding? && s'.pc != s.pc ==> !s'.busy[s.pc.worker]
    requires s'.pc.Holding? && s'.pc != s.pc ==>
            s'.pc.worker < |s.busy| && !s.busy[s'.pc.worker] && s'.busy[s'.pc.worker]
    requires s'.pc.Holding? && s'.pc == s.pc ==> s'.busy[s'.pc.worker]
    ensures WorkersOwned(s')
  {
    forall w: nat | w < |s'.busy| && s'.busy[w] && s'.pc != Holding(w) ensures Used(s', w) {
      assert Used(s, w);
      var id :| Uses(s, id, w);
      assert Uses(s', id, w);
    }
  }

  lemma ReplyKeepsServers(s: State, id: string, outcome: Outcome)
    requires ServersOwned(s) && WorkersOwned(s) && Sane(s) && id in s.flights && s.flights[id].phase == Serving
    ensures ServersOwned(DoReply(s, id, outcome))
  {
    var s' := DoReply(s, id, outcome);
    forall k | k in s'.flights && s'.flights[k].phase == Serving
      ensures s'.servers[s'.flights[k].worker].gate == Gate(true, [k])
    {
      assert Uses(s, k, s.flights[k].worker) && Uses(s, id, s.flights[id].worker);
    }
  }

  lemma ReplyKeeps(c: Config, s: State, id: string, outcome: Outcome)
    requires Inv(c, s) && Sane(s) && Enabled(c, s, Reply(id, outcome))
    ensures Inv(c, DoReply(s, id, outcome))
  {
    ReplyKeepsServers(s, id, outcome);
    PhaseKeepsInv(c, s, DoReply(s, id, outcome));
  }

  lemma LoseKeepsServers(s: State, id: string)
    requires ServersOwned(s) && Sane(s) && id in s.flights
    ensures ServersOwned(DoLose(s, id))
  {
  }

  lemma LoseKeeps(c: Config, s: State, id: string)
    requires Inv(c, s) && Sane(s) && Enabled(c, s, Lose(id))
    ensures Inv(c, DoLose(s, id))
  {
    LoseKeepsServers(s, id);
    PhaseKeepsInv(c, s, DoLose(s, id));
  }

  lemma ReleaseKeeps(c: Config, s: State, id: string)
    requires Inv(c, s) && Sane(s) && Enabled(c, s, Release(id))
    ensures Inv(c, DoRelease(s, id))
  {
    var s' := DoRelease(s, id);
    var w := s.flights[id].worker;
    KeepsTasks(s, s');
    assert Uses(s, id, w);
    assert forall k, v: nat :: Uses(s', k, v) <==> Uses(s, k, v) && k != id;
    forall v: nat | 0 <= v < |s'.busy| && s'.busy[v] && s'.pc != Holding(v) ensures Used(s', v) {
      assert Used(s, v);
      var k :| Uses(s, k, v);
      assert Uses(s', k, v);
    }
  }

  lemma SendOwnsTasks(s: State, id: string)
    requires TasksOwned(s) && id in s.flights && s.flights[id].phase.Released?
    ensures TasksOwned(DoSend(s, id))
  {
    var s' := DoSend(s, id);
    assert TaskOwned(s, id);
    assert ChannelIds(s'.channel) == ChannelIds(s.channel) + [id];
    NoDuplicatesAppend(ChannelIds(s.channel), [id]);
    forall k ensures TaskOwned(s', k) {
      assert TaskOwned(s, k);
    }
  }

  lemma SendKeeps(c: Config, s: State, id: string)
    requires Inv(c, s) && Sane(s) && Enabled(c, s, Send(id))
    ensures Inv(c, DoSend(s, id))
  {
    var s' := DoSend(s, id);
    SendOwnsTasks(s, id);
    assert forall k, v: nat :: Uses(s', k, v) <==> Uses(s, k, v);
    SamePlaces(s, s');
  }

  lemma LateArriveKeeps(c: Config, s: State, w: nat, id: string)
    requires Inv(c, s) && Sane(s) && Enabled(c, s, LateArrive(w, id))
    ensures Inv(c, DoLateArrive(s, w, id))
  {
    KeepsTasks(s, DoLateArrive(s, w, id));
    SamePlaces(s, DoLateArrive(s, w, id));
  }

  lemma VanishKeeps(c: Config, s: State, w: nat, id: string)
    requires Inv(c, s) && Sane(s) && Enabled(c, s, Vanish(w, id))
    ensures Inv(c, DoVanish(s, w, id))
  {
    KeepsTasks(s, DoVanish(s, w, id));
    SamePlaces(s, DoVanish(s, w, id));
  }

  lemma LateDoneKeeps(c: Config, s: State, w: nat)
    requires Inv(c, s) && Sane(s) && Enabled(c, s, LateDone(w))
    ensures Inv(c, DoLateDone(s, w))
  {
    KeepsTasks(s, DoLateDone(s, w));
    SamePlaces(s, DoLateDone(s, w));
  }

  // ---------- steps of the coordinator ----------

  lemma AcquireKeeps(c: Config, s: State)
    requires Inv(c, s) && Sane(s) && s.pc == Dispatching && c.workers >= 1
    ensures Inv(c, DoAcquire(s))
  {
    var s' := DoAcquire(s);
    KeepsTasks(s, s');
    assert forall k, v: nat :: Uses(s', k, v) <==> Uses(s, k, v);
    SamePlaces(s, s');
    if s'.pc == AtHead {
      assert s.busy[0] && Used(s, 0);
      var id :| Uses(s, id, 0);
      assert TaskOwned(s, id);
    }
  }

  lemma TakeNothingKeeps(c: Config, s: State)
    requires Inv(c, s) && Sane(s) && Enabled(c, s, TakeNext) && s.queue.pending == []
    ensures Inv(c, DoTakeNext(s))
  {
    var s' := DoTakeNext(s);
    KeepsTasks(s, s');
    assert forall k, v: nat :: Uses(s', k, v) <==> Uses(s, k, v);
    SamePlaces(s, s');
  }

  lemma TakeTaskOwnsTasks(s: State)
    requires Sane(s) && s.pc.Holding? && s.pc.worker < |s.busy| && s.queue.pending != []
    requires TasksOwned(s) && IdOk(s.queue, s.queue.pending[0])
    ensures TasksOwned(DoTakeNext(s))
  {
    var s', id := DoTakeNext(s), s.queue.pending[0];
    forall k ensures TaskOwned(s', k) {
      assert TaskOwned(s, k);
    }
  }

  lemma TakeTaskOwnsWorkers(s: State)
    requires Sane(s) && s.pc.Holding? && s.pc.worker < |s.busy| && s.queue.pending != []
    requires WorkersOwned(s) && s.queue.pending[0] !in s.flights
    ensures WorkersOwned(DoTakeNext(s))
  {
    var s', id, w := DoTakeNext(s), s.queue.pending[0], s.pc.worker;
    assert forall k, v: nat :: Uses(s', k, v) <==> Uses(s, k, v) || (k == id && v == w);
    forall v: nat | v < |s'.busy| && s'.busy[v] ensures Used(s', v) {
      if v == w {
        assert Uses(s', id, v);
      } else {
        assert Used(s, v);
        var k :| Uses(s, k, v);
        assert Uses(s', k, v);
      }
    }
  }

  lemma TakeTaskKeepsQueue(s: State)
    requires Sane(s) && s.pc.Holding? && s.pc.worker < |s.busy| && s.queue.pending != []
    requires Accounting(s.queue) && AllNumbered(s)
    ensures Accounting(DoTakeNext(s).queue) && AllNumbered(DoTakeNext(s))
  {
    NextKeepsAccounting(s.queue);
    SameNumbers(s, DoTakeNext(s));
  }

  lemma TakeTaskKeepsServers(c: Config, s: State)
    requires Sane(s) && s.pc.Holding? && s.pc.worker < |s.busy| && s.queue.pending != []
    requires Shape(c, s) && ServersOwned(s)
    ensures Shape(c, DoTakeNext(s)) && ServersOwned(DoTakeNext(s))
  {
  }

  lemma TakeTaskKeeps(c: Config, s: State)
    requires Inv(c, s) && Sane(s) && s.pc.Holding? && s.pc.worker < |s.busy| && s.queue.pending != []
    ensures Inv(c, DoTakeNext(s))
  {
    var id := s.queue.pending[0];
    assert IdOk(s.queue, id) && TaskOwned(s, id);
    TakeTaskKeepsQueue(s);
    TakeTaskOwnsTasks(s);
    TakeTaskOwnsWorkers(s);
    TakeTaskKeepsServers(c, s);
  }

  lemma ReceiveOwnsTasks(s: State)
    requires TasksOwned(s) && s.channel != [] && s.pc == AtHead
    ensures TasksOwned(DoReceive(s))
  {
    var s', id := DoReceive(s), s.channel[0].id;
    assert ChannelIds(s.channel) == [id] + ChannelIds(s'.channel);
    assert id !in ChannelIds(s'.channel);
    assert ChannelIds(s'.channel) == ChannelIds(s.channel)[1..];
    forall k ensures TaskOwned(s', k) {
      assert TaskOwned(s, k);
    }
  }

  lemma ReceiveKeeps(c: Config, s: State)
    requires Inv(c, s) && s.channel != [] && s.pc == AtHead
    ensures Inv(c, DoReceive(s))
  {
    var s' := DoReceive(s);
    ReceiveOwnsTasks(s);
    assert forall k, v: nat :: Uses(s', k, v) <==> Uses(s, k, v);
    SamePlaces(s, s');
  }

  /** New ids are unknown to the queue. */
  lemma NewIdsAreNew(s: State, n: nat, id: string)
    requires AllNumbered(s) && id in NewIds(s.counter, n)
    ensures id !in s.queue.info
  {
    var i :| 0 <= i < n && NewIds(s.counter, n)[i] == id;
    NewIdIsNew(s, s.counter + 1 + i);
  }

  lemma BatchRecords(counter: nat, ts: seq<Task>, id: string)
    requires id in Batch(counter, ts)
    ensures id in NewIds(counter, |ts|) && Batch(counter, ts)[id] in ts
  {
    BatchHas(counter, ts);
    var ids := NewIds(counter, |ts|);
    var i :| 0 <= i < |ids| && ids[i] == id;
    assert Batch(counter, ts)[ids[i]] == ts[i];
  }

  lemma BatchIsNew(s: State, ts: seq<Task>, ids: seq<string>, batch: map<string, Task>)
    requires AllNumbered(s) && forall i :: 0 <= i < |ts| ==> ts[i].status == Pending && ts[i].attempts == 0
    requires ids == NewIds(s.counter, |ts|) && batch == Batch(s.counter, ts)
    ensures IsBatch(s.queue, ids, batch)
  {
    BatchHas(s.counter, ts);
    forall id | id in batch ensures id !in s.queue.info && batch[id].status == Pending && batch[id].attempts == 0 {
      BatchRecords(s.counter, ts, id);
      NewIdsAreNew(s, |ts|, id);
    }
  }

  lemma NewIdIsNew(s: State, n: nat)
    requires AllNumbered(s) && n > s.counter
    ensures TaskId(n) !in s.queue.info
  {
    if TaskId(n) in s.queue.info {
      assert Numbered(s, TaskId(n));
      var k: nat :| 1 <= k <= s.counter && TaskId(k) == TaskId(n);
      TaskIdIsInjective(k, n);
    }
  }

  lemma StillNumbered(s: State, s': State, id: string)
    requires Numbered(s, id) && s'.counter >= s.counter
    ensures Numbered(s', id)
  {
    var n: nat :| 1 <= n <= s.counter && TaskId(n) == id;
    assert TaskId(n) == id;
  }

  lemma BatchIsNumbered(s: State, s': State, n: nat, ids: seq<string>)
    requires AllNumbered(s) && s'.counter == s.counter + n && ids == NewIds(s.counter, n)
    requires forall id :: id in s'.queue.info ==> id in s.queue.info || id in ids
    ensures AllNumbered(s')
  {
    forall id | id in s'.queue.info ensures Numbered(s', id) {
      if id in ids {
        var i :| 0 <= i < |ids| && ids[i] == id;
        assert TaskId(s.counter + 1 + i) == id;
      } else {
        StillNumbered(s, s', id);
      }
    }
  }

  lemma StartRangeKeeps(c: Config, s: State, metrics: seq<string>)
    requires Inv(c, s) && s.pc == Between && s.range < |c.ranges|
    ensures Inv(c, DoStartRange(c, s, metrics))
  {
    var s' := DoStartRange(c, s, metrics);
    NothingOutstanding(c, s);
    assert forall k, v: nat :: Uses(s', k, v) <==> Uses(s, k, v);
    SamePlaces(s, s');
    forall id ensures TaskOwned(s', id) {
      assert TaskOwned(s, id);
    }
    if metrics != [] {
      var ts := OptimisticTasks(c, metrics, c.ranges[s.range]);
      var ids, batch := NewIds(s.counter, |ts|), Batch(s.counter, ts);
      BatchIsNew(s, ts, ids, batch);
      AddKeepsAccounting(s.queue, ids, batch);
      BatchIsNumbered(s, s', |ts|, ids);
    } else {
      SameNumbers(s, s');
    }
  }

  lemma ChannelHasIds(s: State)
    requires s.channel != []
    ensures exists id :: id in ChannelIds(s.channel)
  {
    assert ChannelIds(s.channel)[0] in ChannelIds(s.channel);
  }

  /** Between ranges no goroutine, no message and no busy worker is left. */
  lemma NothingOutstanding(c: Config, s: State)
    requires Inv(c, s) && s.queue.running == {} && !s.pc.Handling? && !s.pc.Holding?
    ensures s.flights == map[] && s.channel == [] && s.inflight == {}
    ensures forall w :: 0 <= w < |s.busy| ==> !s.busy[w]
  {
    forall id ensures id !in s.flights && id !in ChannelIds(s.channel) && id !in s.inflight {
      assert TaskOwned(s, id);
    }
    if s.channel != [] {
      ChannelHasIds(s);
    }
    assert forall w: nat :: !Used(s, w);
  }

  /** The result loop leaves goroutines, channel, workers and servers alone. */
  predicate SameOthers(s: State, s': State) {
    && s'.flights == s.flights && s'.channel == s.channel && s'.inflight == s.inflight
    && s'.busy == s.busy && s'.servers == s.servers
  }

  lemma HandleLeavesOthers(c: Config, s: State, resplit: Option<seq<SelectorInfo>>)
    requires Sane(s) && s.pc.Handling? && (resplit.Some? ==> MayResplit(s.queue, s.pc.message))
    ensures SameOthers(s, DoHandle(c, s, resplit)) && DoHandle(c, s, resplit).pc == Dispatching
  {
  }

  /** What the result loop does with a result, seen from the queue. */
  lemma HandleSettles(c: Config, s: State, resplit: Option<seq<SelectorInfo>>)
    requires Sane(s) && AllNumbered(s) && s.pc.Handling? && s.pc.message.id in s.queue.running
    requires resplit.Some? ==> MayResplit(s.queue, s.pc.message)
    ensures s.pc.message.id in DoHandle(c, s, resplit).queue.info
    ensures Settles(s.queue, DoHandle(c, s, resplit).queue, s.pc.message, resplit.Some?)
  {
  }

  /** Every step but the start of a range and a split leaves each task its work. */
  predicate IsPlain(step: Step) {
    !step.StartRange? && (step.Handle? ==> step.resplit == None)
  }

  lemma OutcomeKeepsWork(c: Config, s: State)
    requires Sane(s) && s.pc.Handling? && s.pc.message.id in s.queue.running
    ensures KeepsWork(s.queue, DoHandle(c, s, None).queue)
  {
    var m := s.pc.message;
    match m.outcome
    case RpcError(message) => FailKeepsWork(s.queue, m.id, message);
    case Exited(code, bytes, cardinality, errorText) =>
      if code == 0 {
        CompleteKeepsWork(s.queue, m.id, bytes);
      } else {
        FailKeepsWork(s.queue, m.id, FailureReason(code, errorText));
      }
  }

  lemma PlainQueueStepKeepsWork(c: Config, s: State, step: Step)
    requires Sane(s) && Enabled(c, s, step) && IsPlain(step) && IsQueueStep(step)
    requires s.pc.Handling? ==> s.pc.message.id in s.queue.running
    ensures KeepsWork(s.queue, Apply(c, s, step).queue) && Apply(c, s, step).range == s.range
  {
    if step.Handle? {
      OutcomeKeepsWork(c, s);
    } else if s.queue.pending != [] {
      NextKeepsWork(s.queue);
    }
  }

  lemma PlainStepKeepsWork(c: Config, s: State, step: Step, s': State)
    requires Takes(c, s, step, s') && IsPlain(step)
    requires s.pc.Handling? ==> s.pc.message.id in s.queue.running
    ensures KeepsWork(s.queue, s'.queue) && s'.range == s.range
  {
    if IsQueueStep(step) {
      PlainQueueStepKeepsWork(c, s, step);
    } else {
      QuietQueue(c, s, step, s');
    }
  }

  /** A handled result leaves its task without goroutine, message or place among the running. */
  lemma HandledOwns(c: Config, s: State, s': State)
    requires Shape(c, s) && TasksOwned(s) && WorkersOwned(s) && ServersOwned(s) && s.pc.Handling?
    requires SameOthers(s, s') && s'.pc == Dispatching && s'.queue.running == s.queue.running - {s.pc.message.id}
    ensures Shape(c, s') && TasksOwned(s') && WorkersOwned(s') && ServersOwned(s') && PcOk(s')
  {
    forall k ensures TaskOwned(s', k) {
      assert TaskOwned(s, k);
    }
    assert forall k, v: nat :: Uses(s', k, v) <==> Uses(s, k, v);
    SamePlaces(s, s');
  }

  /** What the result loop does to the queue, whatever the outcome. */
  lemma HandleKeeps(c: Config, s: State, resplit: Option<seq<SelectorInfo>>)
    requires Inv(c, s) && Sane(s) && s.pc.Handling? && (resplit.Some? ==> MayResplit(s.queue, s.pc.message))
    ensures Inv(c, DoHandle(c, s, resplit))
  {
    assert TaskOwned(s, s.pc.message.id);
    HandleKeepsQueue(c, s, resplit);
    HandleLeavesOthers(c, s, resplit);
    HandledOwns(c, s, DoHandle(c, s, resplit));
  }

  lemma SameNumbers(s: State, s': State)
    requires AllNumbered(s) && s'.counter == s.counter && s'.queue.info.Keys == s.queue.info.Keys
    ensures AllNumbered(s')
  {
    forall id | id in s'.queue.info ensures Numbered(s', id) {
      StillNumbered(s, s', id);
    }
  }

  lemma ReplaceKeepsQueue(s: State, s': State, id: string, ts: seq<Task>)
    requires Accounting(s.queue) && AllNumbered(s) && id in s.queue.running
    requires forall i :: 0 <= i < |ts| ==> ts[i].status == Pending && ts[i].attempts == 0
    requires s'.queue == Replace(s.queue, id, NewIds(s.counter, |ts|), Batch(s.counter, ts))
    requires s'.counter == s.counter + |ts|
    ensures Accounting(s'.queue) && AllNumbered(s')
  {
    var ids, batch := NewIds(s.counter, |ts|), Batch(s.counter, ts);
    BatchIsNew(s, ts, ids, batch);
    ReplaceKeepsAccounting(s.queue, id, ids, batch);
    BatchIsNumbered(s, s', |ts|, ids);
  }

  lemma FailKeepsQueue(s: State, s': State, id: string, error: string)
    requires Accounting(s.queue) && AllNumbered(s) && id in s.queue.running && s.queue.running <= s.queue.info.Keys
    requires s'.queue == Fail(s.queue, id, error) && s'.counter == s.counter
    ensures Accounting(s'.queue) && AllNumbered(s')
  {
    FailKeepsAccounting(s.queue, id, error);
    SameNumbers(s, s');
  }

  lemma CompleteKeepsQueue(s: State, s': State, id: string, bytes: int)
    requires Accounting(s.queue) && AllNumbered(s) && id in s.queue.running && s.queue.running <= s.queue.info.Keys
    requires s'.queue == Complete(s.queue, id, bytes) && s'.counter == s.counter
    ensures Accounting(s'.queue) && AllNumbered(s')
  {
    CompleteKeepsAccounting(s.queue, id, bytes);
    SameNumbers(s, s');
  }

  lemma HandleKeepsQueue(c: Config, s: State, resplit: Option<seq<SelectorInfo>>)
    requires Sane(s) && s.pc.Handling? && (resplit.Some? ==> MayResplit(s.queue, s.pc.message))
    requires Accounting(s.queue) && AllNumbered(s) && s.pc.message.id in s.queue.running
    ensures var s' := DoHandle(c, s, resplit);
            Accounting(s'.queue) && AllNumbered(s') && s'.queue.running == s.queue.running - {s.pc.message.id}
  {
    var s', m := DoHandle(c, s, resplit), s.pc.message;
    match m.outcome
    case RpcError(message) => FailKeepsQueue(s, s', m.id, message);
    case Exited(code, bytes, cardinality, errorText) =>
      if code == 0 {
        CompleteKeepsQueue(s, s', m.id, bytes);
      } else if resplit.Some? {
        ReplaceKeepsQueue(s, s', m.id, SubTasks(c, s.queue.info[m.id], resplit.value));
      } else {
        FailKeepsQueue(s, s', m.id, FailureReason(code, errorText));
      }
  }

  lemma PendingIsNotFlying(c: Config, s: State)
    requires Inv(c, s)
    ensures s.queue.pending != [] ==> s.queue.pending[0] !in s.flights
  {
    if s.queue.pending != [] {
      assert TaskOwned(s, s.queue.pending[0]) && IdOk(s.queue, s.queue.pending[0]);
    }
  }

  // ---------- every reachable state ----------

  predicate IsCoordinators(step: Step) {
    step.StartRange? || step.Acquire? || step.TakeNext? || step.Finish? || step.Receive? || step.Handle?
  }

  lemma CoordinatorKeepsInv(c: Config, s: State, step: Step, s': State)
    requires Inv(c, s) && c.workers >= 1 && Takes(c, s, step, s') && IsCoordinators(step)
    ensures Inv(c, s')
  {
    match step
    case StartRange(metrics) => StartRangeKeeps(c, s, metrics);
    case Acquire => AcquireKeeps(c, s);
    case TakeNext => if s.queue.pending == [] { TakeNothingKeeps(c, s); } else { TakeTaskKeeps(c, s); }
    case Finish => FinishKeeps(c, s);
    case Receive => ReceiveKeeps(c, s);
    case Handle(resplit) => HandleKeeps(c, s, resplit);
  }

  lemma OthersKeepInv(c: Config, s: State, step: Step, s': State)
    requires Inv(c, s) && Takes(c, s, step, s') && !IsCoordinators(step)
    ensures Inv(c, s')
  {
    match step
    case Arrive(id) => ArriveKeeps(c, s, id);
    case Reply(id, outcome) => ReplyKeeps(c, s, id, outcome);
    case Lose(id) => LoseKeeps(c, s, id);
    case Release(id) => ReleaseKeeps(c, s, id);
    case Send(id) => SendKeeps(c, s, id);
    case LateArrive(w, id) => LateArriveKeeps(c, s, w, id);
    case Vanish(w, id) => VanishKeeps(c, s, w, id);
    case LateDone(w) => LateDoneKeeps(c, s, w);
  }

  lemma StepKeepsInv(c: Config, s: State, step: Step, s': State)
    requires Inv(c, s) && c.workers >= 1 && Takes(c, s, step, s')
    ensures Inv(c, s')
  {
    if IsCoordinators(step) {
      CoordinatorKeepsInv(c, s, step, s');
    } else {
      OthersKeepInv(c, s, step, s');
    }
  }

  lemma FinishKeeps(c: Config, s: State)
    requires Inv(c, s) && s.pc == AtHead && IsComplete(s.queue)
    ensures Inv(c, s.(pc := Between))
  {
    var s' := s.(pc := Between);
    KeepsTasks(s, s');
    NothingOutstanding(c, s);
    assert forall k, v: nat :: Uses(s', k, v) <==> Uses(s, k, v);
    SamePlaces(s, s');
    SameNumbers(s, s');
  }

  lemma {:induction false} RunKeepsInv(c: Config, run: seq<State>)
    requires IsRun(c, run) && c.workers >= 1
    ensures Inv(c, run[|run| - 1])
  {
    if |run| == 1 {
      InitInv(c, run[0]);
    } else {
      var before, step := LastStep(c, run);
      RunKeepsInv(c, before);
      StepKeepsInv(c, run[|run| - 2], step, run[|run| - 1]);
    }
  }
}
