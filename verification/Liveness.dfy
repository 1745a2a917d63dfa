/** The counting law, deadlock freedom and termination. */
module Liveness {
  import opened Selectors
  import opened Collections
  import opened Splitting
  import opened Tasks
  import opened Workers
  import opened Protocol
  import opened Ownership

  // ---------- the counting law ----------

  function Unreleased(s: State): set<string> {
    set id | id in s.flights && !s.flights[id].phase.Released?
  }

  function Unsent(s: State): set<string> {
    set id | id in s.flights && s.flights[id].phase.Released?
  }

  /** The workers that execute a task, as opposed to one the coordinator has only just acquired. */
  function Executing(s: State): set<nat> {
    set w: nat | w < |s.busy| && s.busy[w] && s.pc != Holding(w)
  }

  lemma {:induction false} BijectionSize(m: map<string, nat>, image: set<nat>)
    requires forall a, b :: a in m && b in m && m[a] == m[b] ==> a == b
    requires forall w :: w in image <==> exists a :: a in m && m[a] == w
    ensures |m.Keys| == |image|
    decreases |image|
  {
    if m.Keys == {} {
      assert image == {};
    } else {
      var a :| a in m.Keys;
      assert m[a] in image;
      var m' := m - {a};
      assert m'.Keys == m.Keys - {a};
      forall w ensures w in image - {m[a]} <==> exists b :: b in m' && m'[b] == w {
        if w in image - {m[a]} {
          var b :| b in m && m[b] == w;
          assert b in m' && m'[b] == w;
        }
      }
      BijectionSize(m', image - {m[a]});
    }
  }

  /** Busy workers and goroutines that have not released theirs are in bijection. */
  lemma ExecutingCount(c: Config, s: State)
    requires Inv(c, s)
    ensures |Unreleased(s)| == |Executing(s)|
  {
    var m: map<string, nat> := map id | id in Unreleased(s) :: s.flights[id].worker;
    forall a, b | a in m && b in m && m[a] == m[b] ensures a == b {
      assert Uses(s, a, m[a]) && Uses(s, b, m[a]);
    }
    forall w: nat ensures w in Executing(s) <==> exists a :: a in m && m[a] == w {
      if w in Executing(s) {
        assert Used(s, w);
        var id :| Uses(s, id, w);
        assert id in m && m[id] == w;
      }
      forall a | a in m && m[a] == w ensures w in Executing(s) {
        assert Uses(s, a, w);
      }
    }
    assert m.Keys == Unreleased(s);
    BijectionSize(m, Executing(s));
  }

  /**
   * Workers are released before their result is sent, so running tasks are not bounded by the workers:
   * they are the executing workers plus the unsent, the undelivered and the unhandled results.
   */
  lemma RunningLaw(c: Config, s: State)
    requires Inv(c, s)
    ensures |s.queue.running| == |Executing(s)| + |Unsent(s)| + |s.channel| + (if s.pc.Handling? then 1 else 0)
  {
    ExecutingCount(c, s);
    var sent := Elements(ChannelIds(s.channel));
    var handled := if s.pc.Handling? then {s.pc.message.id} else {};
    CountElements(ChannelIds(s.channel));
    OutstandingParts(c, s, sent, handled);
    FourParts(s.queue.running, Unreleased(s), Unsent(s), sent, handled);
  }

  lemma OutstandingParts(c: Config, s: State, sent: set<string>, handled: set<string>)
    requires TasksOwned(s) && sent == Elements(ChannelIds(s.channel))
    requires handled == if s.pc.Handling? then {s.pc.message.id} else {}
    ensures Unreleased(s) !! Unsent(s) !! sent !! handled
    ensures s.queue.running == Unreleased(s) + Unsent(s) + sent + handled
  {
    forall id
      ensures id in s.queue.running <==> id in s.flights || id in sent || id in handled
      ensures !(id in s.flights && (id in sent || id in handled)) && !(id in sent && id in handled)
    {
      assert TaskOwned(s, id);
    }
    assert forall id :: id in s.flights <==> id in Unreleased(s) || id in Unsent(s);
  }

  lemma FourParts<T>(all: set<T>, a: set<T>, b: set<T>, x: set<T>, y: set<T>)
    requires a !! b !! x !! y && all == a + b + x + y
    ensures |all| == |a| + |b| + |x| + |y|
  {
    assert all == (a + b) + (x + y);
    assert |a + b| == |a| + |b|;
    assert |x + y| == |x| + |y|;
  }

  /** At the loop head the in-flight map and the running map have the same keys. */
  lemma LoopHead(c: Config, s: State)
    requires Inv(c, s) && s.pc == AtHead
    ensures s.inflight == s.queue.running
  {
    forall id ensures id in s.inflight <==> id in s.queue.running {
      assert TaskOwned(s, id);
    }
  }

  /**
   * A result in hand is always that of a running task, and not of a pending one: the "unknown task" branches
   * are unreachable, and a replacement always takes the task out of the queue.
   */
  lemma HandledTaskIsRunning(c: Config, s: State)
    requires Inv(c, s) && s.pc.Handling?
    ensures s.pc.message.id in s.queue.running && s.pc.message.id in s.queue.info
    ensures s.pc.message.id !in s.queue.pending
  {
    assert TaskOwned(s, s.pc.message.id) && IdOk(s.queue, s.pc.message.id);
  }

  // ---------- no deadlock ----------

  /** Nothing is left to do. */
  predicate Ended(c: Config, s: State) {
    s.pc == Between && s.range >= |c.ranges|
  }

  /** A step of the goroutine that owns the task. */
  function NextOf(s: State, id: string): Step
    requires id in s.flights
  {
    match s.flights[id].phase
    case Calling => Arrive(id)
    case Serving => Reply(id, Exited(0, 0, false, ""))
    case Answered(_) => Release(id)
    case Released(_) => Send(id)
  }

  /** At the loop head a running task whose result is not in the channel has a goroutine. */
  lemma OutstandingIsFlying(c: Config, s: State) returns (id: string)
    requires Inv(c, s) && s.pc == AtHead && !IsComplete(s.queue) && s.channel == []
    ensures id in s.flights
  {
    assert s.queue.running != {};
    id :| id in s.queue.running;
    assert TaskOwned(s, id);
  }

  /** No goroutine waits while the channel has room. */
  lemma FlyingCanMove(c: Config, s: State, id: string)
    requires Sane(s) && s.channel == [] && c.capacity >= 1 && id in s.flights
    ensures Enabled(c, s, NextOf(s, id))
  {
  }

  /** While the queue is incomplete at the loop head, a result is there or some goroutine can move. */
  lemma ReceiveIsComing(c: Config, s: State)
    requires Inv(c, s) && Sane(s) && s.pc == AtHead && !IsComplete(s.queue) && c.capacity >= 1
    ensures Enabled(c, s, Receive) || exists id :: id in s.flights && Enabled(c, s, NextOf(s, id))
  {
    if s.channel == [] {
      var id := OutstandingIsFlying(c, s);
      FlyingCanMove(c, s, id);
    }
  }

  /** A result can always be handled, with a split when one is due. */
  lemma HandleIsEnabled(c: Config, s: State) returns (step: Step)
    requires Sane(s) && s.pc.Handling?
    ensures Enabled(c, s, step)
  {
    step := Handle(None);
    if SplitIsDue(c, s.queue, s.pc.message) {
      if sels :| IsResplit(c, s.queue.info[s.pc.message.id], sels) {
        step := Handle(Some(sels));
      }
    }
  }

  lemma DeadlockFree(c: Config, s: State)
    requires Inv(c, s) && c.workers >= 1 && c.capacity >= 1 && !Ended(c, s)
    ensures CanMove(c, s)
  {
    InvIsSane(c, s);
    var step: Step;
    match s.pc {
      case Between =>
        var metrics := EnumerationExists(Metrics(c, c.ranges[s.range]));
        step := StartRange(metrics);
      case Dispatching => step := Acquire;
      case Holding(w) => step := TakeNext;
      case Handling(m) => step := HandleIsEnabled(c, s);
      case AtHead =>
        if IsComplete(s.queue) {
          step := Finish;
        } else {
          ReceiveIsComing(c, s);
          if Enabled(c, s, Receive) {
            step := Receive;
          } else {
            var id :| id in s.flights && Enabled(c, s, NextOf(s, id));
            step := NextOf(s, id);
          }
        }
    }
    assert Takes(c, s, step, Apply(c, s, step));
    assert Moves(c, s, Apply(c, s, step));
  }

  /** The coordinator waits for results only when nothing is pending or every worker is busy. */
  lemma NobodyIdles(c: Config, s: State, step: Step, s': State)
    requires Takes(c, s, step, s') && s.pc != AtHead && s'.pc == AtHead
    ensures s'.queue.pending == [] || forall w :: 0 <= w < |s'.busy| ==> s'.busy[w]
  {
    assert step.Acquire? || step.TakeNext?;
  }

  // ---------- termination ----------

  function UnsplitTasks(q: Queue): set<string> {
    set id | id in Live(q) && id in q.info && !q.info[id].splitAttempted
  }

  /** Attempts a task has left. */
  function Left(t: Task): nat {
    if t.attempts < Limit(t) then Limit(t) - t.attempts else 0
  }

  function AttemptsLeft(q: Queue): map<string, nat> {
    map id | id in q.info :: Left(q.info[id])
  }

  function PcWeight(pc: Pc): nat {
    match pc
    case Between => 0
    case AtHead => 1
    case Holding(_) => 2
    case Handling(_) => 2
    case Dispatching => 3
  }

  function PhaseWeight(phase: Phase): nat {
    match phase
    case Calling => 10
    case Serving => 7
    case Answered(_) => 6
    case Released(_) => 5
  }

  function FlightWeights(s: State): map<string, nat> {
    map id | id in s.flights :: PhaseWeight(s.flights[id].phase)
  }

  function ServerWeight(servers: seq<ServerState>): nat {
    if servers == [] then 0 else 2 * |servers[0].late| + |servers[0].gate.active| + ServerWeight(servers[1..])
  }

  ghost function Activity(s: State): nat {
    PcWeight(s.pc) + Total(s.flights.Keys, FlightWeights(s)) + 4 * |s.channel| + ServerWeight(s.servers)
  }

  /**
   * What every step brings down, in this order: the ranges to go, the live tasks that were not split,
   * the attempts the live tasks have left, the pending tasks, and the activity still under way.
   */
  datatype Measure = Measure(ranges: nat, unsplit: nat, attempts: nat, pending: nat, activity: nat)

  ghost function MeasureOf(c: Config, s: State): Measure
    requires Inv(c, s)
  {
    LiveIsKnown(s.queue);
    Measure(if s.range < |c.ranges| then |c.ranges| - s.range else 0, |UnsplitTasks(s.queue)|,
            Total(Live(s.queue), AttemptsLeft(s.queue)), |s.queue.pending|, Activity(s))
  }

  predicate Below(a: Measure, b: Measure) {
    a.ranges < b.ranges || (a.ranges == b.ranges &&
    (a.unsplit < b.unsplit || (a.unsplit == b.unsplit &&
    (a.attempts < b.attempts || (a.attempts == b.attempts &&
    (a.pending < b.pending || (a.pending == b.pending && a.activity < b.activity)))))))
  }

  lemma LiveIsKnown(q: Queue)
    requires Tracked(q)
    ensures Live(q) <= q.info.Keys
  {
    forall id | id in Live(q) ensures id in q.info {
      assert IdOk(q, id);
    }
  }

  lemma {:induction false} ServerUpdate(servers: seq<ServerState>, w: nat, server: ServerState)
    requires w < |servers|
    ensures ServerWeight(servers[w := server]) + 2 * |servers[w].late| + |servers[w].gate.active|
         == ServerWeight(servers) + 2 * |server.late| + |server.gate.active|
  {
    if w > 0 {
      ServerUpdate(servers[1..], w - 1, server);
      assert servers[w := server][1..] == servers[1..][w - 1 := server];
    }
  }

  lemma FlightUpdate(s: State, s': State, id: string)
    requires id in s.flights && s'.flights.Keys == s.flights.Keys
    requires forall k :: k in s.flights && k != id ==> s'.flights[k] == s.flights[k]
    ensures Total(s'.flights.Keys, FlightWeights(s')) + PhaseWeight(s.flights[id].phase)
         == Total(s.flights.Keys, FlightWeights(s)) + PhaseWeight(s'.flights[id].phase)
  {
    TotalRemove(s.flights.Keys, FlightWeights(s), id);
    TotalRemove(s.flights.Keys, FlightWeights(s'), id);
    TotalAgrees(s.flights.Keys - {id}, FlightWeights(s), FlightWeights(s'));
  }

  lemma ArriveDecreases(s: State, id: string)
    requires Sane(s) && id in s.flights && s.flights[id].phase == Calling
    ensures Activity(DoArrive(s, id)) < Activity(s)
  {
    var s', w := DoArrive(s, id), s.flights[id].worker;
    FlightUpdate(s, s', id);
    ServerUpdate(s.servers, w, s.servers[w].(gate := Enter(s.servers[w].gate, id)));
  }

  lemma ReplyDecreases(s: State, id: string, outcome: Outcome)
    requires Sane(s) && id in s.flights && s.flights[id].phase == Serving
    ensures Activity(DoReply(s, id, outcome)) < Activity(s)
  {
    var s', w := DoReply(s, id, outcome), s.flights[id].worker;
    FlightUpdate(s, s', id);
    ServerUpdate(s.servers, w, s.servers[w].(gate := Leave(s.servers[w].gate)));
  }

  lemma LoseDecreases(s: State, id: string)
    requires Sane(s) && id in s.flights && (s.flights[id].phase == Calling || s.flights[id].phase == Serving)
    ensures Activity(DoLose(s, id)) < Activity(s)
  {
    var s', w := DoLose(s, id), s.flights[id].worker;
    FlightUpdate(s, s', id);
    ServerUpdate(s.servers, w, s.servers[w].(late := s.servers[w].late + multiset{id}));
  }

  lemma ReleaseDecreases(s: State, id: string)
    requires Sane(s) && id in s.flights && s.flights[id].phase.Answered?
    ensures Activity(DoRelease(s, id)) < Activity(s)
  {
    FlightUpdate(s, DoRelease(s, id), id);
  }

  lemma SendDecreases(s: State, id: string)
    requires id in s.flights && s.flights[id].phase.Released?
    ensures Activity(DoSend(s, id)) < Activity(s)
  {
    var s' := DoSend(s, id);
    TotalRemove(s.flights.Keys, FlightWeights(s), id);
    assert s'.flights.Keys == s.flights.Keys - {id};
    TotalAgrees(s'.flights.Keys, FlightWeights(s), FlightWeights(s'));
  }

  lemma LateArriveDecreases(s: State, w: nat, id: string)
    requires w < |s.servers| && id in s.servers[w].late
    ensures Activity(DoLateArrive(s, w, id)) < Activity(s)
  {
    ServerUpdate(s.servers, w, DoLateArrive(s, w, id).servers[w]);
  }

  lemma VanishDecreases(s: State, w: nat, id: string)
    requires w < |s.servers| && id in s.servers[w].late
    ensures Activity(DoVanish(s, w, id)) < Activity(s)
  {
    ServerUpdate(s.servers, w, DoVanish(s, w, id).servers[w]);
  }

  lemma LateDoneDecreases(s: State, w: nat)
    requires w < |s.servers| && GateOk(s.servers[w].gate) && s.servers[w].gate.busy
    ensures Activity(DoLateDone(s, w)) < Activity(s)
  {
    ServerUpdate(s.servers, w, DoLateDone(s, w).servers[w]);
  }

  /** Steps that leave the queue alone bring the activity down. */
  lemma QuietStepDecreases(c: Config, s: State, step: Step, s': State)
    requires ServersOwned(s) && Takes(c, s, step, s') && !step.StartRange? && !step.Handle?
    requires step.TakeNext? ==> s.queue.pending == []
    ensures Activity(s') < Activity(s) && s'.queue == s.queue && s'.range == s.range
  {
    match step
    case Arrive(id) => ArriveDecreases(s, id);
    case Reply(id, outcome) => ReplyDecreases(s, id, outcome);
    case Lose(id) => LoseDecreases(s, id);
    case Release(id) => ReleaseDecreases(s, id);
    case Send(id) => SendDecreases(s, id);
    case LateArrive(w, id) => LateArriveDecreases(s, w, id);
    case Vanish(w, id) => VanishDecreases(s, w, id);
    case LateDone(w) => LateDoneDecreases(s, w);
    case Acquire =>
    case TakeNext =>
    case Finish =>
    case Receive =>
  }

  lemma SameLive(q: Queue, q': Queue)
    requires Tracked(q) && Live(q') == Live(q) && q'.info.Keys == q.info.Keys
    requires forall k :: k in q.info ==>
            q'.info[k].splitAttempted == q.info[k].splitAttempted && Left(q'.info[k]) == Left(q.info[k])
    ensures Live(q) <= q.info.Keys && UnsplitTasks(q') == UnsplitTasks(q)
    ensures Total(Live(q), AttemptsLeft(q')) == Total(Live(q), AttemptsLeft(q))
  {
    LiveIsKnown(q);
    TotalAgrees(Live(q), AttemptsLeft(q), AttemptsLeft(q'));
  }

  /** Dispatching a task keeps the live tasks and their attempts and shortens the pending list. */
  lemma DispatchDecreases(q: Queue)
    requires Tracked(q) && q.pending != []
    ensures q.pending[0] in q.info && Live(Next(q)) == Live(q) <= q.info.Keys && Next(q).info.Keys == q.info.Keys
    ensures UnsplitTasks(Next(q)) == UnsplitTasks(q)
    ensures Total(Live(q), AttemptsLeft(Next(q))) == Total(Live(q), AttemptsLeft(q))
    ensures |Next(q).pending| < |q.pending|
  {
    assert IdOk(q, q.pending[0]);
    var q' := Next(q);
    assert q.pending == [q.pending[0]] + q'.pending;
    SameLive(q, q');
  }

  /** A task that leaves the live ones takes at least one attempt with it. */
  lemma LeavingDecreases(q: Queue, q': Queue, id: string)
    requires Accounting(q) && Accounting(q') && id in q.running && Live(q') == Live(q) - {id}
    requires forall k :: k in Live(q') ==> k in q.info && k in q'.info && q'.info[k] == q.info[k]
    ensures Live(q) <= q.info.Keys && Live(q') <= q'.info.Keys
    ensures |UnsplitTasks(q')| <= |UnsplitTasks(q)|
    ensures Total(Live(q'), AttemptsLeft(q')) < Total(Live(q), AttemptsLeft(q))
  {
    LiveIsKnown(q);
    LiveIsKnown(q');
    assert IdOk(q, id);
    SmallerSet(UnsplitTasks(q'), UnsplitTasks(q));
    TotalRemove(Live(q), AttemptsLeft(q), id);
    TotalAgrees(Live(q'), AttemptsLeft(q), AttemptsLeft(q'));
  }

  lemma SameUnsplit(q: Queue, q': Queue)
    requires Live(q') == Live(q) && q'.info.Keys == q.info.Keys
    requires forall k :: k in q.info ==> q'.info[k].splitAttempted == q.info[k].splitAttempted
    ensures UnsplitTasks(q') == UnsplitTasks(q)
  {
  }

  /** A retry keeps the task live with one attempt less. */
  lemma RetryDecreases(q: Queue, q': Queue, id: string)
    requires Live(q) <= q.info.Keys && id in q.running && Live(q') == Live(q) && q'.info.Keys == q.info.Keys
    requires forall k :: k in q.info && k != id ==> q'.info[k] == q.info[k]
    requires q'.info[id].splitAttempted == q.info[id].splitAttempted
    requires Left(q'.info[id]) < Left(q.info[id])
    ensures UnsplitTasks(q') == UnsplitTasks(q)
    ensures Total(Live(q'), AttemptsLeft(q')) < Total(Live(q), AttemptsLeft(q))
  {
    SameUnsplit(q, q');
    TotalLower(Live(q), AttemptsLeft(q), AttemptsLeft(q'), id);
  }

  lemma LeaveLive(q: Queue, q': Queue, id: string)
    requires Tracked(q) && id in q.running && q'.pending == q.pending && q'.running == q.running - {id}
    requires q'.info.Keys == q.info.Keys && forall k :: k in q.info && k != id ==> q'.info[k] == q.info[k]
    ensures Live(q') == Live(q) - {id}
    ensures forall k :: k in Live(q') ==> k in q.info && k in q'.info && q'.info[k] == q.info[k]
  {
    assert IdOk(q, id);
    LiveIsKnown(q);
  }

  lemma StayLive(q: Queue, q': Queue, id: string)
    requires id in q.running && q'.pending == q.pending + [id] && q'.running == q.running - {id}
    ensures Live(q') == Live(q)
  {
  }

  lemma RequeueDecreases(q: Queue, id: string, error: string)
    requires Accounting(q) && q.running <= q.info.Keys && Live(q) <= q.info.Keys && Retries(q, id)
    ensures var q' := Fail(q, id, error);
            && Live(q') == Live(q) && q'.info.Keys == q.info.Keys && UnsplitTasks(q') == UnsplitTasks(q)
            && Total(Live(q), AttemptsLeft(q')) < Total(Live(q), AttemptsLeft(q))
  {
    var q' := Fail(q, id, error);
    StayLive(q, q', id);
    RetryDecreases(q, q', id);
  }

  lemma AbandonDecreases(q: Queue, id: string, error: string)
    requires Accounting(q) && q.running <= q.info.Keys && id in q.running && !Retries(q, id)
    requires Accounting(Fail(q, id, error))
    ensures var q' := Fail(q, id, error);
            && Live(q) <= q.info.Keys && Live(q') <= q'.info.Keys && |UnsplitTasks(q')| <= |UnsplitTasks(q)|
            && Total(Live(q'), AttemptsLeft(q')) < Total(Live(q), AttemptsLeft(q))
  {
    var q' := Fail(q, id, error);
    LeaveLive(q, q', id);
    LeavingDecreases(q, q', id);
  }

  /** The part of the measure that a handled result brings down. */
  ghost predicate QueueBelow(q': Queue, q: Queue) {
    && Live(q) <= q.info.Keys && Live(q') <= q'.info.Keys
    && (|UnsplitTasks(q')| < |UnsplitTasks(q)|
        || (|UnsplitTasks(q')| <= |UnsplitTasks(q)|
            && Total(Live(q'), AttemptsLeft(q')) < Total(Live(q), AttemptsLeft(q))))
  }

  lemma FailDecreases(q: Queue, id: string, error: string)
    requires Accounting(q) && id in q.running
    ensures q.running <= q.info.Keys && QueueBelow(Fail(q, id, error), q)
  {
    RunningIsKnown(q);
    LiveIsKnown(q);
    FailKeepsAccounting(q, id, error);
    if Retries(q, id) {
      RequeueDecreases(q, id, error);
    } else {
      AbandonDecreases(q, id, error);
    }
  }

  lemma CompleteDecreases(q: Queue, id: string, bytes: int)
    requires Accounting(q) && id in q.running
    ensures q.running <= q.info.Keys && QueueBelow(Complete(q, id, bytes), q)
  {
    RunningIsKnown(q);
    var q' := Complete(q, id, bytes);
    CompleteKeepsAccounting(q, id, bytes);
    assert IdOk(q, id) && IdOk(q', id);
    LeaveLive(q, q', id);
    LeavingDecreases(q, q', id);
  }

  /** However many sub-tasks come in, one task that could be split is gone and none is added. */
  lemma ReplaceDecreases(q: Queue, id: string, ids: seq<string>, batch: map<string, Task>)
    requires Accounting(q) && id in q.running && id in q.info && !q.info[id].splitAttempted && IsBatch(q, ids, batch)
    requires forall k :: k in batch ==> batch[k].splitAttempted
    ensures |UnsplitTasks(Replace(q, id, ids, batch))| < |UnsplitTasks(q)|
  {
    var q' := Replace(q, id, ids, batch);
    assert IdOk(q, id);
    forall k | k in UnsplitTasks(q') ensures k in UnsplitTasks(q) && k != id {
      assert k in q'.pending <==> k in q.pending || k in ids;
      assert IdOk(q, k);
    }
    assert id in UnsplitTasks(q);
    SmallerSet(UnsplitTasks(q'), UnsplitTasks(q));
  }

  lemma ResplitDecreases(s: State, id: string, ts: seq<Task>)
    requires Accounting(s.queue) && AllNumbered(s)
    requires id in s.queue.running && id in s.queue.info && !s.queue.info[id].splitAttempted
    requires forall i :: 0 <= i < |ts| ==> ts[i].splitAttempted && ts[i].status == Pending && ts[i].attempts == 0
    ensures var q' := Replace(s.queue, id, NewIds(s.counter, |ts|), Batch(s.counter, ts));
            |UnsplitTasks(q')| < |UnsplitTasks(s.queue)|
  {
    var ids, batch := NewIds(s.counter, |ts|), Batch(s.counter, ts);
    BatchIsNew(s, ts, ids, batch);
    BatchHas(s.counter, ts);
    forall k | k in batch ensures batch[k].splitAttempted {
      assert k in ids;
      var i :| 0 <= i < |ids| && ids[i] == k;
      assert batch[ids[i]] == ts[i];
    }
    ReplaceDecreases(s.queue, id, ids, batch);
  }

  lemma OutcomeDecreases(c: Config, s: State)
    requires Accounting(s.queue) && Sane(s) && s.pc.Handling? && s.pc.message.id in s.queue.running
    ensures QueueBelow(DoHandle(c, s, None).queue, s.queue)
  {
    var m := s.pc.message;
    match m.outcome
    case RpcError(message) => FailDecreases(s.queue, m.id, message);
    case Exited(code, bytes, cardinality, errorText) =>
      if code == 0 {
        CompleteDecreases(s.queue, m.id, bytes);
      } else {
        FailDecreases(s.queue, m.id, FailureReason(code, errorText));
      }
  }

  lemma SplitDecreases(c: Config, s: State, sels: seq<SelectorInfo>)
    requires Accounting(s.queue) && AllNumbered(s) && Sane(s) && s.pc.Handling? && MayResplit(s.queue, s.pc.message)
    requires s.pc.message.id in s.queue.running && Tracked(DoHandle(c, s, Some(sels)).queue)
    ensures QueueBelow(DoHandle(c, s, Some(sels)).queue, s.queue)
  {
    LiveIsKnown(s.queue);
    LiveIsKnown(DoHandle(c, s, Some(sels)).queue);
    ResplitDecreases(s, s.pc.message.id, SubTasks(c, s.queue.info[s.pc.message.id], sels));
  }

  lemma HandleDecreases(c: Config, s: State, resplit: Option<seq<SelectorInfo>>)
    requires Inv(c, s) && Sane(s) && s.pc.Handling? && (resplit.Some? ==> MayResplit(s.queue, s.pc.message))
    requires Inv(c, DoHandle(c, s, resplit))
    ensures Below(MeasureOf(c, DoHandle(c, s, resplit)), MeasureOf(c, s))
  {
    HandledTaskIsRunning(c, s);
    if resplit.Some? {
      SplitDecreases(c, s, resplit.value);
    } else {
      OutcomeDecreases(c, s);
    }
  }

  lemma StartRangeDecreases(c: Config, s: State, metrics: seq<string>)
    requires Inv(c, s) && s.range < |c.ranges| && Inv(c, DoStartRange(c, s, metrics))
    ensures Below(MeasureOf(c, DoStartRange(c, s, metrics)), MeasureOf(c, s))
  {
  }

  lemma TakeNextDecreases(c: Config, s: State)
    requires Inv(c, s) && Sane(s) && s.pc.Holding? && s.pc.worker < |s.busy| && s.queue.pending != []
    requires Inv(c, DoTakeNext(s))
    ensures Below(MeasureOf(c, DoTakeNext(s)), MeasureOf(c, s))
  {
    DispatchDecreases(s.queue);
  }

  /** Every step decreases the measure, whatever the workers answer. */
  lemma StepDecreases(c: Config, s: State, step: Step, s': State)
    requires Inv(c, s) && Inv(c, s') && Takes(c, s, step, s')
    ensures Below(MeasureOf(c, s'), MeasureOf(c, s))
  {
    if step.StartRange? {
      StartRangeDecreases(c, s, step.metrics);
    } else if step.Handle? {
      HandleDecreases(c, s, step.resplit);
    } else if step.TakeNext? && s.queue.pending != [] {
      TakeNextDecreases(c, s);
    } else {
      QuietStepDecreases(c, s, step, s');
    }
  }

  /** No run goes on forever: from any reachable point, some later state has no step to the next. */
  lemma {:induction false} EveryRunEnds(c: Config, run: nat -> State, i: nat)
    requires c.workers >= 1 && Inv(c, run(i))
    ensures exists j: nat :: i <= j && !Moves(c, run(j), run(j + 1))
    decreases MeasureOf(c, run(i)).ranges, MeasureOf(c, run(i)).unsplit, MeasureOf(c, run(i)).attempts,
              MeasureOf(c, run(i)).pending, MeasureOf(c, run(i)).activity
  {
    if Moves(c, run(i), run(i + 1)) {
      var step :| Takes(c, run(i), step, run(i + 1));
      StepKeepsInv(c, run(i), step, run(i + 1));
      StepDecreases(c, run(i), step, run(i + 1));
      EveryRunEnds(c, run, i + 1);
    }
  }
}
