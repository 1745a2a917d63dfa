/** When a worker can turn a dispatch away, and when a process outlives its caller. */
module Rejections {
  import opened Workers
  import opened Protocol
  import opened Ownership

  /** A run in which every call returns the server's own reply. */
  ghost predicate IsFaithfulRun(c: Config, run: seq<State>) {
    && run != [] && Init(c, run[0])
    && forall i :: 0 <= i < |run| - 1 ==> FaithfulAt(c, run, i)
  }

  ghost predicate FaithfulAt(c: Config, run: seq<State>, i: nat)
    requires i + 1 < |run|
  {
    exists step :: Takes(c, run[i], step, run[i + 1]) && !step.Lose?
  }

  /** No request is under way without its caller, and each process serves a goroutine that waits for it. */
  predicate AttendedAt(s: State, w: nat)
    requires w < |s.servers|
  {
    && s.servers[w].late == multiset{}
    && forall id :: id in s.servers[w].gate.active ==> id in s.flights && s.flights[id] == Flight(w, Serving)
  }

  ghost predicate Attended(s: State) {
    forall w :: 0 <= w < |s.servers| ==> AttendedAt(s, w)
  }

  /** A goroutine whose worker does not serve it may move, and new ones may start. */
  lemma PhaseKeepsAttended(s: State, s': State, id: string)
    requires Attended(s) && s'.servers == s.servers
    requires id in s.flights ==> s.flights[id].phase != Serving
    requires forall k :: k in s.flights && k != id ==> k in s'.flights && s'.flights[k] == s.flights[k]
    ensures Attended(s')
  {
    forall w | 0 <= w < |s'.servers| ensures AttendedAt(s', w) {
      assert AttendedAt(s, w);
    }
  }

  lemma ArriveAttended(s: State, id: string)
    requires Sane(s) && ServersOwned(s) && Attended(s) && id in s.flights && s.flights[id].phase == Calling
    ensures Attended(DoArrive(s, id))
  {
    var s', v := DoArrive(s, id), s.flights[id].worker;
    if s.servers[v].gate.busy {
      PhaseKeepsAttended(s, s', id);
    } else {
      forall w | 0 <= w < |s'.servers| ensures AttendedAt(s', w) {
        assert AttendedAt(s, w) && GateOk(s.servers[w].gate);
      }
    }
  }

  lemma ReplyAttended(s: State, id: string, outcome: Outcome)
    requires Sane(s) && ServersOwned(s) && Attended(s) && id in s.flights && s.flights[id].phase == Serving
    ensures Attended(DoReply(s, id, outcome))
  {
    var s', v := DoReply(s, id, outcome), s.flights[id].worker;
    assert s.servers[v].gate.active == [id];
    forall w | 0 <= w < |s'.servers| ensures AttendedAt(s', w) {
      assert AttendedAt(s, w);
    }
  }

  /** The coordinator's steps other than a dispatch do not touch goroutines or servers. */
  lemma QuietSteps(c: Config, s: State, step: Step, s': State)
    requires Takes(c, s, step, s')
    requires step.StartRange? || step.Acquire? || step.Finish? || step.Receive? || step.Handle?
             || (step.TakeNext? && s.queue.pending == [])
    ensures s'.flights == s.flights && s'.servers == s.servers
  {
  }

  lemma NotLate(c: Config, s: State, w: nat, id: string)
    requires Sane(s) && ServersOwned(s) && Attended(s)
    ensures !Enabled(c, s, LateArrive(w, id)) && !Enabled(c, s, Vanish(w, id)) && !Enabled(c, s, LateDone(w))
  {
    if w < |s.servers| {
      assert AttendedAt(s, w) && GateOk(s.servers[w].gate);
      if s.servers[w].gate.busy {
        assert s.servers[w].gate.active[0] in s.servers[w].gate.active;
      }
    }
  }

  lemma StepAttended(c: Config, s: State, step: Step, s': State)
    requires ServersOwned(s) && (s.queue.pending != [] ==> s.queue.pending[0] !in s.flights)
    requires Attended(s) && Takes(c, s, step, s') && !step.Lose?
    ensures Attended(s')
  {
    if step.Arrive? {
      ArriveAttended(s, step.id);
    } else if step.Reply? {
      ReplyAttended(s, step.id, step.outcome);
    } else if step.Release? || step.Send? {
      PhaseKeepsAttended(s, s', step.id);
    } else if step.TakeNext? && s.queue.pending != [] {
      PhaseKeepsAttended(s, s', s.queue.pending[0]);
    } else if step.LateArrive? || step.Vanish? {
      NotLate(c, s, step.worker, step.id);
    } else if step.LateDone? {
      NotLate(c, s, step.worker, "");
    } else {
      QuietSteps(c, s, step, s');
      forall w | 0 <= w < |s'.servers| ensures AttendedAt(s', w) {
        assert AttendedAt(s, w);
      }
    }
  }

  lemma FaithfulLastStep(c: Config, run: seq<State>) returns (before: seq<State>, step: Step)
    requires IsFaithfulRun(c, run) && |run| > 1
    ensures before == run[..|run| - 1] && IsFaithfulRun(c, before)
    ensures Takes(c, before[|before| - 1], step, run[|run| - 1]) && !step.Lose?
  {
    before := run[..|run| - 1];
    forall i | 0 <= i < |before| - 1 ensures FaithfulAt(c, before, i) {
      assert FaithfulAt(c, run, i);
    }
    assert FaithfulAt(c, run, |run| - 2);
    step :| Takes(c, run[|run| - 2], step, run[|run| - 1]) && !step.Lose?;
  }

  lemma {:induction false} FaithfulRun(c: Config, run: seq<State>)
    requires IsFaithfulRun(c, run) && c.workers >= 1
    ensures Inv(c, run[|run| - 1]) && Attended(run[|run| - 1])
  {
    if |run| == 1 {
      InitInv(c, run[0]);
    } else {
      var before, step := FaithfulLastStep(c, run);
      FaithfulRun(c, before);
      FaithfulStep(c, before[|before| - 1], step, run[|run| - 1]);
    }
  }

  lemma FaithfulStep(c: Config, s: State, step: Step, s': State)
    requires Inv(c, s) && Attended(s) && c.workers >= 1 && Takes(c, s, step, s') && !step.Lose?
    ensures Inv(c, s') && Attended(s')
  {
    StepKeepsInv(c, s, step, s');
    PendingIsNotFlying(c, s);
    StepAttended(c, s, step, s');
  }

  /** Without lost calls a worker the coordinator holds idle is idle, and no dispatch is rejected as busy. */
  lemma NoRejection(c: Config, run: seq<State>)
    requires IsFaithfulRun(c, run) && c.workers >= 1
    ensures var s := run[|run| - 1];
            && |s.servers| == |s.busy|
            && (forall w :: 0 <= w < |s.busy| && !s.busy[w] ==> s.servers[w].gate == IDLE)
            && forall id :: id in s.flights && s.flights[id].phase == Calling ==>
                 s.flights[id].worker < |s.servers| && !s.servers[s.flights[id].worker].gate.busy
  {
    var s := run[|run| - 1];
    FaithfulRun(c, run);
    forall w | 0 <= w < |s.busy| && s.servers[w].gate.busy
      ensures s.busy[w] && forall id :: id in s.flights && s.flights[id].worker == w ==> s.flights[id].phase != Calling
    {
      BusyForItsCaller(s, w);
    }
    forall w | 0 <= w < |s.busy| && !s.busy[w] ensures s.servers[w].gate == IDLE {
      assert GateOk(s.servers[w].gate);
    }
  }

  lemma BusyForItsCaller(s: State, w: nat)
    requires Attended(s) && ServersOwned(s) && WorkersOwned(s) && w < |s.servers| == |s.busy| && s.servers[w].gate.busy
    ensures s.busy[w]
    ensures forall id :: id in s.flights && s.flights[id].worker == w ==> s.flights[id].phase != Calling
  {
    assert GateOk(s.servers[w].gate) && AttendedAt(s, w);
    var k := s.servers[w].gate.active[0];
    assert k in s.servers[w].gate.active;
    assert Uses(s, k, w);
    forall id | id in s.flights && s.flights[id].worker == w ensures s.flights[id].phase != Calling {
      assert s.flights[id].phase == Calling ==> Uses(s, id, w);
    }
  }

  // ---------- lost calls ----------

  /** A lost call leaves its request under way or its process without a caller. */
  lemma LoseBreaksAttendance(c: Config, s: State, id: string)
    requires ServersOwned(s) && Sane(s) && Enabled(c, s, Lose(id))
    ensures !Attended(DoLose(s, id))
  {
    var s', w := DoLose(s, id), s.flights[id].worker;
    if s.flights[id].phase == Calling {
      assert id in s'.servers[w].late;
    } else {
      assert s'.servers[w].gate.active == [id];
      assert id in s'.servers[w].gate.active;
    }
    assert !AttendedAt(s', w);
  }

  lemma RunPrefix(c: Config, run: seq<State>, i: nat)
    requires IsRun(c, run) && i < |run|
    ensures IsRun(c, run[..i + 1])
  {
    var prefix := run[..i + 1];
    forall j | 0 <= j < |prefix| - 1 ensures MovesAt(c, prefix, j) {
      assert MovesAt(c, run, j);
    }
  }

  lemma FaithfulPrefix(c: Config, run: seq<State>, i: nat)
    requires IsFaithfulRun(c, run) && i < |run|
    ensures IsFaithfulRun(c, run[..i + 1])
  {
    var prefix := run[..i + 1];
    forall j | 0 <= j < |prefix| - 1 ensures FaithfulAt(c, prefix, j) {
      assert FaithfulAt(c, run, j);
    }
  }

  lemma FaithfulIsAttended(c: Config, run: seq<State>)
    requires IsFaithfulRun(c, run) && c.workers >= 1
    ensures forall i :: 0 <= i < |run| ==> Attended(run[i])
  {
    forall i | 0 <= i < |run| ensures Attended(run[i]) {
      FaithfulPrefix(c, run, i);
      FaithfulRun(c, run[..i + 1]);
    }
  }

  lemma AttendedIsFaithful(c: Config, run: seq<State>)
    requires IsRun(c, run) && c.workers >= 1 && forall i :: 0 <= i < |run| ==> Attended(run[i])
    ensures IsFaithfulRun(c, run)
  {
    forall i | 0 <= i < |run| - 1 ensures FaithfulAt(c, run, i) {
      RunPrefix(c, run, i);
      RunKeepsInv(c, run[..i + 1]);
      AttendedMoveIsFaithful(c, run, i);
    }
  }

  /** No request and no process ever outlives its caller exactly when the run has no lost call. */
  lemma FaithfulIffAttended(c: Config, run: seq<State>)
    requires IsRun(c, run) && c.workers >= 1
    ensures IsFaithfulRun(c, run) <==> forall i :: 0 <= i < |run| ==> Attended(run[i])
  {
    if IsFaithfulRun(c, run) {
      FaithfulIsAttended(c, run);
    }
    if forall i :: 0 <= i < |run| ==> Attended(run[i]) {
      AttendedIsFaithful(c, run);
    }
  }

  lemma AttendedMoveIsFaithful(c: Config, run: seq<State>, i: nat)
    requires i + 1 < |run| && MovesAt(c, run, i) && ServersOwned(run[i]) && Attended(run[i + 1])
    ensures FaithfulAt(c, run, i)
  {
    var step :| Takes(c, run[i], step, run[i + 1]);
    if step.Lose? {
      LoseBreaksAttendance(c, run[i], step.id);
    }
  }

  /** Whatever happens, a server never runs two processes. */
  lemma OneProcessPerServer(c: Config, run: seq<State>, w: nat)
    requires IsRun(c, run) && c.workers >= 1 && w < |run[|run| - 1].servers|
    ensures |run[|run| - 1].servers[w].gate.active| <= 1
  {
    RunKeepsInv(c, run);
  }
}
