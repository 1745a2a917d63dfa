/** Runs from one state to another, and what they bring down. */
module Runs {
  import opened Tasks
  import opened Protocol
  import opened Ownership
  import opened Liveness

  ghost predicate Leads(c: Config, path: seq<State>, s: State, s': State) {
    Chain(c, path) && path[0] == s && path[|path| - 1] == s'
  }

  /** Some run of steps leads from s to s'. */
  ghost predicate Follows(c: Config, s: State, s': State) {
    exists path :: Leads(c, path, s, s')
  }

  lemma ChainJoin(c: Config, a: seq<State>, b: seq<State>)
    requires Chain(c, a) && Chain(c, b) && a[|a| - 1] == b[0]
    ensures Chain(c, a + b[1..])
  {
    var j := a + b[1..];
    forall i | 0 <= i < |j| - 1 ensures MovesAt(c, j, i) {
      if i < |a| - 1 {
        assert MovesAt(c, a, i);
      } else {
        assert MovesAt(c, b, i - |a| + 1);
      }
    }
  }

  lemma FollowsSelf(c: Config, s: State)
    ensures Follows(c, s, s)
  {
    assert Leads(c, [s], s, s);
  }

  lemma FollowsOn(c: Config, s: State, mid: State, s': State)
    requires Follows(c, s, mid) && Follows(c, mid, s')
    ensures Follows(c, s, s')
  {
    var a :| Leads(c, a, s, mid);
    var b :| Leads(c, b, mid, s');
    ChainJoin(c, a, b);
    assert Leads(c, a + b[1..], s, s');
  }

  lemma FollowsStep(c: Config, s: State, mid: State, s': State)
    requires Follows(c, s, mid) && Moves(c, mid, s')
    ensures Follows(c, s, s')
  {
    var path := [mid, s'];
    assert MovesAt(c, path, 0);
    assert Leads(c, path, mid, s');
    FollowsOn(c, s, mid, s');
  }

  lemma ReachableOn(c: Config, s: State, s': State)
    requires Reachable(c, s) && Follows(c, s, s')
    ensures Reachable(c, s')
  {
    var run :| IsRun(c, run) && run[|run| - 1] == s;
    var path :| Leads(c, path, s, s');
    ChainJoin(c, run, path);
    assert IsRun(c, run + path[1..]);
  }

  lemma Continue(c: Config, s: State, mid: State, s': State)
    requires Follows(c, s, mid) && Reachable(c, mid) && Moves(c, mid, s')
    ensures Follows(c, s, s') && Reachable(c, s')
  {
    FollowsStep(c, s, mid, s');
    FollowsSelf(c, mid);
    FollowsStep(c, mid, mid, s');
    ReachableOn(c, mid, s');
  }

  /** The tasks in the queue's lists are known. */
  ghost predicate ListsKnown(s: State) {
    && Sane(s) && forall i :: 0 <= i < |s.queue.pending| ==> s.queue.pending[i] in s.queue.info
  }

  lemma ReachableInv(c: Config, s: State)
    requires Reachable(c, s) && c.workers >= 1
    ensures Inv(c, s)
  {
    var run :| IsRun(c, run) && run[|run| - 1] == s;
    RunKeepsInv(c, run);
  }

  lemma ReachableIsKnown(c: Config, s: State)
    requires Reachable(c, s) && c.workers >= 1
    ensures ListsKnown(s) && AllNumbered(s) && |s.busy| == c.workers
    ensures s.pc.Holding? ==> s.pc.worker < |s.busy|
    ensures s.pc.Handling? ==> s.pc.message.id in s.queue.running
  {
    ReachableInv(c, s);
    InvIsSane(c, s);
    forall i | 0 <= i < |s.queue.pending| ensures s.queue.pending[i] in s.queue.info {
      assert IdOk(s.queue, s.queue.pending[i]);
    }
    if s.pc.Handling? {
      HandledTaskIsRunning(c, s);
    }
  }

  // ---------- the measure of a reachable state ----------

  ghost function Rank(c: Config, s: State): Measure {
    if Reachable(c, s) && c.workers >= 1 then ReachableInv(c, s); MeasureOf(c, s) else Measure(0, 0, 0, 0, 0)
  }

  lemma StepLowersRank(c: Config, s: State, s': State)
    requires Reachable(c, s) && Moves(c, s, s') && c.workers >= 1
    ensures Reachable(c, s') && Below(Rank(c, s'), Rank(c, s))
  {
    FollowsSelf(c, s);
    FollowsStep(c, s, s, s');
    ReachableOn(c, s, s');
    ReachableInv(c, s);
    ReachableInv(c, s');
    var step :| Takes(c, s, step, s');
    StepDecreases(c, s, step, s');
  }

  /** A run never raises the measure. */
  lemma FollowsRank(c: Config, s: State, s': State)
    requires Reachable(c, s) && Follows(c, s, s') && c.workers >= 1
    ensures s == s' || Below(Rank(c, s'), Rank(c, s))
  {
    var path :| Leads(c, path, s, s');
    PathRank(c, path, s, s');
  }

  lemma PathTail(c: Config, path: seq<State>, s: State, s': State)
    requires Leads(c, path, s, s') && |path| > 1
    ensures Moves(c, s, path[1]) && Leads(c, path[1..], path[1], s')
  {
    var rest := path[1..];
    assert MovesAt(c, path, 0);
    forall i | 0 <= i < |rest| - 1 ensures MovesAt(c, rest, i) {
      assert MovesAt(c, path, i + 1);
    }
  }

  lemma {:induction false} PathRank(c: Config, path: seq<State>, s: State, s': State)
    requires Reachable(c, s) && Leads(c, path, s, s') && c.workers >= 1
    ensures s == s' || Below(Rank(c, s'), Rank(c, s))
    decreases |path|
  {
    if |path| > 1 {
      PathTail(c, path, s, s');
      StepLowersRank(c, s, path[1]);
      PathRank(c, path[1..], path[1], s');
    }
  }
}
