/** The whole migration: every wanted sample is in exactly one finished task. */
module Migration {
  import opened Filters
  import opened Collections
  import opened Discovery
  import opened TimeRanges
  import opened Tasks
  import opened Protocol
  import opened Ownership
  import opened Liveness
  import opened Coverage
  import opened Scope

  /** The selectors that the code prints for this configuration say what is meant. */
  ghost predicate Expressible(c: Config) {
    Usable(c) && CanSplit(c) && PlainFilter(c.filter)
  }

  ghost predicate WellConfigured(c: Config, start: int, end: int) {
    c.workers >= 1 && c.capacity >= 1 && Expressible(c) && CoversOnce(c.ranges, start, end)
  }

  /**
   * The ranges take up every wanted sample, and nothing else as long as the dropped matchers do not tell
   * candidates of one metric apart.
   */
  lemma ScopeIsWanted(c: Config, start: int, end: int, p: Sample)
    requires WellConfigured(c, start, end)
    ensures Wanted(c, start, end, p) ==> InScope(c, |c.ranges|, p)
    ensures NameDecides(c) && InScope(c, |c.ranges|, p) ==> Wanted(c, start, end, p)
  {
    assert IsCovered(p.at, c.ranges) <==> start <= p.at < end;
    if Wanted(c, start, end, p) {
      var i :| 0 <= i < |c.ranges| && Within(p.at, c.ranges[i]);
      assert Wanted(c, c.ranges[i].start, c.ranges[i].end, p);
      WantedIsInRange(c, c.ranges[i], p);
    }
    if NameDecides(c) && InScope(c, |c.ranges|, p) {
      var j :| 0 <= j < |c.ranges| && InRange(c, c.ranges[j], p);
      assert Within(p.at, c.ranges[j]);
      NameDecidesSuffices(c, c.ranges[j]);
    }
  }

  /** The samples of the finished tasks. */
  function Finished(q: Queue): set<string> {
    Elements(q.done) + Elements(q.failed)
  }

  /** In every reachable state each sample taken up so far is accounted for by exactly one task. */
  lemma NothingLostOrDoubled(c: Config, run: seq<State>, p: Sample)
    requires IsRun(c, run) && c.workers >= 1 && Usable(c) && CanSplit(c)
    ensures var s := run[|run| - 1]; |Coverers(c, s.queue, p)| == if InScope(c, s.range, p) then 1 else 0
  {
    RunCovers(c, run);
  }

  /**
   * When the migration has ended, every wanted sample is in exactly one succeeded or abandoned task,
   * and no other sample is in any; if no task was abandoned, that task succeeded. How often a task is sent is
   * another matter (`Starts`, `Deliveries`).
   */
  lemma FinishedExactlyOnce(c: Config, run: seq<State>, start: int, end: int, p: Sample)
    requires WellConfigured(c, start, end) && NameDecides(c)
    requires IsRun(c, run) && Ended(c, run[|run| - 1])
    ensures var q := run[|run| - 1].queue;
            && Coverers(c, q, p) <= Finished(q)
            && |Coverers(c, q, p)| == (if Wanted(c, start, end, p) then 1 else 0)
            && (q.failed == [] ==> Coverers(c, q, p) <= Elements(q.done))
  {
    var s := run[|run| - 1];
    RunKeepsInv(c, run);
    RunCovers(c, run);
    ScopeIsWanted(c, start, end, p);
    assert Live(s.queue) == {};
    RangesAllStarted(c, run);
  }

  /** Even when a name matcher looks at more than the name, no wanted sample is lost. */
  lemma NothingWantedIsLost(c: Config, run: seq<State>, start: int, end: int, p: Sample)
    requires WellConfigured(c, start, end) && Wanted(c, start, end, p)
    requires IsRun(c, run) && Ended(c, run[|run| - 1])
    ensures var q := run[|run| - 1].queue; |Coverers(c, q, p)| == 1 && Coverers(c, q, p) <= Finished(q)
  {
    var s := run[|run| - 1];
    RunKeepsInv(c, run);
    RunCovers(c, run);
    ScopeIsWanted(c, start, end, p);
    assert Live(s.queue) == {};
    RangesAllStarted(c, run);
  }

  lemma {:induction false} RangesAllStarted(c: Config, run: seq<State>)
    requires IsRun(c, run)
    ensures run[|run| - 1].range <= |c.ranges|
  {
    if |run| > 1 {
      var before, step := LastStep(c, run);
      RangesAllStarted(c, before);
      StepKeepsRange(c, run[|run| - 2], step, run[|run| - 1]);
    }
  }

  lemma StepKeepsRange(c: Config, s: State, step: Step, s': State)
    requires Takes(c, s, step, s') && s.range <= |c.ranges|
    ensures s'.range <= |c.ranges|
  {
  }

  /** A run that cannot go on has ended, and then nothing is left behind. */
  lemma MaximalRunHasEnded(c: Config, run: seq<State>)
    requires c.workers >= 1 && c.capacity >= 1 && IsRun(c, run)
    requires !CanMove(c, run[|run| - 1])
    ensures var s := run[|run| - 1];
            && Ended(c, s) && IsComplete(s.queue) && s.flights == map[] && s.channel == [] && s.inflight == {}
            && forall w :: 0 <= w < |s.busy| ==> !s.busy[w]
  {
    var s := run[|run| - 1];
    RunKeepsInv(c, run);
    if !Ended(c, s) {
      DeadlockFree(c, s);
    }
    NothingOutstanding(c, s);
  }

  // ---------- as statements about the queue that is left ----------

  ghost predicate NothingLost(c: Config, q: Queue, start: int, end: int) {
    forall p :: Wanted(c, start, end, p) ==> |Coverers(c, q, p)| == 1 && Coverers(c, q, p) <= Finished(q)
  }

  ghost predicate ExactlyOnce(c: Config, q: Queue, start: int, end: int) {
    forall p ::
      && |Coverers(c, q, p)| == (if Wanted(c, start, end, p) then 1 else 0)
      && Coverers(c, q, p) <= Finished(q)
      && (q.failed == [] ==> Coverers(c, q, p) <= Elements(q.done))
  }

  lemma EndedMigration(c: Config, s: State, start: int, end: int)
    requires WellConfigured(c, start, end) && Reachable(c, s) && Ended(c, s)
    ensures NothingLost(c, s.queue, start, end)
    ensures NameDecides(c) ==> ExactlyOnce(c, s.queue, start, end)
  {
    var run :| IsRun(c, run) && run[|run| - 1] == s;
    forall p | Wanted(c, start, end, p)
      ensures |Coverers(c, s.queue, p)| == 1 && Coverers(c, s.queue, p) <= Finished(s.queue)
    {
      NothingWantedIsLost(c, run, start, end, p);
    }
    if NameDecides(c) {
      forall p
        ensures |Coverers(c, s.queue, p)| == (if Wanted(c, start, end, p) then 1 else 0)
        ensures Coverers(c, s.queue, p) <= Finished(s.queue)
        ensures s.queue.failed == [] ==> Coverers(c, s.queue, p) <= Elements(s.queue.done)
      {
        FinishedExactlyOnce(c, run, start, end, p);
      }
    }
  }
}
