/** Tiling a time interval: internal/scheduler/timerange.go. */
module TimeRanges {
  import opened Arithmetic
  import opened Calendar

  /** [start, end) */
  datatype TimeRange = TimeRange(start: int, end: int)

  function AdvanceByStep(t: int, step: string): int {
    if step == "hour" then t + HOUR
    else if step == "day" then AddDate(t, 0, 1)
    else if step == "month" then AddDate(t, 1, 0)
    else AddDate(t, 0, 1)
  }

  /** An hour, a day, or the month one starts in; any other word means a day. */
  lemma StepMeans(t: int, step: string)
    ensures step == "hour" ==> AdvanceByStep(t, step) == t + 3600
    ensures step == "month" ==>
              var c := CivilOf(t / 86400); AdvanceByStep(t, step) == t + DaysIn(c.month, c.year) * 86400
    ensures step != "hour" && step != "month" ==> AdvanceByStep(t, step) == t + 86400
  {
    AddDays(t, 1);
    AddMonth(t);
  }

  /** A month leads to the same day of the next month, at the same time, where that month has the day. */
  lemma MonthKeepsDay(t: int)
    ensures AdvanceByStep(t, "month") % 86400 == t % 86400
    ensures CivilOf(AdvanceByStep(t, "month") / 86400) == OneMonthOn(CivilOf(t / 86400))
  {
    AddMonthKeepsDay(t);
  }

  /** The shortest and the longest a step can be. */
  function ShortestStep(step: string): int {
    if step == "hour" then HOUR else if step == "month" then 28 * DAY else DAY
  }

  function LongestStep(step: string): int {
    if step == "hour" then HOUR else if step == "month" then 31 * DAY else DAY
  }

  lemma StepLength(t: int, step: string)
    ensures ShortestStep(step) <= AdvanceByStep(t, step) - t <= LongestStep(step)
  {
    AddDays(t, 1);
    AddMonth(t);
  }

  /** How far one step leads from an instant. */
  type Stepper = int -> int

  function StepperOf(step: string): Stepper {
    t => AdvanceByStep(t, step)
  }

  ghost predicate Progresses(advance: Stepper, shortest: int, longest: int) {
    0 < shortest && forall t :: shortest <= advance(t) - t <= longest
  }

  lemma StepperProgresses(step: string)
    ensures Progresses(StepperOf(step), ShortestStep(step), LongestStep(step))
  {
    forall t ensures ShortestStep(step) <= StepperOf(step)(t) - t <= LongestStep(step) {
      StepLength(t, step);
    }
  }

  /** A non-empty range no longer than one step. */
  ghost predicate IsStep(r: TimeRange, advance: Stepper) {
    r.start < r.end <= advance(r.start)
  }

  /** Contiguous non-empty ranges from start to end, each one step long except perhaps the last. */
  ghost predicate IsTiling(ranges: seq<TimeRange>, start: int, end: int, advance: Stepper)
    decreases |ranges|
  {
    if ranges == [] then start >= end
    else
      && ranges[0].start == start && IsStep(ranges[0], advance) && ranges[0].end <= end
      && (|ranges| > 1 ==> ranges[0].end == advance(start))
      && (|ranges| > 1 <==> ranges[0].end < end)
      && IsTiling(ranges[1..], ranges[0].end, end, advance)
  }

  /** Appending one range to a tiling that stops before the end. */
  lemma {:induction false} TilingAppend(ranges: seq<TimeRange>, r: TimeRange, start: int, advance: Stepper)
    requires IsTiling(ranges, start, r.start, advance) && start <= r.start && IsStep(r, advance)
    requires ranges != [] ==> r.start == advance(ranges[|ranges| - 1].start)
    ensures IsTiling(ranges + [r], start, r.end, advance)
  {
    var all := ranges + [r];
    if ranges == [] {
      assert all[1..] == [];
    } else {
      assert all[1..] == ranges[1..] + [r];
      TilingAppend(ranges[1..], r, ranges[0].end, advance);
    }
  }

  /** The tiling, written down as a recursion. */
  function Tiling(start: int, end: int, step: string): seq<TimeRange>
    decreases if start < end then end - start else 0
  {
    if start >= end then []
    else
      StepLength(start, step);
      var next := if AdvanceByStep(start, step) > end then end else AdvanceByStep(start, step);
      [TimeRange(start, next)] + Tiling(next, end, step)
  }

  /** The first range of a tiling is the one the recursion makes, and the rest tiles what is left. */
  lemma TilingStarts(ranges: seq<TimeRange>, start: int, end: int, step: string)
    requires ranges != [] && IsTiling(ranges, start, end, StepperOf(step))
    ensures start < end && IsTiling(ranges[1..], ranges[0].end, end, StepperOf(step))
    ensures Tiling(start, end, step) == [ranges[0]] + Tiling(ranges[0].end, end, step)
  {
    StepLength(start, step);
    assert ranges[0] == TimeRange(start, ranges[0].end);
  }

  /** An interval has one tiling only. */
  lemma {:induction false} TilingIsUnique(ranges: seq<TimeRange>, start: int, end: int, step: string)
    requires IsTiling(ranges, start, end, StepperOf(step))
    ensures ranges == Tiling(start, end, step)
    decreases |ranges|
  {
    if ranges != [] {
      TilingStarts(ranges, start, end, step);
      TilingIsUnique(ranges[1..], ranges[0].end, end, step);
    }
  }

  function Reversed(ranges: seq<TimeRange>): (r: seq<TimeRange>)
    ensures |r| == |ranges| && forall k :: 0 <= k < |r| ==> r[k] == ranges[|ranges| - 1 - k]
  {
    seq(|ranges|, k requires 0 <= k < |ranges| => ranges[|ranges| - 1 - k])
  }

  /** The ranges of a migration: oldest first, or newest first. */
  function RangesOf(start: int, end: int, step: string, reverse: bool): seq<TimeRange> {
    if reverse then Reversed(Tiling(start, end, step)) else Tiling(start, end, step)
  }

  method ReverseRanges(ranges: array<TimeRange>)
    modifies ranges
    ensures forall k :: 0 <= k < ranges.Length ==> ranges[k] == old(ranges[ranges.Length - 1 - k])
  {
    var i, j := 0, ranges.Length - 1;
    while i < j
      invariant 0 <= i <= j + 1 && i + j == ranges.Length - 1
      invariant forall k :: 0 <= k < i || j < k < ranges.Length ==> ranges[k] == old(ranges[ranges.Length - 1 - k])
      invariant forall k :: i <= k <= j ==> ranges[k] == old(ranges[k])
    {
      ranges[i], ranges[j] := ranges[j], ranges[i];
      i, j := i + 1, j - 1;
    }
  }

  /** The loop that cuts the interval. */
  method CutInterval(start: int, end: int, advance: Stepper, ghost shortest: int, ghost longest: int)
    returns (ranges: seq<TimeRange>)
    requires Progresses(advance, shortest, longest)
    ensures IsTiling(ranges, start, end, advance)
  {
    ranges := [];
    var current := start;
    while current < end
      invariant start <= current && (start < end ==> current <= end)
      invariant IsTiling(ranges, start, if start < end then current else end, advance)
      invariant ranges != [] && current < end ==> current == advance(ranges[|ranges| - 1].start)
      decreases end - current
    {
      var next := advance(current);
      if next > end {
        next := end;
      }
      TilingAppend(ranges, TimeRange(current, next), start, advance);
      ranges := ranges + [TimeRange(current, next)];
      current := next;
    }
  }

  /** Each range and the next are related. */
  predicate Linked(ranges: seq<TimeRange>, follows: (TimeRange, TimeRange) -> bool) {
    forall i :: 0 <= i < |ranges| - 1 ==> follows(ranges[i], ranges[i + 1])
  }

  lemma LinkedCons(r: TimeRange, rest: seq<TimeRange>, follows: (TimeRange, TimeRange) -> bool)
    requires Linked(rest, follows) && (rest != [] ==> follows(r, rest[0]))
    ensures Linked([r] + rest, follows)
  {
    var all := [r] + rest;
    forall i | 0 <= i < |all| - 1 ensures follows(all[i], all[i + 1]) {
      assert i > 0 ==> follows(rest[i - 1], rest[i]);
    }
  }

  /** The first of the following month, at the same time of day. */
  predicate IsNextFirst(t: int, next: int) {
    IsFirstAfter(CivilOf(t / 86400), CivilOf(next / 86400)) && next % 86400 == t % 86400
  }

  predicate IsFirstAfter(c: Civil, d: Civil) {
    (d.year, d.month) == MonthAfter(c) && d.day == 1
  }

  /** Every range but the first starts on the first of the month that follows the one before it. */
  predicate MonthByMonth(ranges: seq<TimeRange>) {
    Linked(ranges, (r: TimeRange, next: TimeRange) => IsNextFirst(r.start, next.start))
  }

  lemma FirstAfterFirst(c: Civil)
    requires IsDate(c) && c.day == 1
    ensures IsFirstAfter(c, OneMonthOn(c))
  {
  }

  lemma FirstToFirst(t: int, c: Civil)
    requires c == CivilOf(t / 86400) && c.day == 1
    ensures IsNextFirst(t, AdvanceByStep(t, "month")) && CivilOf(AdvanceByStep(t, "month") / 86400).day == 1
  {
    MonthKeepsDay(t);
    FirstAfterFirst(c);
  }

  /** The first range of an interval, and where the rest starts. */
  lemma TilingSteps(start: int, end: int, step: string) returns (next: int)
    requires start < end
    ensures start < next <= end && Tiling(start, end, step) == [TimeRange(start, next)] + Tiling(next, end, step)
    ensures next < end ==> next == AdvanceByStep(start, step) && Tiling(next, end, step)[0].start == next
    ensures next == end ==> Tiling(next, end, step) == []
  {
    StepLength(start, step);
    next := if AdvanceByStep(start, step) > end then end else AdvanceByStep(start, step);
  }

  /** Months from the first of a month: every range starts on the first of the following one. */
  lemma {:induction false} TilingByMonths(start: int, end: int)
    requires CivilOf(start / 86400).day == 1
    ensures MonthByMonth(Tiling(start, end, "month"))
    decreases if start < end then end - start else 0
  {
    if start < end {
      var next := TilingSteps(start, end, "month");
      FirstToFirst(start, CivilOf(start / 86400));
      if next < end {
        TilingByMonths(next, end);
      }
      LinkedCons(TimeRange(start, next), Tiling(next, end, "month"),
                 (r: TimeRange, next: TimeRange) => IsNextFirst(r.start, next.start));
    }
  }

  lemma RangesByMonths(start: int, end: int, reverse: bool)
    requires CivilOf(start / 86400).day == 1
    ensures var ranges := RangesOf(start, end, "month", reverse);
            MonthByMonth(if reverse then Reversed(ranges) else ranges)
  {
    TilingByMonths(start, end);
    ReversedTwice(Tiling(start, end, "month"));
  }

  lemma ReversedTwice(ranges: seq<TimeRange>)
    ensures Reversed(Reversed(ranges)) == ranges
  {
  }

  method SplitTimeRange(start: int, end: int, step: string, reverse: bool) returns (ranges: seq<TimeRange>)
    ensures ranges == RangesOf(start, end, step, reverse)
    ensures step == "month" && CivilOf(start / 86400).day == 1 ==>
              MonthByMonth(if reverse then Reversed(ranges) else ranges)
  {
    ranges := CutAndTurn(start, end, step, reverse);
    if step == "month" && CivilOf(start / 86400).day == 1 {
      RangesByMonths(start, end, reverse);
    }
  }

  method CutAndTurn(start: int, end: int, step: string, reverse: bool) returns (ranges: seq<TimeRange>)
    ensures ranges == RangesOf(start, end, step, reverse)
  {
    StepperProgresses(step);
    ranges := CutInterval(start, end, StepperOf(step), ShortestStep(step), LongestStep(step));
    TilingIsUnique(ranges, start, end, step);
    if reverse {
      var slice := new TimeRange[|ranges|](i requires 0 <= i < |ranges| => ranges[i]);
      ghost var forward := ranges;
      ReverseRanges(slice);
      ranges := slice[..];
      assert ranges == Reversed(forward);
    }
  }

  lemma {:induction false} TilingTiles(start: int, end: int, step: string)
    ensures IsTiling(Tiling(start, end, step), start, end, StepperOf(step))
    decreases if start < end then end - start else 0
  {
    if start < end {
      StepLength(start, step);
      var first := Tiling(start, end, step)[0];
      TilingTiles(first.end, end, step);
      assert Tiling(start, end, step)[1..] == Tiling(first.end, end, step);
    }
  }

  // ---------- how many ranges ----------

  lemma {:induction false} CountBounds(ranges: seq<TimeRange>, start: int, end: int, advance: Stepper,
                                       shortest: int, longest: int)
    requires Progresses(advance, shortest, longest)
    requires IsTiling(ranges, start, end, advance) && ranges != []
    ensures Times(|ranges| - 1, shortest) < end - start <= Times(|ranges|, longest)
  {
    if |ranges| > 1 {
      CountBounds(ranges[1..], ranges[0].end, end, advance, shortest, longest);
    }
  }

  lemma CountOfTiling(ranges: seq<TimeRange>, start: int, end: int, step: string)
    requires IsTiling(ranges, start, end, StepperOf(step)) && start < end
    ensures (|ranges| - 1) * ShortestStep(step) < end - start <= |ranges| * LongestStep(step)
  {
    StepperProgresses(step);
    CountBounds(ranges, start, end, StepperOf(step), ShortestStep(step), LongestStep(step));
    TimesIsProduct(|ranges| - 1, ShortestStep(step));
    TimesIsProduct(|ranges|, LongestStep(step));
  }

  /** Hours and days: exactly length / step ranges, rounded up. */
  lemma FixedStepCount(ranges: seq<TimeRange>, start: int, end: int, step: string)
    requires IsTiling(ranges, start, end, StepperOf(step)) && start < end && step != "month"
    ensures |ranges| == CeilDiv(end - start, if step == "hour" then HOUR else DAY)
  {
    CountOfTiling(ranges, start, end, step);
  }

  /** Months: at most one range per 28 days and at least one per 31 days, rounded up. */
  lemma MonthCount(ranges: seq<TimeRange>, start: int, end: int)
    requires IsTiling(ranges, start, end, StepperOf("month")) && start < end
    ensures CeilDiv(end - start, 31 * DAY) <= |ranges| <= CeilDiv(end - start, 28 * DAY)
  {
    assert ShortestStep("month") == 28 * DAY && LongestStep("month") == 31 * DAY;
    CountOfTiling(ranges, start, end, "month");
    AtMost28(|ranges|, end - start);
    AtLeast31(|ranges|, end - start);
  }

  lemma AtMost28(n: nat, length: int)
    requires (n - 1) * (28 * DAY) < length
    ensures n <= CeilDiv(length, 28 * DAY)
  {
  }

  lemma AtLeast31(n: nat, length: int)
    requires length <= n * (31 * DAY)
    ensures CeilDiv(length, 31 * DAY) <= n
  {
  }

  // ---------- every instant is in exactly one range ----------

  predicate Within(t: int, r: TimeRange) {
    r.start <= t < r.end
  }

  ghost predicate IsCovered(t: int, ranges: seq<TimeRange>) {
    exists i :: 0 <= i < |ranges| && Within(t, ranges[i])
  }

  ghost predicate CoversOnce(ranges: seq<TimeRange>, start: int, end: int) {
    && (forall t :: IsCovered(t, ranges) <==> start <= t < end)
    && forall i, j, t :: 0 <= i < j < |ranges| && Within(t, ranges[i]) ==> !Within(t, ranges[j])
  }

  lemma {:induction false} TilingCovers(ranges: seq<TimeRange>, start: int, end: int, advance: Stepper)
    requires IsTiling(ranges, start, end, advance)
    ensures CoversOnce(ranges, start, end)
    ensures forall i :: 0 <= i < |ranges| ==> start <= ranges[i].start && ranges[i].end <= end
  {
    if ranges != [] {
      var first, rest := ranges[0], ranges[1..];
      assert forall i :: 0 <= i < |rest| ==> rest[i] == ranges[i + 1];
      TilingCovers(rest, first.end, end, advance);
      forall t ensures IsCovered(t, ranges) <==> Within(t, first) || IsCovered(t, rest) {
        if Within(t, first) {
          assert Within(t, ranges[0]);
        }
        if IsCovered(t, rest) {
          var i :| 0 <= i < |rest| && Within(t, rest[i]);
          assert Within(t, ranges[i + 1]);
        }
      }
      forall i, j, t | 0 <= i < j < |ranges| && Within(t, ranges[i]) ensures !Within(t, ranges[j]) {
        assert ranges[j] == rest[j - 1];
        if i > 0 {
          assert Within(t, rest[i - 1]);
        }
      }
    }
  }

  /** Whichever order the ranges are returned in. */
  lemma ReversedCovers(forward: seq<TimeRange>, start: int, end: int)
    requires CoversOnce(forward, start, end)
    ensures CoversOnce(Reversed(forward), start, end)
  {
    var ranges := Reversed(forward);
    assert forall k :: 0 <= k < |forward| ==> forward[k] == ranges[|ranges| - 1 - k];
    forall t ensures IsCovered(t, ranges) <==> IsCovered(t, forward) {
      if IsCovered(t, forward) {
        var i :| 0 <= i < |forward| && Within(t, forward[i]);
        assert Within(t, ranges[|ranges| - 1 - i]);
      }
    }
    forall i, j, t | 0 <= i < j < |ranges| && Within(t, ranges[i]) ensures !Within(t, ranges[j]) {
      assert Within(t, forward[|ranges| - 1 - i]);
      assert !Within(t, forward[|ranges| - 1 - j]);
    }
  }

  /** Each instant of the interval is in exactly one of a migration's ranges, no other instant in any. */
  lemma RangesCoverOnce(start: int, end: int, step: string, reverse: bool)
    ensures CoversOnce(RangesOf(start, end, step, reverse), start, end)
  {
    TilingTiles(start, end, step);
    TilingCovers(Tiling(start, end, step), start, end, StepperOf(step));
    ReversedCovers(Tiling(start, end, step), start, end);
  }
}
