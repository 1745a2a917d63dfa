# Verified model of the VictoriaMetrics data migrator

The migrator copies metrics from one VictoriaMetrics to another by cutting a (series x time) space into
tasks, running the tasks on a pool of workers, and cutting again where a task turns out too big. This
project models that process in Dafny and proves that every sample the configuration asks for is accounted
for by exactly one task, and that the process ends, whatever the workers answer and in whatever order the
goroutines run.

How often the data is sent is a separate question, with an exact answer of its own. A call may be lost under
the coordinator while its request, or the vmctl process it started, lives on; the task is retried, and then it
can be sent again, even after it is done (`Scenarios.DoneAndStillSent` is such a run). Each dispatch is one
request, and in every run it begins a process, is turned away, vanishes or is still under way
(`Starts.RequestsAreConserved`). So a task is sent at most max(1, MaxRetries) times
(`Starts.SentWithinAttempts`), and a sample, where the selectors say what is meant, at most twice as often,
because at most two tasks ever cover it (`Sends.SampleIsSentAtMost`). Requests and processes outlive their callers exactly in the runs that have a lost
call (`Rejections.FaithfulIffAttended`); without one a task that is done was sent once more than it had failed
(`Starts.SentAsDispatched`). In any run a task is answered with success at most once, and at the end a wanted
sample whose task was not abandoned has been delivered by exactly one such answer, again where the selectors
say what is meant (`Deliveries.DeliveredOnce`).

The main theorem is the contract of `Orchestrator.Migrate`, which cuts the interval into ranges and runs
them: when it returns, the queue is complete, and every wanted sample lies in exactly one succeeded or
abandoned task, and no other sample in any. It rests on six pieces.

- **Selector text** (`Strings`, `Matchers`, `Regexes`, `Patterns`, `Selectors`, `Filters`). Selectors are the strings the code
  prints. `Selects` reads such a string with the scanner of `splitMatchers` and says which series it
  selects, matching a pattern by what its characters mean (an unescaped dot is any character); the round-trip
  lemmas show that each append of the splitter adds exactly one conjunct.
- **Packing** (`BinPacking`, `PackingBounds`). First-fit decreasing under two limits, as array and loop
  code: conservation as a multiset, the limits, and the 3/2 and 3 bounds against any legal packing.
- **Splitting** (`Collections`, `Discovery`, `Splitting`, `Scoring`, `Plans`, `Splitter`). The recursion over labels, with
  Go slices that may share a backing array, produces selectors that partition the base selector's series. What
  is printed follows a plan (`Plans`) whose every level cuts at a best label into few lists of values.
- **Time** (`Arithmetic`, `Calendar`, `TimeRanges`). Tiling of an interval by hour, day or calendar month.
- **Queue and workers** (`Identifiers`, `Tasks`, `TaskQueue`, `Workers`). The queue object is proved against
  a value-level queue, and the value-level queue against an accounting invariant. The busy flags and the
  worker's gate are objects too.
- **Protocol** (`Protocol`, `Ownership`, `Liveness`, `Runs`, `Rejections`, `Scenarios`, `Origins`, `Coverage`,
  `Scope`, `Migration`, `Answers`, `Transfers`, `Starts`, `Sends`, `Deliveries`, `World`, `Orchestrator`). A transition
  system with one step per atomic action of the coordinator, its goroutines and the servers. Its invariants,
  deadlock freedom, termination, coverage, the bytes and the counts of sends and answers are proved over all runs.
  `Orchestrator` is the imperative coordinator: between any two of its actions `Others` lets the goroutines and
  servers of `World` make any number of moves, and every method is proved to follow the transition system. In
  these methods `s` and `s'` are ghost states of the transition system that the objects hold before and after.

A series is a finite map from labels to values, the source is a finite set of samples (series, instant),
and discovery answers exactly about the samples of a time range. `Config` holds what a run is given. The
worker outcomes, the fast counts (one for each failed attempt of each task), lost calls, requests that arrive
late or never, and the interleaving are arbitrary. A task whose split is due (`SplitIsDue`) is always split.

The invariants, deadlock freedom, termination and `Migrate` itself hold for any filter, labels and values.
That the tasks account for the wanted samples needs the selectors to say what is meant:

- `PlainFilter`: every piece of the filter is a label, one of the operators `=`, `!=`, `=~`, `!~`, and one
  double-quoted string. A metric in front of the braces, say, is not plain, and the code then prints text
  with one brace too many (`Filters.MetricBeforeBraces`). What is printed for a base is a plain selector again
  exactly when the pieces of the base are matchers (`Filters.PrintedIsPlainIff`).
- `Usable`: the base selector is closed text that does not contain `__name__`, metric names hold no quote or
  backslash, and no two time ranges overlap (which `TimeRanges.RangesCoverOnce` gives).
- `CanSplit`, `Printable`: only for the metrics above their series limit, values of the labels that may be
  split by hold no quote and no `__name__`, a value frequent enough to get an exact matcher holds no
  backslash, no such label has more than the 100000 values a distribution lists
  (`Splitting.CapLosesSeriesIff`), and `__name__` is excluded from splitting.
- `NameDecides`, for "no other sample": the matchers that `extractBaseSelector` drops do not tell series of
  one kept metric apart. `Scope.OnlyWantedIff` shows this to be the exact condition for any filter and reader.
  `NamesOnly` is the check on the filter's text: each dropped matcher is one on the label `__name__` itself,
  with any operator and pattern. Over all sources and readers it is necessary and sufficient, unless no series
  can be wanted at all (`Scope.OnlyWantedIffNamesOnly`). Without it wanted samples are still not lost (`NothingLost`), but others
  are taken up too (`Scope.UnwantedIsTakenUp`).

Where the code and its comments differ, the model follows the code:

- `SplitMetric` is documented to return selectors of at most `maxSeries` series each
  (internal/splitter/splitter.go:56-57). `Splitting.LimitIsMetIff` gives the exact condition, which holds
  whenever only `__name__` is excluded (`Splitting.SplitMeetsTheLimit`); `Splitting.LimitCanBeMissed` is a
  metric of two series that breaks it.
- `extractBaseSelector` is documented to keep the part without `__name__`
  (internal/orchestrator/orchestrator.go:562). It drops every matcher on a label that merely starts with it.
- `buildMatch` looks for the text `__name__` anywhere, also inside a value, and then omits the metric
  (internal/splitter/splitter.go:338-341): `Selectors.NameAsAValue`.
- `ReplaceTasks` is documented to remove a task from pending or running (internal/scheduler/task.go:147-148).
  It removes it from running only, so a pending task would stay beside its own pieces
  (`Tasks.ReplaceLeavesPending`); that case is never reached (`Liveness.HandledTaskIsRunning`).

Check everything with `dafny verify dfyconfig.toml`.

## Model

| member | source | states |
|---|---|---|
| Matchers.SplitMatchers | internal/orchestrator/orchestrator.go:586-621 | the quote and escape loop cuts its input exactly where the specification scanner does |
| Matchers.JoinOfSplit | internal/orchestrator/orchestrator.go:586-621 | joining the pieces with commas gives the input back, less one trailing top-level comma |
| Matchers.SplitOfJoin | internal/orchestrator/orchestrator.go:586-621 | splitting the join of balanced pieces with a non-empty last piece gives the pieces back |
| Matchers.PiecesAreUncut | internal/orchestrator/orchestrator.go:586-621 | no piece has a top-level comma, and all but the last are closed quotations |
| Matchers.ScanMeans | internal/orchestrator/orchestrator.go:586-614 | after any prefix the scanner is in quotes if and only if an odd number of unescaped quotes came before, and escaping if and only if an odd run of backslashes comes right before |
| Matchers.SeparatesIff | internal/orchestrator/orchestrator.go:586-614 | a comma cuts if and only if an even number of unescaped quotes came before it and it is not escaped |
| Regexes.EscapeRegex | internal/splitter/splitter.go:386-396 | under a matching relation that names the operators itself, the escaped text matches the given text and nothing else, whatever follows it in an alternation |
| Regexes.SpecialIsPunctuation | internal/splitter/splitter.go:387-388 | the escaped characters are exactly those that mean something in a pattern, and each may be escaped |
| Selectors.AppendRegexSelector | internal/splitter/splitter.go:349-358 | the base with one more matcher, the alternation of the escaped values |
| Patterns.AlternativesOfAlternation | internal/splitter/splitter.go:349-358 | reading the printed alternation at its unescaped bars gives back the list of values, for any characters |
| Patterns.AlternationIsInjective | internal/splitter/splitter.go:386-396 | value lists printed alike are equal, so escaping is injective |
| Selectors.ExactMatcherReads | internal/splitter/splitter.go:361-364 | a printed exact matcher is one balanced piece and is read as that label and value |
| Selectors.RegexMatcherReads | internal/splitter/splitter.go:349-358 | a printed regex matcher is one balanced piece and reads back as that label and the printed pattern |
| Selectors.RegexMatcherHolds | internal/splitter/splitter.go:349-358 | it holds of a series if and only if the label has one of the listed values, whatever characters these hold besides the quote |
| Selectors.StripOfBraced | internal/splitter/splitter.go:373-383 | the braces of a selector are stripped with the space around and inside them |
| Selectors.SplitOfBuildMatch | internal/splitter/splitter.go:329-346 | splitting the printed selector yields the name matcher, then the base's matchers |
| Selectors.SplitAfterAppend | internal/splitter/splitter.go:373-383 | after an append: the name matcher, the base's matchers, the new matcher, in this order |
| Selectors.BuildMatchMeans | internal/splitter/splitter.go:329-346 | the printed text selects the metric's series on which all matchers of the base hold |
| Selectors.AppendMeans | internal/splitter/splitter.go:373-383 | an append adds exactly one conjunct to what the text selects |
| Selectors.PrintersAgree | internal/splitter/splitter.go:329-346 | the printers of splitter, discovery client and coordinator agree if and only if the base has no text `__name__` |
| Selectors.PrintedText | internal/splitter/splitter.go:329-346 | what all three print for a base that suits them: braces, the name matcher, and the base after a comma |
| Selectors.NameInAMatcherDropsTheMetric | internal/splitter/splitter.go:338-341 | with that text in an appended matcher the selector no longer restricts the metric, for any base |
| Selectors.NameAsAValue | internal/splitter/splitter.go:338-341 | a label value `__name__` is enough for it |
| Regexes.AlternationMatches | internal/splitter/splitter.go:349-358 | the printed alternation uses no operator but bars and matches, as a whole, exactly the listed strings; an unescaped dot would match any character |
| Patterns.AlternativesMatch | internal/splitter/splitter.go:349-358 | the values read at the unescaped bars of a pattern without dots are exactly the strings it matches |
| Patterns.LiteralIsVerbatimIff | internal/splitter/splitter.go:356 | a reader that unescapes string literals sees the printed pattern unchanged if and only if no value has a special character |
| Patterns.LiteralIsAcceptedIff | internal/splitter/splitter.go:356 | such a reader accepts the printed pattern if and only if no value has a special character other than a backslash |
| Filters.ExtractBaseSelector | internal/orchestrator/orchestrator.go:563-582 | the loop keeps exactly the trimmed matchers that do not start with `__name__`, in order |
| Filters.KeptIff | internal/orchestrator/orchestrator.go:571-579 | a matcher is kept if and only if it is written in the filter, not blank and does not start with `__name__` |
| Filters.SplitOfBase | internal/orchestrator/orchestrator.go:563-582 | splitting the base selector gives back the kept matchers |
| Filters.BaseIsWellFormed | internal/orchestrator/orchestrator.go:563-582 | the base suits the printers if and only if no kept matcher contains `__name__` |
| Filters.ExtractBaseIsIdempotent | internal/orchestrator/orchestrator.go:563-582 | extracting the base of a base changes nothing |
| Filters.FilterMeans | internal/orchestrator/orchestrator.go:563-582 | the filter selects what the base and the dropped matchers together select |
| Filters.PrintedIsPlainIff | internal/orchestrator/orchestrator.go:271-285 | the selector printed for a metric and a bare base is plain if and only if every piece of the base is a matcher |
| Filters.MetricBeforeBraces | internal/orchestrator/orchestrator.go:563-582 | for a filter with a metric before its braces the printed selector opens one brace more than it closes |
| BinPacking.SortDescending | internal/splitter/binpack.go:28-32 | the array ends up a permutation of itself with descending counts |
| BinPacking.FindBin | internal/splitter/binpack.go:46-55 | the first bin with room under both limits, or none |
| BinPacking.BinPack | internal/splitter/binpack.go:22-67 | binned and oversized values are, as a multiset, the positive input values; every bin is non-empty, within both limits, and its count is the sum of its members; no value would have fitted in an earlier bin, and bins open in descending order |
| PackingBounds.EveryValueHasItsPlace | internal/splitter/binpack.go:34-64 | exactly the positive values within the limit are in bins and exactly those above it are oversized, each as often as given |
| PackingBounds.BinCount | internal/splitter/binpack.go:22-67 | the number of bins returned is at most 3/2 times that of any legal packing of the values that fit when the value limit cannot bind, and below 3 times with both limits active |
| PackingBounds.ThreeHalves | internal/splitter/binpack.go:27-64 | the 3/2 bound for any first-fit packing with descending openings |
| PackingBounds.BelowThreeTimes | internal/splitter/binpack.go:46-63 | the bound of 3 for any first-fit packing under both limits |
| Discovery.GetSeriesDistribution | internal/discovery/client.go:324-330 | the most frequent values of the label, up to the cap of 100000, each with the number of series that carry it |
| Discovery.CapIsHarmlessIff | internal/discovery/client.go:324-330 | the distribution lists every value if and only if the label has no more values than the cap |
| Discovery.DiscoverLabels | internal/discovery/client.go:147-178 | exactly the labels of the series found |
| Discovery.DiscoverMetrics | internal/discovery/client.go:111-143 | exactly the metric names of the series the filter selects |
| Splitting.ExactCuts | internal/splitter/splitter.go:361-364 | an exact matcher keeps exactly the series with that value |
| Splitting.EmptyLabelCuts | internal/splitter/splitter.go:367-370 | an empty-label matcher keeps exactly the series without the label |
| Splitting.RegexCuts | internal/splitter/splitter.go:349-358 | a regex matcher keeps exactly the series whose value is listed |
| Splitting.CountOfValues | internal/splitter/splitter.go:143-150 | the counts of distinct values of a distribution add up to the number of series that have one of them |
| Splitting.CapLosesSeriesIff | internal/splitter/splitter.go:134-186 | listed values and remainder together are all the series if and only if the label has no more values than the cap |
| Splitting.PiecesAreFew | internal/splitter/splitter.go:142-186 | a split into pieces that select something has no more pieces than series |
| Splitting.SplitCounts | internal/splitter/splitter.go:58-96 | the estimates of a split add up to the number of series |
| Splitting.IndivisibleIsSingle | internal/splitter/splitter.go:110-117 | when only `__name__` is excluded, a piece that no label divides holds at most one series |
| Splitting.SplitMeetsTheLimit | internal/splitter/splitter.go:56-96 | when only `__name__` is excluded every piece is within the limit, and more series than the limit give two or more pieces |
| Splitting.LimitIsMetIff | internal/splitter/splitter.go:56-96 | with any labels excluded, every piece is within the limit if and only if no series has more twins than the limit allows |
| Splitting.LimitCanBeMissed | internal/splitter/splitter.go:56-57 | a metric of two series that differ in an excluded label only, on which every split exceeds the documented limit |
| Splitting.SplitsInTwoIff | internal/splitter/splitter.go:110-117 | more series than the limit give two or more pieces if and only if some label that is not excluded tells them apart |
| Splitter.Append | internal/splitter/splitter.go:155 | append writes in place or copies; either way the old slice still reads the same |
| Splitter.FilterLabels | internal/splitter/splitter.go:193-231 | exactly the labels neither excluded nor used |
| Scoring.ScoreLabelDistribution | internal/splitter/splitter.go:295-326 | half the number of values plus half the total over the largest count, without rounding |
| Scoring.ScoreBounds | internal/splitter/splitter.go:288-294 | the score of n values is above n / 2 and at most n, and n if and only if all counts are equal |
| Scoring.TwiceTheValuesWin | internal/splitter/splitter.go:288-294 | a label with twice the values of another always scores higher, however uneven it is |
| Splitter.FindBestSplitLabel | internal/splitter/splitter.go:235-286 | a candidate with values whose score no other candidate exceeds, with its distribution; a failure if and only if no candidate has values |
| Plans.ShapedIsFrugal | internal/splitter/binpack.go:34-64 | a first-fit packing keeps the value limit in every list, leaves no two lists that could be joined, and has below 3 times as many lists as any legal packing of the same values |
| Splitter.BinSelectors | internal/splitter/splitter.go:142-150 | the bins' selectors partition the series with the packed values, with true counts, and each selects something; they print the lists of a frugal packing |
| Splitter.OversizedSelectors | internal/splitter/splitter.go:152-160 | the recursive selectors partition the series with the oversized values, each selects something, each value has a plan of its own, and the caller's slice is intact |
| Splitter.RemainderSelectors | internal/splitter/splitter.go:162-186 | the remainder's selectors partition the series without the label, each selects something; they are one selector within the limit and a plan above it, and the caller's slice is intact |
| Splitter.RecursiveSplit | internal/splitter/splitter.go:99-189 | terminates for any labels and values, and every call reads exactly the labels of its own path; where the printed selectors say what is meant it succeeds, the selectors partition the base's series, each estimate is the true count, each selects something unless there is nothing, and a piece above the limit is one no label divides; whenever it succeeds the selectors are those of a plan, which at every level cuts at a label of best score, prints no list of more than max(1, maxRegexValues) values and no two lists that could be joined, has below 3 times as many lists as any legal packing, and goes on exactly with the values above the limit |
| Splitter.SplitMetric | internal/splitter/splitter.go:58-96 | the same from the entry point, plan included, with the true total, one selector when the total is within the limit, for any values, and never more selectors than series |
| Calendar.CivilOf | internal/scheduler/timerange.go:41-44 | every day number is the number of a valid date |
| Calendar.DateIsUnique | internal/scheduler/timerange.go:41-44 | reading a date's number gives the date back |
| Calendar.YearsInClosedForm | internal/scheduler/timerange.go:41-44 | the days before a year by the rule of leap days: one every fourth year, but not in three of four centuries |
| Calendar.MonthsInClosedForm | internal/scheduler/timerange.go:41-44 | the days before a month in closed form, with the leap day from March on |
| Calendar.AddMonth | internal/scheduler/timerange.go:44 | a month step advances by exactly the length of the starting month, also when the day overflows |
| Calendar.AddMonthKeepsDay | internal/scheduler/timerange.go:44 | it keeps the time of day and leads to the same day of the next month where that has the day, else overflows into the month after |
| TimeRanges.StepLength | internal/scheduler/timerange.go:37-48 | every step advances, by at least 1 hour, 1 day or 28 days |
| TimeRanges.StepMeans | internal/scheduler/timerange.go:37-48 | an hour is 3600 seconds, a month the length of the month one starts in, a day or any other word 86400 seconds |
| TimeRanges.MonthKeepsDay | internal/scheduler/timerange.go:43-44 | a month step leads to the same day of the next month at the same time, where that month has the day |
| TimeRanges.ReverseRanges | internal/scheduler/timerange.go:51-55 | the array is reversed in place |
| TimeRanges.CutInterval | internal/scheduler/timerange.go:16-27 | the loop ends and its non-empty contiguous ranges tile the interval, each one step long but the last |
| TimeRanges.TilingIsUnique | internal/scheduler/timerange.go:16-27 | contiguous non-empty ranges, each one step long but the last, are determined by start, end and step |
| TimeRanges.SplitTimeRange | internal/scheduler/timerange.go:13-34 | that tiling, or its exact reversal; by months from the first of a month, every later range starts on the first of the following month |
| TimeRanges.TilingByMonths | internal/scheduler/timerange.go:16-27 | the monthly tiling from the first of a month cuts at the firsts of the following months |
| TimeRanges.FixedStepCount | internal/scheduler/timerange.go:13-34 | exactly ceil(length / step) ranges for hours and days |
| TimeRanges.MonthCount | internal/scheduler/timerange.go:13-34 | between ceil(days / 31) and ceil(days / 28) ranges for months |
| TimeRanges.TilingCovers | internal/scheduler/timerange.go:10-12 | every instant of the interval is in exactly one range, no other instant in any |
| TimeRanges.ReversedCovers | internal/scheduler/timerange.go:29-31 | the same in reverse order |
| TimeRanges.RangesCoverOnce | internal/scheduler/timerange.go:10-34 | so every instant of the interval is in exactly one of the returned ranges, for any start, end, step and order |
| Identifiers.TaskIdIsInjective | internal/orchestrator/orchestrator.go:275-277 | different counter values give different ids |
| Identifiers.TaskIdReads | internal/orchestrator/orchestrator.go:275-277 | an id is the letter t and the decimal digits of the counter |
| Tasks.AddKeepsAccounting | internal/scheduler/task.go:37-43 | every task stays in exactly one of pending, running, done, failed, replaced, with the status and attempts of that place, and the dispatches stay accounted for |
| Tasks.NextKeepsAccounting | internal/scheduler/task.go:46-62 | the same for taking the next task |
| Tasks.CompleteKeepsAccounting | internal/scheduler/task.go:91-110 | the same for a success |
| Tasks.FailKeepsAccounting | internal/scheduler/task.go:113-145 | the same for a failure: abandoned on failure number max(1, MaxRetries), queued again before |
| Tasks.ReplaceKeepsAccounting | internal/scheduler/task.go:149-158 | the same for a replacement, with the parent remembered as replaced |
| Tasks.ReplaceLeavesPending | internal/scheduler/task.go:147-158 | a replaced task leaves the queue if and only if it is not pending |
| Tasks.BytesAddUp | internal/scheduler/task.go:179-188 | a success adds its bytes to the total, a failure nothing |
| Tasks.GivenUpAfterAll | internal/scheduler/task.go:113-145 | under the accounting no task has more than max(1, MaxRetries) failures, and exactly so many when it is abandoned |
| TaskQueues.MigrationTask.CountFailure | internal/scheduler/task.go:124-138 | counts the attempt, records the error and decides between retry and abandonment |
| TaskQueues.TaskQueue.AddTasks | internal/scheduler/task.go:37-43 | the object follows the value-level queue: the new tasks are known and wait at the end, all else is as before |
| TaskQueues.TaskQueue.NextTask | internal/scheduler/task.go:46-62 | the first pending task becomes running, or there is none |
| TaskQueues.TaskQueue.GetTask | internal/scheduler/task.go:65-88 | finds the task with that id in running, pending, done or failed if and only if it is there |
| TaskQueues.TaskQueue.CompleteTask | internal/scheduler/task.go:91-110 | moves a running task to the end of done with its bytes, and ignores unknown ids |
| TaskQueues.TaskQueue.FailTask | internal/scheduler/task.go:113-145 | counts a running task's failure with its text, puts it at the end of pending or of failed, says which, and ignores unknown ids |
| TaskQueues.TaskQueue.ReplaceTasks | internal/scheduler/task.go:149-158 | removes the task from running only and adds the new tasks |
| TaskQueues.TaskQueue.Stats | internal/scheduler/task.go:161-176 | the sizes of the lists; under the accounting all failed tasks are abandoned |
| TaskQueues.TaskQueue.TotalBytes | internal/scheduler/task.go:179-188 | the bytes of the succeeded tasks |
| TaskQueues.TaskQueue.QueueIsComplete | internal/scheduler/task.go:191-196 | nothing pending and nothing running |
| Workers.AcquireTakesOne | internal/worker/manager.go:242-253 | acquiring lowers the idle count by one, and finds nobody only when it is zero |
| Workers.Manager.AcquireWorker | internal/worker/manager.go:242-253 | flips the flag of the first idle worker and of no other, or returns none |
| Workers.Manager.ReleaseWorker | internal/worker/manager.go:256-260 | clears that worker's flag and no other |
| Workers.Manager.IdleWorkerCount | internal/worker/manager.go:263-274 | the loop counts the idle workers |
| Workers.Server.Admit | internal/workerserver/server.go:43-49 | admits a request exactly when idle, and is busy afterwards |
| Workers.Server.Reset | internal/workerserver/server.go:51-55 | the deferred reset |
| Workers.MutualExclusion | internal/workerserver/server.go:42-70 | for any stream of requests at most one process runs, and the flag says whether one does |
| World.World.Arrive | internal/workerserver/server.go:42-49 | a call to the server object is answered busy or admitted, as the protocol's step says |
| World.World.Reply | internal/workerserver/server.go:51-70 | the deferred reset of the server object and the goroutine's answer are the protocol's step |
| World.World.Lose | internal/worker/manager.go:293-299 | a call that fails under the coordinator leaves the server object alone and its request possibly under way |
| Ownership.StepKeepsInv | internal/orchestrator/orchestrator.go:401-543 | every step keeps: each running task has exactly one goroutine or message, each busy worker exactly one unreleased goroutine or the coordinator, at most one process per server, ids unique |
| Ownership.RunKeepsInv | internal/orchestrator/orchestrator.go:401-543 | so every reachable state has this |
| Ownership.NothingOutstanding | internal/orchestrator/orchestrator.go:540-543 | when executeTasks returns, all workers are idle, the channel is empty and no goroutine is left |
| Ownership.HandleSettles | internal/orchestrator/orchestrator.go:464-533 | what a result does to the queue: a failed call or vmctl is counted with its text, a success recorded with its bytes, a split puts the pieces at the end in the task's place |
| Liveness.ExecutingCount | internal/orchestrator/orchestrator.go:442-447 | unreleased goroutines and executing workers are equally many |
| Liveness.RunningLaw | internal/orchestrator/orchestrator.go:443-446 | running tasks are the executing workers plus the unsent, undelivered and unhandled results |
| Scenarios.TwoRunningOnOneWorker | internal/orchestrator/orchestrator.go:443-446 | six steps that lead from a dispatch on the only worker to two running tasks |
| Scenarios.RunningExceedsWorkers | internal/orchestrator/orchestrator.go:443-446 | with one worker and a first range of two metrics a state with two running tasks is reached from the start |
| Liveness.LoopHead | internal/orchestrator/orchestrator.go:454-462 | at the loop head the in-flight map and the running map have the same keys |
| Liveness.HandledTaskIsRunning | internal/scheduler/task.go:95-99 | a received result is that of a running task and not of a pending one, so the unknown-task branches are unreachable and a replaced task always leaves the queue |
| Liveness.ReceiveIsComing | internal/orchestrator/orchestrator.go:454-459 | at the loop head of an incomplete queue a result is there or some goroutine can move |
| Liveness.NobodyIdles | internal/orchestrator/orchestrator.go:421-448 | the coordinator comes to wait for results only when nothing is pending or every worker is busy |
| Liveness.DeadlockFree | internal/orchestrator/orchestrator.go:418-459 | every reachable state that has not ended has a step |
| Liveness.StepDecreases | internal/orchestrator/orchestrator.go:401-543 | every step lowers (ranges left, unsplit live tasks, attempts left, pending, activity), whatever the workers answer |
| Liveness.EveryRunEnds | internal/orchestrator/orchestrator.go:401-543 | there is no infinite run |
| Rejections.NoRejection | internal/workerserver/server.go:44-47 | without lost calls a worker held idle is idle, and no dispatch finds its server busy |
| Rejections.LoseBreaksAttendance | internal/worker/manager.go:293-299 | every lost call leaves a request or a process without its caller |
| Rejections.FaithfulIffAttended | internal/worker/manager.go:276-306 | in every state of a run each request and each process has its caller waiting if and only if the run has no lost call |
| Rejections.OneProcessPerServer | internal/workerserver/server.go:42-70 | in every run, with lost calls and late requests, a server runs at most one process |
| Coverage.OptimisticTaskCovers | internal/orchestrator/orchestrator.go:271-285 | a new task covers exactly its metric's samples in the range |
| Coverage.SubTasksCover | internal/orchestrator/orchestrator.go:376-395 | the sub-tasks of a split cover the parent's samples, each in exactly one |
| Coverage.ReplaceCovers | internal/orchestrator/orchestrator.go:510-511 | replacing a task by its sub-tasks keeps every sample in exactly one accounted task |
| Coverage.AddCovers | internal/orchestrator/orchestrator.go:173-190 | starting a range adds exactly its samples, each once |
| Coverage.StepCovers | internal/orchestrator/orchestrator.go:454-540 | every step keeps each sample taken up so far in exactly one accounted task, and unsplit tasks keep their first selector |
| Origins.RunOrigin | internal/orchestrator/orchestrator.go:279-281 | every task is about a metric discovered in one of the ranges |
| Scope.OnlyWantedIff | internal/orchestrator/orchestrator.go:563-582 | for any plain filter: a range takes up only wanted samples, whatever the source holds, if and only if the dropped matchers do not tell candidates of one metric apart |
| Scope.UnwantedIsTakenUp | internal/orchestrator/orchestrator.go:573-577 | where they do, a sample the filter rejects is taken up with a wanted one of its metric |
| Scope.NamesOnlyDecides | internal/orchestrator/orchestrator.go:573-577 | they do not when every dropped matcher is on the label `__name__` itself, whatever its operator and pattern |
| Scope.NamesOnlyIffNameLabel | internal/orchestrator/orchestrator.go:573-577 | one dropped matcher with any operator passes that check if and only if its label is `__name__` |
| Scope.OnlyWantedIffNamesOnly | internal/orchestrator/orchestrator.go:563-582 | for any plain filter: over all sources and readers a range takes up only wanted samples if and only if every dropped matcher is on the label `__name__`, or no series can be wanted at all |
| Migration.ScopeIsWanted | internal/orchestrator/orchestrator.go:142-190 | the ranges take up every wanted sample, and under that condition no other |
| Migration.NothingLostOrDoubled | internal/orchestrator/orchestrator.go:401-543 | in every reachable state each sample taken up is in exactly one accounted task |
| Migration.FinishedExactlyOnce | internal/orchestrator/orchestrator.go:142-207 | at the end each wanted sample is in exactly one succeeded or abandoned task, no other sample in any |
| Migration.NothingWantedIsLost | internal/orchestrator/orchestrator.go:142-207 | at the end no wanted sample is lost, whatever the dropped matchers are |
| Migration.MaximalRunHasEnded | internal/orchestrator/orchestrator.go:142-207 | a run that cannot go on, late requests having arrived or vanished, has done all ranges and left nothing behind |
| Answers.GivenUpIsUnanswered | internal/orchestrator/orchestrator.go:464-533 | an abandoned or replaced task was never answered with success |
| Answers.AnsweredAtMostOnce | internal/orchestrator/orchestrator.go:401-543 | in any run the successful answers of a task are one if some call of it succeeded and none otherwise |
| Answers.DoneIsAnsweredOnce | internal/orchestrator/orchestrator.go:464-482 | at the end exactly the done tasks were answered with success, each once |
| Transfers.BytesAreCarried | internal/orchestrator/orchestrator.go:442-482 | in any run the bytes of a task, in its goroutine, the channel, the coordinator's hand or the queue, are those of its successful answers |
| Transfers.DoneHasItsBytes | internal/scheduler/task.go:91-110 | at the end a task that was answered with success is done and has the bytes of that answer |
| Transfers.TotalIsReported | internal/scheduler/task.go:179-188 | at the end the total of bytes is the sum of the bytes of all successful answers of the run |
| Deliveries.DeliveredOnce | internal/orchestrator/orchestrator.go:142-207 | at the end a sample was delivered by one successful answer if it is wanted and its task not abandoned, and by none otherwise |
| Starts.RequestsAreConserved | internal/workerserver/server.go:42-70 | in any run the dispatches of a task are the processes begun for it, the requests turned away or lost for good, and those under way |
| Starts.SentWithinAttempts | internal/scheduler/task.go:124-138 | in any run at most max(1, MaxRetries) processes are begun for a task |
| Starts.SentAsDispatched | internal/orchestrator/orchestrator.go:401-543 | at the end of a run without lost calls a task was sent once per dispatch, and a done one once more than it had failed |
| Sends.AtMostTwoTasks | internal/orchestrator/orchestrator.go:489-516 | in every reachable state at most two tasks ever covered a sample, for a split is not split again |
| Sends.SampleIsSentAtMost | internal/orchestrator/orchestrator.go:401-543 | in any run at most 2 * max(1, MaxRetries) processes are begun for the tasks that cover a sample |
| Scenarios.DoneAndStillSent | internal/worker/manager.go:293-299 | with one worker, one range of one metric and a retry, an ended migration is reached whose only task is done while its server runs vmctl for it again |
| Orchestrator.Orchestrator.CreateTasksForMetric | internal/orchestrator/orchestrator.go:271-285 | a pending task under the next id with the optimistic selector of the metric, the range's times and no failure yet |
| Orchestrator.Orchestrator.ResplitFailedTask | internal/orchestrator/orchestrator.go:331-398 | sub-tasks come under the next ids, with the parent's metric and times and the true count of series, follow a frugal plan, and only for a metric above its limit, two or more, and are pieces of a split where the printed selectors say what is meant; then some exactly when the task must be split; none when the fast count is within the limit; otherwise, when only `__name__` is excluded, some if and only if the metric exceeds the limit; never more sub-tasks than series |
| Orchestrator.BelowLimitMustSplitIff | internal/orchestrator/orchestrator.go:349-371 | when only `__name__` is excluded and the fast count is not within the limit, a task must be split if and only if its metric exceeds the limit |
| Orchestrator.Orchestrator.TryResplit | internal/orchestrator/orchestrator.go:503-511 | replaces the task by its pieces, always when it must be split, and only when there are pieces |
| Orchestrator.Orchestrator.HandleFailure | internal/orchestrator/orchestrator.go:483-530 | a failed task is replaced by its split or its failure is counted; it is split only once and on a cardinality error, and always when it must be split then |
| Orchestrator.Orchestrator.HandleOutcome | internal/orchestrator/orchestrator.go:464-533 | what an outcome does to queue and counter is a handling step of the protocol, with a split whenever one is due |
| Orchestrator.Orchestrator.HandleResult | internal/orchestrator/orchestrator.go:464-533 | what the result loop does with a result is a handling step of the protocol; the result is settled as in `Ownership.HandleSettles`, bytes and error text included, and a task whose split is due is replaced and in no list afterwards |
| Orchestrator.Orchestrator.DispatchNext | internal/orchestrator/orchestrator.go:421-448 | dispatching, interleaved with any moves of the others, follows the protocol to the loop head, where nothing is pending or every worker is busy |
| Orchestrator.Orchestrator.Await | internal/orchestrator/orchestrator.go:455-462 | the receive always comes to a result, under any interleaving |
| Orchestrator.Orchestrator.ExecuteTasks | internal/orchestrator/orchestrator.go:401-543 | it terminates under any interleaving and outcome, following the protocol until the queue is complete |
| Orchestrator.Orchestrator.FilterMetrics | internal/orchestrator/orchestrator.go:637-656 | exactly the metrics that are not excluded |
| Orchestrator.Orchestrator.RunRange | internal/orchestrator/orchestrator.go:142-207 | one range from idle to idle |
| Orchestrator.Orchestrator.Run | internal/orchestrator/orchestrator.go:142-207 | all ranges, for any filter and values; where the selectors say what is meant, every wanted sample is in exactly one finished task of the queue left behind |
| Orchestrator.Migrate | internal/orchestrator/orchestrator.go:81-207 | the whole program, from cutting the interval on: it ends in a reachable final state whose queue object is complete and accounts for every wanted sample once |

## Left out

- HTTP, JSON and authentication of the discovery client: discovery is a function of the source.
- Failing discovery: a remainder count that fails and is only logged (internal/splitter/splitter.go:166-167) would lose series; a range whose metrics cannot be discovered is skipped by the code.
- A source that changes during the migration.
- Rounding of the float64 scores, and the preferred-label order of the candidates (internal/splitter/splitter.go:207-228): the score sorts them again, and which of several best candidates comes first is open.
- A database that unescapes quoted strings: quoted content is read verbatim, as the code prints it. `Patterns` states for which values that makes no difference.
- Matchers other than equality and patterns of literals, dots and bars: an arbitrary function of the matcher and the label's value decides them, the same one everywhere; so the anchors, repetitions, groups and classes of regular expressions are not interpreted. Matchers with single-quoted or back-quoted strings are not plain.
- The database's error for text that is no selector: such text has an arbitrary reading, the same for every series, and no theorem about samples covers it.
- The inclusive end of the range given to vmctl: a task covers the half-open interval of its range.
- The exclude patterns' regular expressions: an arbitrary predicate says which metrics are kept.
- isCardinalityRelatedError: whether an error text is about cardinality is an arbitrary boolean of the outcome.
- The fast count's query (internal/discovery/client.go:266-270): its answer, or failure, is an arbitrary function of the task's id and its failures so far.
- Context cancellation, signals and dry run.
- State file, progress log, report, metrics, wall-clock fields and log output.
- Kubernetes deployment, gRPC dialing, vmctl arguments and the vmctl process with its log parsing: a worker is its gate and an arbitrary outcome.
- Mutexes: a locked section is one atomic step.
- Moves of the goroutines in the middle of handling one result: they happen before or after it; they touch neither the queue nor the counter.
- Integer overflow of counts, attempts and the task counter: all are unbounded here.
- Time zones with daylight saving: instants are seconds in UTC and the calendar is proleptic Gregorian.
- The algorithm of sort.Slice: an insertion sort stands for it; the contract leaves the order of equal counts open.
