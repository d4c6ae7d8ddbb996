# ControlSphere: a verified model of the job orchestrator, the analytics and the notification logic

ControlSphere manages a fleet of machines: agents report metrics and security events, a server runs commands on
many machines at once, matches installed packages against CVEs and sends notifications. This project models the
parts of it whose correctness depends on state, order or arithmetic, and proves what they are meant to guarantee.

## How the model is built

- **Bulk jobs** (`JobMachine`, `JobAbort`, `JobParallel`, `JobRolling`, `JobProgress`, `JobOnce`, `JobSchedules`,
  `JobCounterexamples`, `JobExactly`, `JobTwice`, `JobThreshold`, `JobCauses`, `JobUpkeep`, `JobSettled`,
  `JobOrchestrator`).
  Every stretch of the orchestrator's code between two awaits is one atomic step. The outstanding awaits are the
  multiset `pending`: a database operation first takes effect (`Commit`), and only later does the waiting code go on
  (`Resume`), so every interleaving is a run. `JobOrchestrator.Orchestrator` is the object itself; each of its methods
  is proved equal to one step function, and the theorems are about all runs of those steps. One job is modelled;
  jobs share nothing but maps keyed by job and execution id. `log` and `completions` record dispatches and calls of
  `completeJob`.
- **Disconnects** (`Disconnect`, `DisconnectHistory`, `DisconnectTracker`): the handling of command output and of lost agents, with a
  clock, the 15 s grace timers and the 60 s memory of completed executions.
- **Analytics** (`Regression`, `RegressionMeaning`, `Bollinger`, `Forecast`) over exact reals. `exp` is any positive function, `sqrt` any
  function returning the non-negative root, `Array.prototype.sort` any function that sorts.
- **CVE matching** (`OsvRange`, `OsvLists`, `Matcher`, `MatchTable`, `Scanner`): `compareVersions` is any total preorder;
  lower-casing, the manager table, version equality and the answers to the text query are arbitrary functions.
- **Notifications** (`RateLimit`, `Digest`, `DigestRepeats`, `Schedule`): `RateLimit` and `Digest` are classes over the shared counters
  and buffer, with theorems about whole runs.
- **Agent, cache, export** (`Suppression`, `StateCache`, `CacheRefresh`, `Csv`).
- `Chunks` and `Wrappers` hold what several of these share.

## What the proofs brought to light

- In rolling mode an offline machine never appears in `running`, so a wave of two or more can be evaluated before all
  its executions are settled, and once for each of them. `JobExactly` says which jobs are safe however their machines
  behave, as long as each execution finishes once: the waves form a barrier exactly if every wave has one execution;
  the failure threshold binds exactly if every wave has one execution or the threshold is 100 percent; no wave is
  passed over exactly if there is no pause between waves or no wave but the last has more than one execution. Each
  failing half is a run built step by step for every job it concerns (`JobSchedules`, `JobCounterexamples`).
  `JobRolling` shows what holds for larger waves if their machines are online and accept the command (`CleanStep`).
- A rolling job that nobody aborts, under `CleanStep`, ends aborted exactly if one of its waves has more failures than
  the threshold allows (`JobThreshold.AbortedExactly`). Whatever the machines do, every status in the database was caused
  by a step that stands for it (`JobCauses.StatusHasCause`).
- An execution is stored as FAILED only with a failing result, or after its agent was lost for 15 seconds without any
  output (`DisconnectHistory.FailedHasReason`).
- If an execution can finish twice, as one does whose late result arrives during the grace timer's callback, no rolling
  job keeps its barrier in all runs, single waves included (`JobTwice.NeverSafe`).
- A recorded SUCCESS is final exactly if no grace callback is about to overwrite it: one that has decided to write
  FAILED, or has read a status that is not final, or would read one now (`Disconnect.SuccessSurvivesExactly`); a run
  that loses a SUCCESS this way is given (`Disconnect.SuccessCanBeLost`). The later `clearTimeout` at
  server/src/lib/orchestrator.js:532 never has a timer to clear, because line 490 already removed it.
- The single pass over OSV events agrees with the evaluation algorithm of the OSV Schema exactly if no `fixed`
  version repeats an earlier `last_affected` version without being introduced again (`OsvRange.ScanMeetsSchema`).
  On any list of events, also one the schema does not allow, `OsvLists.ScanExactly` says what the pass answers.
- For every window size, Bollinger bands hold three quarters of every window with values from a given set exactly if
  the set lies between 0 and 110, the clamp itself; a flat window outside that range lies wholly outside its band.
- The rate limiter's worst closed hour has 19 mails, not 20: the mail that opens a window lies outside any hour that
  reaches the next one (`RateLimit.NineteenPerHour`, reached by `RateLimit.NineteenReached`).
- A digest delivery leaves nothing unreported exactly if it removes nothing that was queued after every delivered mail,
  its own included, was prepared (`Digest.DeliveryExactly`). Sends that do not overlap always meet this
  (`Digest.SoloIsSafe`); overlapping ones, which arise when the recipient list is empty and both
  server/src/lib/notification-service.ts:538 and :553 schedule a timer, may not (`Digest.OverlapLoses`).
- A digest removes as many items from the buffer as its mail has, although deduplication may have dropped some of them.
  If and only if it did, the newest items of the snapshot stay and are mailed again (`DigestRepeats.MailedAgainExactly`).
- `sevOrder[severity]` finds inherited properties, so a severity named "constructor" is looked up as a function.
  Warming the cache and refreshing it agree on the rank of the severity shown exactly if such a name does not come first
  or nothing is ranked above zero, and on its name exactly under a similar condition (`StateCache.RanksAgreeExactly`,
  `StateCache.NamesAgreeExactly`).
- Refreshes of one machine that overlap may store their answers in any order; the cache ends up accurate in every order
  exactly if each answer on its way is accurate for the events as they are now (`CacheRefresh.AnyOrderExactly`).
- The digest search finds the next slot at all times and for all weekdays exactly if the configured time lies within one
  day; the settings store hours outside 0 to 23 unchanged (`Schedule.EarliestExactly`).
- For points out of order the trend line's loop ends exactly if the extrapolation fraction is above -1 - 1/(n-1)
  (`Forecast.BuildTrendLine`, `Forecast.NeverStops`).
- A printed table reads back exactly if its last row is not one single empty field, which seven columns rule out.

## Model

| member | source | states |
|---|---|---|
| JobMachine.NormalizeConcurrency | server/src/lib/orchestrator.js:243-248 | the effective concurrency lies between 1 and 50, and is the requested one if that does; negative requests give 1, absent, zero or larger ones 50 |
| JobMachine.BatchSize | server/src/lib/orchestrator.js:321-328 | a wave is never larger than the job and never empty while there are targets; a given size is used as far as it fits, a percentage gives the largest whole size within it, but at least 1; with neither, waves of one |
| JobMachine.NormalizeThreshold | server/src/lib/orchestrator.js:252-254 | the effective threshold lies between 1 and 100 percent, and is the requested one if that does; 0 and nothing mean none |
| Chunks.ChunkArray | server/src/lib/orchestrator.js:330-336 | the pieces put together are the list; all have the given size, except that the last may be shorter; none is empty |
| JobOrchestrator.Orchestrator.StartJob | server/src/lib/orchestrator.js:262-304 | the whole initial state; in rolling mode the targets are cut into waves of the computed size |
| JobOrchestrator.Orchestrator.FillParallel | server/src/lib/orchestrator.js:338-355 | the loop leaves the object in the state the step function says |
| JobOrchestrator.Orchestrator.RunRollingBatch | server/src/lib/orchestrator.js:357-368 | dispatches every execution of the current wave in order, or completes the job |
| JobOrchestrator.Orchestrator.DispatchExecution | server/src/lib/orchestrator.js:370-410 | the synchronous part up to the first await, for online and offline machines, and nothing once aborted |
| JobOrchestrator.Orchestrator.CommandSent | server/src/lib/orchestrator.js:425-448 | a command that was not accepted leaves `running` and starts the FAILED write |
| JobOrchestrator.Orchestrator.OnExecutionFinished | server/src/lib/orchestrator.js:586-607 | refills in parallel mode; evaluates the current wave in rolling mode once none of it runs |
| JobOrchestrator.Orchestrator.EvaluateRollingBatch | server/src/lib/orchestrator.js:609-617 | starts the count of the wave, unless aborted |
| JobOrchestrator.Orchestrator.EvaluationCounted | server/src/lib/orchestrator.js:618-641 | aborts a job that is not aborted exactly if a threshold is given and failures times 100 exceed the threshold times the rows counted; otherwise the next wave now or after the pause, or completion |
| JobOrchestrator.Orchestrator.IdsToSkip | server/src/lib/orchestrator.js:651-654 | the queue and the waves above the current one |
| JobOrchestrator.Orchestrator.AbortRemaining | server/src/lib/orchestrator.js:643-659 | sets `aborted`, clears the wave timer set last unless it was cleared before, and starts skipping those ids |
| JobOrchestrator.Orchestrator.CompleteJob | server/src/lib/orchestrator.js:676-706 | counts the call and starts the final status update, if the job still exists |
| JobOrchestrator.Orchestrator.Continue | server/src/lib/orchestrator.js:304-448 | the code behind each await of a job does what the corresponding step says |
| JobOrchestrator.Orchestrator.Drive | server/src/lib/orchestrator.js:262-720 | whatever the event loop delivers, the object moves along a run of the machine, so all theorems about runs hold of it |
| JobAbort.ReachableGeneral | server/src/lib/orchestrator.js:338-383 | in every reachable state, in both modes: queue duplicate-free and disjoint from the dispatched, every undispatched execution queued until an abort, SKIPPED only for undispatched executions of aborted jobs |
| JobAbort.LaterWavesAreQueued | server/src/lib/orchestrator.js:651-654 | the wave slices above the current one are always contained in the queue, which is exactly the undispatched set |
| JobAbort.AbortIsExact | server/src/lib/orchestrator.js:643-662 | once the update is through, the ids marked SKIPPED are exactly those never dispatched; no assumption on machines |
| JobAbort.AbortKeeps | server/src/lib/orchestrator.js:651-659 | at the first abort the computed ids are the queue and are the undispatched executions |
| JobAbort.AbortFreezes | server/src/lib/orchestrator.js:339-372 | after an abort no step dispatches anything or adds to `running` |
| JobAbort.NothingAfterAbort | server/src/lib/orchestrator.js:370-372 | the same over every continuation of a run |
| JobParallel.CapAndOrder | server/src/lib/orchestrator.js:338-350 | in every reachable state at most min(concurrency, 50) executions run, and dispatches followed by the queue are the target list: each leaves it once and in order |
| JobParallel.NormalizedCap | server/src/lib/orchestrator.js:243-248 | with the normalised strategy the cap is the requested concurrency wherever that lies between 1 and 50, and the other theorems apply |
| JobParallel.CompletesWhenDrained | server/src/lib/orchestrator.js:352-354 | `completeJob` is called only with queue and running both empty |
| JobParallel.MeasureFalls | server/src/lib/orchestrator.js:347-350 | 2 times the queue length plus the number running never rises, and falls with every dispatch and every finish |
| JobParallel.QuietMeansDone | server/src/lib/orchestrator.js:586-607 | an unaborted job with nothing outstanding has dispatched every target and was completed |
| JobRolling.Barrier | server/src/lib/orchestrator.js:357-383 | waves run in order, each execution at most once; `running` lies in the current wave; earlier waves are settled, later ones still queued |
| JobRolling.BudgetGrows | server/src/lib/orchestrator.js:618-627 | a wave that passes the threshold test keeps the sum of all waves so far within the threshold |
| JobRolling.FailureBudget | server/src/lib/orchestrator.js:609-634 | a completed rolling job has settled every target, with failures times 100 at most the threshold times all targets |
| JobRolling.QuietMeansDone | server/src/lib/orchestrator.js:598-641 | under `CleanStep`, a rolling job with nothing outstanding was aborted or has completed exactly once |
| JobThreshold.CountedRows | server/src/lib/orchestrator.js:613-619 | the count of an evaluation is the number of the wave's executions and of those among them that are FAILED |
| JobThreshold.CountedAborts | server/src/lib/orchestrator.js:618-630 | resuming that count aborts exactly if a threshold is given, the wave is not empty and failures times 100 exceed the threshold times the total; otherwise the next wave becomes the current one |
| JobThreshold.AbortHasReason | server/src/lib/orchestrator.js:618-628 | without a user's abort and under `CleanStep`, an aborted job has a dispatched wave whose failures times 100 exceed the threshold times its size |
| JobThreshold.AbortedExactly | server/src/lib/orchestrator.js:609-641 | such a job, once aborted or completed, was aborted if and only if some wave has too many failures |
| JobProgress.NeverStuck | server/src/lib/orchestrator.js:357-641 | without any assumption, a rolling job with nothing outstanding and nothing running was aborted or is over |
| JobCauses.StepMarks | server/src/lib/orchestrator.js:383-448 | in every state of every job, a step marks an execution with a new status, or starts the write of it, if and only if it is a report of that status, a command not accepted (FAILED), a dispatch to a connected (RUNNING) or unconnected (FAILED) machine, or an abort's update (SKIPPED) |
| JobCauses.StatusHasCause | server/src/lib/orchestrator.js:383-664 | on every run every status but PENDING was caused by such a step |
| JobCauses.SuccessWasReported | server/src/lib/orchestrator.js:507-544 | SUCCESS is stored only for an execution that was reported as a success |
| JobUpkeep.RunningCanReport | server/src/lib/orchestrator.js:406-425 | while the job exists, every execution in `running` can report either result, or its RUNNING status is still being written |
| JobUpkeep.ResultEndsReports | server/src/lib/orchestrator.js:535-545 | once the final status of a reported execution is stored, no further report of it is taken |
| JobUpkeep.SlotsAreFilled | server/src/lib/orchestrator.js:338-350 | a parallel job with executions waiting runs exactly the requested number, unless the write that ends one is still outstanding |
| JobUpkeep.AbortEmptiesQueue | server/src/lib/orchestrator.js:656-662 | once the code of the abort has run, the queue of an aborted job is empty on every run, and stays so |
| JobUpkeep.AbortStopsTimer | server/src/lib/orchestrator.js:646-649 | an abort of a live rolling job leaves no wave timer, under `CleanStep` |
| JobSettled.QuietMeansSettled | server/src/lib/orchestrator.js:338-448 | however often results are reported or the job is aborted: in a parallel job with nothing outstanding and nothing running exactly the dispatched executions are SUCCESS or FAILED, and all others SKIPPED |
| JobOnce.NormalizedThreshold | server/src/lib/orchestrator.js:203-254 | a job with targets, cut into waves, with a normalised threshold, is one of those the next results are about |
| JobOnce.SingleWavesAreClean | server/src/lib/orchestrator.js:383-448 | with waves of one execution, runs in which each execution finishes once need no assumption about the machines |
| JobExactly.BarrierExactly | server/src/lib/orchestrator.js:357-404 | the waves form a barrier in all runs in which each execution finishes once, if and only if every wave has one execution |
| JobExactly.BudgetExactly | server/src/lib/orchestrator.js:609-634 | every completed run keeps the failure threshold, if and only if every wave has one execution or the threshold is 100 percent; for jobs as `startJob` cuts them |
| JobExactly.WavesRunExactly | server/src/lib/orchestrator.js:629-640 | no wave of an unaborted job is ever passed over, if and only if there is no pause or no wave but the last has more than one execution |
| JobTwice.TwiceBreaksBarrier | server/src/lib/orchestrator.js:557-607 | with waves of one execution, two results of the first make the job go beyond its second wave while that is not settled |
| JobTwice.NeverSafe | server/src/lib/orchestrator.js:557-782 | if executions may finish twice, every rolling job has a run that breaks the barrier |
| JobCounterexamples.OfflineBreaksBarrier | server/src/lib/orchestrator.js:383-404 | every job with a wave of two or more, whatever its threshold, has a run that goes beyond that wave while one of its executions has no final status |
| JobCounterexamples.OfflineBreaksBudget | server/src/lib/orchestrator.js:609-634 | for every threshold below 100 percent, every job whose first wave has two or more has a completed run with more failures than the threshold allows |
| JobCounterexamples.OfflineDropsWave | server/src/lib/orchestrator.js:598-637 | with a pause, every job with a larger wave before the last, whatever its threshold, has a run on which a wave is passed over |
| JobCounterexamples.PassedWavesAreLost | server/src/lib/orchestrator.js:357-368 | an execution of a wave that was passed over is not dispatched later on any run |
| DisconnectTracker.Tracker.HandleCommandOutput | server/src/lib/orchestrator.js:490-505 | the handler up to its first await: timer cancelled, output append or completion started; what cancelling means is `DisconnectHistory.OutputCancelsTimer` |
| DisconnectTracker.Tracker.OutputAppended | server/src/lib/orchestrator.js:507-544 | completion part: remembered for 60 s, status write started |
| DisconnectTracker.Tracker.HandleAgentDisconnect | server/src/lib/orchestrator.js:726-793 | for every execution of the machine: skip, drop as completed, or start one 15 s timer |
| DisconnectTracker.Tracker.TimerFired | server/src/lib/orchestrator.js:745-758 | both kinds of timer do what the step says, including the check of the memory |
| DisconnectTracker.Tracker.Continue | server/src/lib/orchestrator.js:546-782 | the code behind each await, including the final-status check before the overwrite |
| DisconnectTracker.Tracker.Drive | server/src/lib/orchestrator.js:454-793 | whatever the environment delivers, the object moves along a run of the machine |
| Disconnect.StepKeeps | server/src/lib/orchestrator.js:526-546 | every step keeps the bookkeeping invariant: a completion is remembered longer than any grace timer of that execution can run |
| DisconnectHistory.OutputCancelsTimer | server/src/lib/orchestrator.js:490-494 | in every reachable state, after any output of an execution its entry names no timer, none of its grace timers is left, and all other timers go on |
| DisconnectHistory.CallbackAfterSilence | server/src/lib/orchestrator.js:734-793 | on every run, the callback of a grace timer starts only if the agent of the execution was lost at least 15000 ms before, with no output of the execution since |
| DisconnectHistory.FailedHasReason | server/src/lib/orchestrator.js:745-772 | an execution is stored as FAILED only with a failing result, or after such a callback |
| DisconnectHistory.NoCompletionLost | server/src/lib/orchestrator.js:496-544 | on every run, once the output that came with it is stored, a result is recorded for an execution with a status if and only if a message carried that status as its completion |
| DisconnectHistory.ForgottenLate | server/src/lib/orchestrator.js:527-529 | a completion is forgotten at least 60000 ms after it was recorded |
| DisconnectHistory.LossArms | server/src/lib/orchestrator.js:734-791 | a lost agent's execution without a timer gets one of 15000 ms, or leaves the map if it is completed |
| DisconnectHistory.CallbackEnds | server/src/lib/orchestrator.js:745-782 | a timer that fires for a completed execution, a final status read back, and the end of either write take the execution out of flight and write nothing |
| DisconnectHistory.GraceComesToAnEnd | server/src/lib/orchestrator.js:745-791 | an entry that names a timer has that grace timer running, due within 15000 ms, or its callback under way |
| Disconnect.SealedStep | server/src/lib/orchestrator.js:734-772 | no step starts a FAILED write for a recorded execution that no callback is about to overwrite |
| Disconnect.RecordedIsFinal | server/src/lib/orchestrator.js:526-546 | from then on every run leaves its status at the recorded SUCCESS or FAILED |
| Disconnect.CallbackOverwrites | server/src/lib/orchestrator.js:754-772 | a callback that is about to overwrite can do so: from every such state a run ends with FAILED |
| Disconnect.CallbackReachable | server/src/lib/orchestrator.js:726-758 | such a state is reached by a dispatch, a lost agent, the 15 s timer and a late SUCCESS |
| Disconnect.SuccessCanBeLost | server/src/lib/orchestrator.js:745-772 | so some run from the start ends with FAILED for an execution that reported SUCCESS |
| Disconnect.SuccessSurvivesExactly | server/src/lib/orchestrator.js:745-772 | in every reachable state, a SUCCESS being recorded survives every continuation if and only if no callback is about to overwrite it |
| Regression.LeastSquaresIsBest | server/src/lib/analytics.ts:91-109 | no line has a smaller weighted squared error than the fitted one, and no other line has the same |
| Regression.ErrorExpands | server/src/lib/analytics.ts:94-118 | the error of any line is a function of the centred sums, its slope and its distance from the point of means |
| Regression.VarianceSplits | server/src/lib/analytics.ts:94-117 | SSres is SStot minus Sxy squared over Sxx, and lies between 0 and SStot |
| Regression.ClampIdle | server/src/lib/analytics.ts:117 | the clamp to [0,1] never changes the explained fraction |
| Regression.WeightsDecay | server/src/lib/analytics.ts:85-88 | in chronological data weights never fall towards the present; the newest is exp(0), the oldest exp(-3) |
| RegressionMeaning.WeightsAt | server/src/lib/analytics.ts:79-88 | the weight of every point is exp(a) for the a with a (t_last - t_first) = 3 (t_i - t_last), on the points' own times; with t_i - t_last in hours, times 3, where the two coincide |
| RegressionMeaning.HasExponent | server/src/lib/analytics.ts:84-88 | there is such an a for every point |
| RegressionMeaning.HoursAt | server/src/lib/analytics.ts:79-82 | hours count from the first point, 3600000 ms each; values are the points' usages |
| RegressionMeaning.SquaredErrorSnoc | server/src/lib/analytics.ts:111-116 | a further point adds its weight times the square of its distance from the line |
| RegressionMeaning.WeightedSumSnoc | server/src/lib/analytics.ts:91-92 | a further point adds its weight times its value to a weighted sum |
| RegressionMeaning.SumSnoc | server/src/lib/analytics.ts:89 | a further weight adds itself to the total |
| RegressionMeaning.MeanBalances | server/src/lib/analytics.ts:91-92 | the mean is the one value that gives the weighted sum when multiplied with the total weight |
| Regression.CalculateWeightedRegression | server/src/lib/analytics.ts:73-120 | null exactly for fewer than three points or equal times; otherwise the unique best line, with r2 the fraction of the flat line's error that it explains |
| Bollinger.ComputeSMAWindow | server/src/lib/analytics.ts:156-162 | for fewer than 12 points a quarter of them, rounded up, but at least 2; otherwise 12, 24, 48 or 72 for up to one day, one week, 30 days and more; in short ranges never more than there are points |
| Bollinger.CalculateSMA | server/src/lib/analytics.ts:164-179 | the sliding sum gives exactly every full window's mean, and null before |
| Bollinger.BandHoldsThreeQuarters | server/src/lib/analytics.ts:189-202 | at least three quarters of a window's values lie inside its clamped band, for values between 0 and 110 |
| Bollinger.FlatBand | server/src/lib/analytics.ts:189-202 | a flat window has its value as mean and no variance; its band is the clamped value |
| Bollinger.ClampExcludesOutliers | server/src/lib/analytics.ts:199-200 | a flat window of any size below 0 or above 110 lies wholly outside its band |
| Bollinger.BandHoldsExactly | server/src/lib/analytics.ts:189-202 | for every window size: three quarters of every window with values from a set lie inside, if and only if the set lies in [0,110] |
| Bollinger.BandIs | server/src/lib/analytics.ts:189-202 | both bounds for the one sigma >= 0 whose square times the window size is the sum of squared distances from the window mean |
| Bollinger.BandWidth | server/src/lib/analytics.ts:194-201 | where 0 < lower and upper < 110: upper + lower is twice the mean, upper >= lower, and the squared width times the window size is 16 times the sum of squared distances |
| Bollinger.OneDeviation | server/src/lib/analytics.ts:194-195 | there is only one such sigma |
| Bollinger.RangeSumSnoc | server/src/lib/analytics.ts:173-176 | a further value adds itself to a window's sum |
| Bollinger.SquareSumSnoc | server/src/lib/analytics.ts:194 | a further value adds the square of its distance from the mean |
| Bollinger.InsideIs | server/src/lib/analytics.ts:189-202 | the number of values inside is the number of positions whose value lies between the bounds |
| Bollinger.CalculateBollinger | server/src/lib/analytics.ts:184-204 | none before the first full window; then, for the window's mean and standard deviation sigma, the bounds mean + 2 sigma and mean - 2 sigma where these lie within 110 and 0, and 110 and 0 where not; and the three-quarters bound throughout |
| Forecast.OneCrossing | server/src/lib/analytics.ts:249-254 | the slope and the time of a crossing are determined by the data |
| Forecast.ForecastThreshold | server/src/lib/analytics.ts:229-264 | a forecast exactly if six hours of data admit a crossing: starting at the newest reading with the least squares slope, reached at the returned hour, not past, within ten spans; all of it also in milliseconds, 21600000 for six hours and 86400000 for a confident forecast |
| Forecast.CrossesMeans | server/src/lib/analytics.ts:239-256 | what a crossing is, in milliseconds of the points' own times |
| Forecast.BuildTrendLine | server/src/lib/analytics.ts:324-351 | whenever the loop stops: for chronological data evenly spaced points strictly before the end, then exactly the end; values on the line, never negative; nothing for data out of order |
| Forecast.TrendOnLine | server/src/lib/analytics.ts:344-347 | the value at a time is slope times the hours since the origin plus the intercept, and 0 where that is negative |
| Forecast.StepsOfData | server/src/lib/analytics.ts:331-340 | the step times the number of gaps is the time the data spans, and the line goes on for the given fraction of it |
| Forecast.NeverStops | server/src/lib/analytics.ts:341-348 | in the one remaining case, data out of order and a fraction of at most -1 - 1/(n-1), every turn leads to another |
| Forecast.OneCover | server/src/lib/analytics.ts:341-348 | only one list of timestamps does that |
| Forecast.CalculatePercentile | server/src/lib/analytics.ts:269-278 | the result is one of the values; at most p(n-1) values are below it and more than that many are at most it, or all are; undefined exactly for a negative percentile of two or more values |
| Forecast.CountIs | server/src/lib/analytics.ts:275-277 | counting from the front gives the number of positions whose value is below, or at most, the given one |
| OsvRange.IsVersionInRange | server/src/services/vulnerability-scanner.ts:117-157 | the loop computes the single pass, on every event list; the schema's answer on ordered ranges without a clash |
| OsvRange.ScanIsIntervals | server/src/services/vulnerability-scanner.ts:122-154 | on alternating ranges the pass finds exactly the versions inside one of the intervals |
| OsvRange.ScanMeetsSchema | server/src/services/vulnerability-scanner.ts:117-157 | on ordered ranges pass and schema agree on all versions if and only if there is no clash |
| OsvRange.Agreement | server/src/services/vulnerability-scanner.ts:117-157 | on ordered ranges without a clash pass and schema give every version the same answer |
| OsvRange.DisagreementIsClash | server/src/services/vulnerability-scanner.ts:136-146 | where they differ, the pass says affected and the range has a clash |
| OsvRange.ClashDisagrees | server/src/services/vulnerability-scanner.ts:136-146 | at a clash the pass reports the last affected version, the schema does not |
| OsvRange.ClashingRange | server/src/services/vulnerability-scanner.ts:136-146 | a concrete range of four events on which they disagree |
| OsvRange.IncreasingHasNoClash | server/src/services/vulnerability-scanner.ts:125-157 | versions that strictly increase never clash |
| OsvLists.ScanExactly | server/src/services/vulnerability-scanner.ts:117-157 | on every list of events, in order or not, with null or empty versions or several in one event: the pass says affected if and only if some event closes an interval that holds the version, or one that holds it is open at the end |
| Matcher.IsPackageAffectedByEntries | server/src/services/vulnerability-scanner.ts:178-211 | true exactly if some entry has the package's lower-case name, no ecosystem that differs from the package's where both are given, and lists the version, or has a range whose pass holds it, or says nothing of versions |
| Matcher.EntryMeans | server/src/services/vulnerability-scanner.ts:184-207 | the same for one entry, over lower-casing, the manager table, version equality and the pass alone |
| Matcher.OtherEcosystemIgnored | server/src/services/vulnerability-scanner.ts:188-194 | an entry of another ecosystem, both given, might as well not be there |
| Matcher.SameEcosystemAffects | server/src/services/vulnerability-scanner.ts:184-207 | an entry of the same ecosystem and name that says nothing of versions affects every version |
| Matcher.UnknownManagerMatchesAll | server/src/services/vulnerability-scanner.ts:189-194 | where the manager has no ecosystem, the entry's does not matter |
| Matcher.NoEcosystemMatchesAll | server/src/services/vulnerability-scanner.ts:189-194 | where no entry names an ecosystem, the manager does not matter |
| Matcher.IndexByName | server/src/services/vulnerability-scanner.ts:286-306 | every wanted name is mapped to the CVEs that mention it, once each and in order |
| Matcher.IndexLosesNothing | server/src/services/vulnerability-scanner.ts:311-318 | looking only at the CVEs filed under a package's name gives the same hits as looking at all |
| Chunks.ChunkShort | server/src/services/vulnerability-scanner.ts:217-224 | the pieces put together are the list, none longer than the size |
| MatchTable.FindAll | server/src/services/vulnerability-scanner.ts:243-250 | reading in chunks gives every wanted package exactly its stored rows |
| MatchTable.CreateAll | server/src/services/vulnerability-scanner.ts:352-359 | inserting in chunks adds exactly the new pairs; the unique constraint is never violated |
| MatchTable.DeleteAll | server/src/services/vulnerability-scanner.ts:361-367 | deleting in chunks removes exactly the stale rows, and reports how many |
| Scanner.NamesOfIs | server/src/services/vulnerability-scanner.ts:234-241 | the names asked for are the lower-case package names, each once |
| Scanner.FetchCves | server/src/services/vulnerability-scanner.ts:259-283 | of the answers for pieces of 200 names, the first CVE of every id |
| Scanner.FirstByIdIs | server/src/services/vulnerability-scanner.ts:276-280 | no fetched id is lost and none is kept twice |
| Scanner.FirstIsKept | server/src/services/vulnerability-scanner.ts:276-280 | of each id the first fetched CVE is kept |
| Scanner.FirstByIdGrows | server/src/services/vulnerability-scanner.ts:276-283 | later answers only add CVEs at the end |
| Scanner.AnswersIff | server/src/services/vulnerability-scanner.ts:259-275 | what is fetched is what the queries for non-empty pieces answer |
| Scanner.FetchMissesNothing | server/src/services/vulnerability-scanner.ts:259-283 | if each query answers the stored CVEs that mention one of its names, a scan accepts exactly the pairs that the check against all stored CVEs accepts |
| Scanner.KeyDetermines | server/src/services/vulnerability-scanner.ts:324-327 | the joined key tells pairs apart, since package ids hold no colon |
| Scanner.AllMissingIff | server/src/services/vulnerability-scanner.ts:317-329 | the inserted pairs are exactly the accepted ones that are not stored |
| Scanner.AllMissingNoDup | server/src/services/vulnerability-scanner.ts:324-329 | no pair is inserted twice |
| Scanner.AllStaleIff | server/src/services/vulnerability-scanner.ts:343-347 | the deleted rows are exactly the rejected ones of scanned packages |
| Scanner.AllPairsIff | server/src/services/vulnerability-scanner.ts:331-340 | the reported matches are exactly the accepted pairs |
| Scanner.AllPairsAt | server/src/services/vulnerability-scanner.ts:311-340 | matches are reported package by package |
| Scanner.HitsAt | server/src/services/vulnerability-scanner.ts:317-322 | and for each package CVE by CVE |
| Scanner.ScanPackages | server/src/services/vulnerability-scanner.ts:226-370 | for the CVEs that the queries for these packages return: matches equal the all-pairs check in order; the table keeps the right rows as they were and gains the missing pairs; the counts are those of the changes |
| Scanner.StoredPairsAreTruth | server/src/services/vulnerability-scanner.ts:226-370 | afterwards the stored pairs of scanned packages are exactly those the all-pairs check accepts |
| Scanner.OthersUntouched | server/src/services/vulnerability-scanner.ts:243-250 | rows of other packages are untouched |
| Scanner.SecondScanIdle | server/src/services/vulnerability-scanner.ts:349-369 | a reconciled table is not changed by reconciling it again: 0 created, 0 removed |
| Scanner.ScanTwice | server/src/services/vulnerability-scanner.ts:226-370 | an immediate second scan reports the same matches, creates 0 and removes 0 |
| RateLimit.RateLimiter.IsRateLimited | server/src/lib/notification-service.ts:42-55 | the decision and the whole counter map after it |
| RateLimit.MailsIs | server/src/lib/notification-service.ts:42-55 | the mails of a key in a period are the calls in it that were let through |
| RateLimit.TenPerWindow | server/src/lib/notification-service.ts:44-53 | over any chronological run a counter window lets through exactly as many mails as it counts, at most ten |
| RateLimit.RefusedAfterTen | server/src/lib/notification-service.ts:49-51 | a call is refused only in a window that already let ten mails through |
| RateLimit.NineteenPerHour | server/src/lib/notification-service.ts:42-55 | no closed hour of any run sees more than 19 mails of one key |
| RateLimit.NineteenReached | server/src/lib/notification-service.ts:42-55 | a run on which one hour sees exactly 19 |
| Digest.KeyMeans | server/src/lib/notification-service.ts:507 | two recurring items share a key exactly if they share event and machine |
| Digest.DeduplicateDigestItems | server/src/lib/notification-service.ts:489-519 | the reversed walk computes the items that no later one supersedes, in order |
| Digest.KeptExactly | server/src/lib/notification-service.ts:503-516 | kept are exactly all one-off items and the last of each key |
| DigestRepeats.KeptMeans | server/src/lib/notification-service.ts:489-517 | the dropped items are exactly those of six events with a later item of the same event and machine |
| Digest.KeptInOrder | server/src/lib/notification-service.ts:517 | in their old order |
| Digest.KeptAt | server/src/lib/notification-service.ts:489-519 | and as they were |
| Digest.DedupEarly | server/src/lib/notification-service.ts:489-519 | deduplicating a prefix first never changes the digest of the whole |
| Digest.DigestBuffer.BeginDigest | server/src/lib/notification-service.ts:521-530 | nothing for an empty buffer, otherwise a send has begun |
| Digest.DigestBuffer.PrepareDigest | server/src/lib/notification-service.ts:540-547 | the deduplicated snapshot of the buffer as it is by then goes out, buffer unchanged |
| Digest.DigestBuffer.DigestSent | server/src/lib/notification-service.ts:548 | the splice removes as many items as the mail had, as far as there are |
| DigestRepeats.MailedAgainExactly | server/src/lib/notification-service.ts:541-548 | if nothing else has left the buffer since its snapshot, a delivery removes as many items as its mail had; items of the snapshot stay in the buffer if and only if it repeats an event of a machine, and then its newest item, already mailed, is among them |
| Digest.DigestBuffer.Drive | server/src/lib/notification-service.ts:70-555 | whatever is queued, prepared, sent and failed, the buffer moves along a run |
| Digest.Represented | server/src/lib/notification-service.ts:489-519 | every item is kept itself, or a newer one with its key is |
| Digest.CarriedIsMailed | server/src/lib/notification-service.ts:541-547 | the item at a kept position of the snapshot is in the mail |
| Digest.DeliveryExactly | server/src/lib/notification-service.ts:541-548 | for all items: a delivery loses nothing, if and only if it removes nothing queued after every delivered mail, its own included, was prepared |
| Digest.NothingIsLost | server/src/lib/notification-service.ts:521-555 | over any run whose deliveries meet this, overlapping or not, every queued item is still buffered, was mailed, or is superseded by a newer mailed item |
| Digest.SoloIsSafe | server/src/lib/notification-service.ts:521-555 | every run of sends that do not overlap is such a run |
| Digest.SoloLosesNothing | server/src/lib/notification-service.ts:521-555 | so nothing is lost on it, and items queued between the check of the buffer and the delivery survive |
| Digest.OverlapLoses | server/src/lib/notification-service.ts:541-548 | two overlapping sends of one snapshot lose the item queued between |
| Schedule.MsUntilNextDigest | server/src/lib/notification-service.ts:469-482 | the loop computes the search, for all times and settings; the earliest strictly future slot on an allowed weekday, at most 7 days ahead, for a time within one day; one day if no weekday is allowed |
| Schedule.NextDigestIsEarliest | server/src/lib/notification-service.ts:469-482 | the search finds that slot |
| Schedule.Weekdays | server/src/lib/notification-service.ts:474-476 | weekdays follow one another day by day from the Thursday of the epoch |
| Schedule.SlotMeans | server/src/lib/notification-service.ts:469-476 | a slot is the configured hour and minute of a day with an allowed weekday |
| Schedule.EarliestExactly | server/src/lib/notification-service.ts:469-482 | it does so at all times and for all weekdays, if and only if the configured time lies within one day |
| Schedule.ClockHours | server/src/lib/notification-service.ts:469-472 | with a minute of 0 to 59, that means an hour of 0 to 23 |
| Schedule.EightSuffice | server/src/lib/notification-service.ts:474-480 | eight turns always find an allowed weekday |
| Suppression.Agent.FilterEvents | agent/main.go:476-491 | the loop reports the due events in order and remembers them |
| Suppression.Agent.Cleanup | agent/main.go:493-498 | exactly the entries older than 24 h are forgotten, in whatever order they are visited |
| Suppression.Agent.CheckAndReportSecurityEvents | agent/main.go:463-514 | one poll; nothing happens without events |
| Suppression.FilterSnoc | agent/main.go:476-491 | the reported events are those of the poll, messages included and in order, whose fingerprint has not occurred before in it and was not reported in the last hour |
| Suppression.PrunedMeans | agent/main.go:493-498 | the entries kept are exactly those of the last 24 hours, unchanged |
| Suppression.CleanupUnobservable | agent/main.go:493-498 | over any chronological run of polls the cleanup never changes what is reported |
| Suppression.ReportedExactly | agent/main.go:481-491 | a fingerprint is reported, once, exactly if it occurs and no poll of the past hour reported it |
| Suppression.HourApart | agent/main.go:484 | two reports of one fingerprint are more than an hour apart |
| StateCache.StateCache.WarmCache | server/src/lib/state-cache.ts:131-160 | all machines and no others; count and severity shown of each as its own events say; accurate |
| StateCache.GroupEvents | server/src/lib/state-cache.ts:131-140 | one pass over interleaved events gives every machine its own count and severity |
| StateCache.HighestOf | server/src/lib/state-cache.ts:260-265 | the first highest severity of the kind (ranked or inherited name) of the first |
| StateCache.SeverityOrder | server/src/lib/state-cache.ts:253 | critical, high, medium and low in this order, all above info and unknown names |
| StateCache.WorstIsShown | server/src/lib/state-cache.ts:131-265 | of the severities that agents report, warming and refreshing show the worst one |
| StateCache.StateCache.RefreshSecurityEvents | server/src/lib/state-cache.ts:231-237 | the summary of that machine is replaced, if it is cached; nothing else changes |
| StateCache.StateCache.RefreshSecurityCacheForMachine | server/src/lib/state-cache.ts:249-268 | one refresh undisturbed by others: count and severity of one machine; nothing else changes |
| StateCache.StateCache.WriteThrough | server/src/lib/state-cache.ts:244-268 | a write to one machine's events followed by its refresh keeps all counts right, and the cache accurate if and only if the machine is not cached or no inherited name comes first |
| StateCache.StateCache.UpsertMachine | server/src/lib/state-cache.ts:196-215 | registration keeps the summary of a known machine and starts a new one empty |
| StateCache.StateCache.DeleteMachine | server/src/lib/state-cache.ts:226-228 | only that machine goes; the cache stays accurate |
| StateCache.RanksAgreeExactly | server/src/lib/state-cache.ts:131-268 | warming and refreshing agree on the rank, in whatever order the rows arrive, if and only if no inherited name comes first in the refresh or nothing is ranked above zero |
| StateCache.NamesAgreeExactly | server/src/lib/state-cache.ts:134-262 | they show the same severity if and only if there is no event, or no inherited name comes first and some severity is ranked above zero, or the first is "info" |
| StateCache.InheritedHides | server/src/lib/state-cache.ts:260-265 | a severity named "constructor" before "critical" is shown by the refresh, "critical" by warming |
| CacheRefresh.FreshAnswer | server/src/lib/state-cache.ts:255-265 | an answer is accurate for the events it was asked of, if and only if no inherited name comes first |
| CacheRefresh.AnyOrderExactly | server/src/lib/state-cache.ts:255-267 | overlapping refreshes leave the cache accurate in every order of their updates, if and only if each answer on its way is accurate now |
| CacheRefresh.InOrderExactly | server/src/lib/state-cache.ts:255-267 | stored in the order of their queries, the last query after the last write: accurate, if and only if no inherited name comes first in the last answer |
| CacheRefresh.OvertakenRefresh | server/src/lib/state-cache.ts:255-267 | an older answer stored last leaves the cache inaccurate |
| Csv.FieldReadsBack | server/src/app/audit-logs/page.tsx:157-163 | an escaped value, whatever it holds, is read as one field with that value |
| Csv.QuotedOnlyIfNeeded | server/src/app/audit-logs/page.tsx:157-163 | a value is printed as it is exactly if it holds no comma, quote or line feed |
| Csv.PrintedTableReadsBack | server/src/app/audit-logs/page.tsx:157-168 | a table of non-empty rows reads back if and only if its last row is not one empty field |
| Csv.ExportReadsBack | server/src/app/audit-logs/page.tsx:145-168 | the export reads back as the seven headers and, for every entry in order, time, severity, action, event type, user, machine and details, empty where absent; for all strings |

## Left out

- Several jobs at once: they share only maps keyed by job and execution id.
- `state.counts` and the job's own status column: no decision reads the tallies, and `completeJob` can read the database before failures are written.
- Recovery of a missing command id by machine and the database fallback; a result is reported for an execution in flight.
- Strategies with fractional concurrency or batch sizes; whole numbers only.
- JobRolling.Barrier: assumes `CleanStep`; which jobs need no such assumption is `JobExactly.BarrierExactly`.
- JobRolling.FailureBudget: assumes `CleanStep`; which jobs need no such assumption is `JobExactly.BudgetExactly`.
- JobRolling.QuietMeansDone: assumes `CleanStep` for completing exactly once; completing at all needs none (`JobProgress.NeverStuck`).
- JobThreshold.AbortedExactly: assumes `CleanStep`, as does AbortHasReason; the single evaluation needs no assumption (`JobThreshold.CountedAborts`).
- JobUpkeep.AbortStopsTimer: assumes `CleanStep`, under which at most one wave timer is outstanding.
- JobExactly.BarrierExactly: assumes that each execution finishes once, as do the other results of `JobExactly`; without that no job is safe (`JobTwice.NeverSafe`).
- StateCache.StateCache.WriteThrough: a write and one undisturbed refresh; refreshes that overlap are in `CacheRefresh`.
- Disconnect.StepKeeps: assumes that due timers fire in due order and that a completion's status write takes less than 60 s; each execution completes once.
- The text, exit code and error note of command output; a completion carries SUCCESS or FAILED.
- Floating-point rounding; `exp`, `sqrt`, `sort`, semver, `localeCompare` and lower-casing are unknown functions with the properties stated.
- `calculateExpRegression`, the windowed rate of change, the health score and the labels.
- Forecast.BuildTrendLine: excludes points out of order with an extrapolation fraction of at most -1 - 1/(n-1), where the loop does not end (`Forecast.NeverStops`).
- Bollinger.CalculateSMA: assumes a window of at least one point; callers pass at least two, and an empty window divides 0 by 0.
- Mirroring of CVEs, the SQL text prefilter and JSON parsing; a CVE comes with its parsed entries.
- Scanner.FetchMissesNothing: assumes that a query answers every stored CVE that mentions one of its names.
- Scanner.ScanPackages: assumes unique package ids without a colon; severity, description and the other columns of a match are not modelled, and nobody else writes the table during a scan.
- Which notifications are immediate or digested, mail rendering and delivery; a send succeeds or fails.
- Schedule.MsUntilNextDigest: does not model daylight saving shifts.
- RateLimit.NineteenPerHour: assumes a clock that does not run backwards, as do the other theorems about runs of the limiter and of the agent.
- Reading of the agent's log files and the delivery of reports; clocks are parameters.
- StateCache.StateCache.WarmCache: metrics, ports and other columns are one value per machine.
- Browser download, translations and the date in the file name of the export.
- Authentication, terminal sessions, encryption, signatures, the user interface and scripts.
