# Verified model of the FoxRunner engine

FoxRunner runs browser scenarios written in a small tree language, at random instants
inside weekly time slots. This project models that engine in Dafny and proves what its
parts promise over whole runs:

- **Scenario interpreter.** `Interpreter` gives the meaning of a run as functions from a
  world (the shared context, the event trace, the handler calls, the browsers, the naps
  between retries) to an outcome and a world. `Runner.TaskRunner` is the imperative
  interpreter, loops and exceptions included, proved equal to it method by method.
  Handlers, browser launches, regular expressions and thread scheduling are parameters,
  so every theorem holds for all of their behaviours; a handler's reply may depend on all
  calls made so far, and a launch also on the failed launches before it. On top: what a run
  reports is told from its events (`Events`, `RunResults`) and a run where nothing goes wrong
  succeeds (`SmoothRuns`); the context is handed from handler to handler, decides the
  conditions and tells hooks and catch parts of errors (`Handovers`, `Skips`, `Notes`);
  handlers get what their steps say (`Calls`); every failure is reported once
  (`FailureReports`); traces are bracketed (`Brackets`), clean-up always runs (`CleanUp`),
  catch parts run exactly when needed (`TryBlocks`), closing events tell the truth
  (`ClosingEvents`), browsers are conserved (`BrowserLogs`, `Browsers`, `LostBrowsers`),
  parallel blocks do not depend on their schedule (`ParallelBlocks`), repeat unrolls
  (`Unrolling`), work is bounded (`WorkBound`, `RetryWaits`, `ThreadNaps`), validated documents do not go
  wrong, the network flag is sound and definitions are read as written (`Footprint`,
  `Loader`, `Dumps`).
- **Planner and scheduler loop.** `SlotKeys` (dates, keys and their order), `Planner`
  (random choice inside weekly windows and the search for the next pending one; its
  exact limits in `PlannerLimits`), `Calendar` (days, weekdays and picks by the calendar),
  `StateStore` (the pruned set of executed slots), `Scheduler` (the loop; its exact limit in
  `SchedulerLimits`), `Passes` (what one pass runs, records and returns).
- **Small cores.** `RateLimit` (the two windows), `Admission`, `RedisRepeats`, `Middleware` and
  `Breaker`; `LogRotation`, `CatalogConfig`, `HistoryImport`.

`dafny verify dfyconfig.toml` checks everything.

How the model reads the program:

- Step types are an enumeration that stands for the strings (`Steps.TypesAreRead`), step
  ids are paths whose text is injective (`StepIds.RenderIsInjective`).
- The two reserved context keys, `__driver__` and `__step_swallowed_error__`, are fields
  of the world. Handlers are assumed not to write them; conditions and handlers can read
  the first. The second is absent whenever a condition or a handler could read it, which
  `Brackets.SequenceBrackets` and `Brackets.ChildBrackets` prove.
- An exception is a value, `Raised(error)`. `Failed` is the error-level `step_failed`
  event, `Warned` the warning-level one of a step that continues on error.
- Instants are wall-clock seconds from Monday, 1 January of year 1. All datetimes the
  planner compares share one time zone, and Python compares such datetimes by wall clock.
- The loop theorem assumes what the deployment does: one loop at a time, a clock that
  does not go back, files that can be read and written, and a local date never behind the
  UTC date when slots are marked (pruning uses the UTC date, keys the local one).

Where the code and its documentation differ the model follows the code:
`import_history_jsonl` says it counts one row per non-empty line, but it does not count
lines without a slot or scenario id (ops/services.py:160, 172-178). The rate limiter's
comment speaks of failed Redis calls, but a view that raises after Redis let its request
through opens the breaker too and is called again when the deque admits it
(foxrunner/rate_limit.py:66-83, 95-97).

Five properties fail for some inputs, and the model says for which:

- A browser can be lost although no step fails: a step inside a block that is skipped by
  its `when` gives back no driver (`LostBrowsers.NestedConditionLosesBrowser`), and a list of
  hooks left on a condition that cannot be evaluated drops the driver it holds
  (`LostBrowsers.HookConditionLosesBrowser`). There is no other way, and a browser lost so is
  live at the end unless the run's own driver or the context still names it after the hooks;
  finally hooks left so also pass by the last quit (`Browsers.QuietRunsLeaveTheForgotten`).
  `Browsers.BrowsersAreConserved` therefore asks for conditions on top-level steps only,
  those of hooks evaluable. A step that raises loses the
  browsers it launched and did not close (`LostBrowsers.RaisingLosesTheLaunched`,
  `LostBrowsers.RaisingGroupLosesBrowser`).
- Windows on one weekday that overlap or touch may lose one: the planner skips no pending
  window if and only if they are separated (`PlannerLimits.NoneIsSkippedIffSeparated`).
- Where the UTC date can be ahead of the local one, a success may be pruned as it is
  recorded, its window picked again (`PlannerLimits.RunsAgainIffUtcIsAhead`) and its key
  succeed twice (`SchedulerLimits.NeverTwiceIffNotAhead`).
- A search of the planner may end with nothing although windows are pending: it finds one for
  every executed set of so many keys if and only if they are within the iteration bound
  (`PlannerLimits.FoundIffWithinBound`).
- Requests within one millisecond count once in Redis. Its limit holds if and only if few
  enough share a millisecond (`RedisRepeats.RedisIsSafeIffFewRepeat`).

## Model

| member | source | states |
|---|---|---|
| RunResults.SuccessIsAllThrough | scenarios/runner.py:146-220 | a run that ends reports success if and only if its trace closes every before hook, main step and success hook as succeeded, warned or skipped; finally hooks are through then, and failure hooks are through or, after success, untouched; otherwise the exception of a list of hooks or of the last quit escapes |
| RunResults.SuccessHasNoFailures | scenarios/runner.py:120-168 | in a run that reports success no before hook, main step or success hook has an error-level failed event |
| RunResults.ReportedStepIsTheLastReached | scenarios/runner.py:89-168 | the reported step is the first main step the trace does not close, or else the last one, with its number and type; before any, dry_run or driver_created |
| RunResults.ReportedMessageIsTheCause | scenarios/runner.py:164-199 | the message is that of success, or the text of the error that stopped the run: that of its only failed top-level event before the failure hooks, of the condition that could not be evaluated, or of the stuck launch |
| RunResults.ReportedIdIsTheContexts | scenarios/runner.py:164-199 | the reported execution id is the one the context holds before the finally hooks |
| RunResults.LastQuitDecides | scenarios/runner.py:200-220 | after the finally hooks the browser the context or else the run holds is told to quit, exactly once; if that raises it escapes, otherwise the run ends as its body did |
| RunResults.HooksThrough | scenarios/runner.py:463-515 | a hook list returns exactly when all its steps are through; one that raises is left at the step to blame, and no later step has an event |
| RunResults.MainThrough | scenarios/runner.py:89-144 | the same of the main steps, with the number of steps come to |
| SmoothRuns.SmoothRunsSucceed | scenarios/runner.py:51-220 | with handlers that answer in time and do not raise, browsers that start and quit, and conditions that can be evaluated, every run of a supported scenario succeeds, with green events only |
| Events.SequenceThrough | scenarios/engine.py:71-117 | the children of a sequence are all closed exactly when it returns; one that raises is left at the child whose failed event has its error, and no later child has an event |
| TryBlocks.TryBlockTells | scenarios/engine.py:150-163 | told from the events: the catch part runs exactly when the try part is not through; the block returns exactly when its finally part and its try or catch part are through; which child's error it raises |
| TryBlocks.CatchStarts | scenarios/engine.py:154-157 | after a try part that raised, the first step of a catch part is started |
| Notes.CatchIsTold | scenarios/engine.py:154-157 | the catch part reads, as error_message, the error of the child at which the try part was left |
| Notes.HooksAreTold | scenarios/runner.py:146-217 | in every run that ends, failure hooks read the message and step the run reports, success and finally hooks the step |
| Notes.SwallowedErrorIsNoted | scenarios/runner.py:367-386 | a step that swallows its error leaves the error of its warning and its own type in the context |
| Notes.HookDriverIsShown | scenarios/runner.py:516-519 | the browser hooks left in the context is shown to later handlers and conditions |
| Skips.ContextIsHandedOn | scenarios/runner.py:243-259 | in every run of a scenario without parallel blocks, through hooks, blocks, retries, swallowed and caught failures, each handler is shown what the one before it left, but for the keys the engine writes, and so is the final context |
| Handovers.SequenceHandsOn | scenarios/engine.py:71-117 | the same of any sequence inside a run, but for the keys that swallowing and try blocks in it write |
| Skips.ConditionsDecide | scenarios/runner.py:89-101 | in such a run a main step or hook is started only where its condition holds, and skipped only where it does not, in a context some handler left |
| Calls.CallsAreTheSteps | scenarios/runner.py:223-259 | in every run each call carries type, payload and time limit of one of the scenario's steps and the dry-run flag; its browser was launched in this run, and is there wherever the type needs one outside dry runs |
| Calls.VisitCalls | scenarios/runner.py:285-349 | in every attempt of a visit the handler gets the step's payload and limit, and exactly the browser the step was given, or the one launched for it, or none |
| Calls.CloseBrowserCloses | operations/selenium_ops.py:149-154 | a close_browser that returns gives back no browser, and the one it was given is the last told to quit |
| Calls.OthersDoNotClose | scenarios/runner.py:285-349 | visits of other types, and all in dry runs, tell no browser to quit |
| FailureReports.EveryFailureIsReported | scenarios/runner.py:350-387 | in every run of a scenario without parallel blocks the handlers' errors that retrying, warning and failed events report are exactly those with which the calls failed, in order; failed launches likewise, but for that of a stuck main step |
| FailureReports.ParallelFailuresAreReported | scenarios/engine.py:120-147 | in a parallel block every failure is reported once by its thread, but for the errors with which threads end |
| Brackets.RunBrackets | scenarios/runner.py:51-220 | over a whole run, however it ends, the trace is well bracketed if and only if no main step got stuck launching its browser; a stuck step's start is then the only event without partner, and the swallow flag is absent at the end |
| Brackets.EveryStartIsClosedOnce | scenarios/engine.py:71-117 | in a bracketed trace each step_started has exactly one closing event, with its id and at its own depth, and the step stays open in between |
| Brackets.SequenceBrackets | scenarios/engine.py:71-117 | a sequence returns or raises with exactly the enclosing steps open and no swallow flag left |
| Brackets.StepBrackets | scenarios/runner.py:262-388 | a step leaves its own start to be closed, unless it swallowed its error: then it has closed it and the flag names it |
| Brackets.InterleaveBrackets | scenarios/engine.py:120-147 | threads of a parallel block emit no start and leave the open steps as they are, for every schedule |
| Brackets.HooksBrackets | scenarios/runner.py:446-519 | a hook list, returning or raising, adds a bracketed piece of trace |
| Brackets.MainBrackets | scenarios/runner.py:89-144 | the main steps close all they start except one whose browser could not be launched, which ends them |
| ClosingEvents.ClosingEventTellsTheTruth | scenarios/engine.py:71-117 | for every child of a block and every hook in any run: its closing event is green iff it was skipped or an attempt returned, a warning iff all attempts raised and it continues on error, an error iff it raises |
| ClosingEvents.MainClosingEventTellsTheTruth | scenarios/runner.py:101-144 | the same for every main step that is run, unless its browser could not be launched: then its start is the last event |
| ClosingEvents.AttemptsFlag | scenarios/runner.py:350-387 | a visit leaves the swallow flag, its warning being the last event, iff all attempts raised and the step continues on error; it raises iff all raised and it does not |
| CleanUp.FinallyAlwaysStarts | scenarios/engine.py:150-163 | the finally part of a try block starts however the try and catch parts end |
| CleanUp.FinallyHooksAlwaysBegin | scenarios/runner.py:200-217 | every run comes to its finally hooks, also when hooks of the except clause raise |
| Browsers.QuietRunsLeaveTheForgotten | scenarios/runner.py:51-220 | the browsers a run without an error-level failure leaves live are exactly those it forgets: the ones nested steps were handed when skipped and the ones a list of hooks held when left on a condition that cannot be evaluated, but for those the run holds, or reads back from the context, after the hooks |
| Browsers.KeepingRunsConserve | scenarios/runner.py:51-220 | a run without error-level failure whose nested steps drop no browser and whose lists of hooks return has at most one live browser at any moment and none at the end |
| Browsers.BrowsersAreConserved | scenarios/runner.py:51-220 | with conditions only on top-level steps, those of hooks evaluable, every run without error-level failure has at most one live browser at any moment and none at the end |
| Browsers.AttemptsSettle | scenarios/runner.py:285-388 | through retries, relaunches, close_browser and swallowed failures, the live browsers the step's driver does not name are those it did not name before and those nested steps dropped |
| Browsers.ChildSettles | scenarios/engine.py:73-116 | the same of a child that fails nothing, which always returns |
| Browsers.HooksSettle | scenarios/runner.py:446-519 | the same of a list of hooks, returning or left on a condition; one that returns leaves its driver in the context |
| LostBrowsers.LostTillTheEnd | scenarios/runner.py:89-220 | a live browser that neither the run's driver nor the context names is still live when the run ends, whatever the remaining steps and hooks do |
| LostBrowsers.WithoutHooksTheDroppedAreLeft | scenarios/runner.py:89-144 | without hooks, a run without error-level failure leaves live exactly the browsers that nested steps were handed when they were skipped |
| LostBrowsers.SkippingLoses | scenarios/runner.py:279-280 | a block that skips a child while it holds a browser loses it |
| LostBrowsers.SkippedReturnsNone | scenarios/runner.py:279-280 | a skipped child calls nothing, changes no context, gives back no driver and is closed as succeeded |
| LostBrowsers.RaisingLosesTheLaunched | scenarios/runner.py:262-388 | a step that raises loses exactly the browsers launched in it that are still live, and so nothing iff all of them were told to quit |
| LostBrowsers.RaisingLosesTillTheEnd | scenarios/runner.py:120-132 | after a main step raised, every live browser that neither the run nor the context names is still live when the run ends |
| LostBrowsers.NestedConditionLosesBrowser | scenarios/runner.py:279-280 | a run without failures that leaves a browser live because a nested step is skipped |
| LostBrowsers.HookConditionLosesBrowser | scenarios/runner.py:463-473 | a run without failures that leaves a browser live because a hook's condition cannot be evaluated |
| LostBrowsers.RaisingGroupLosesBrowser | scenarios/engine.py:92-102 | a run that leaves a browser live because a group opened it and then raised |
| LostBrowsers.RetryLaunchesAgain | scenarios/runner.py:285-309 | a step whose browser fails to start once and then starts gets it on its retry |
| Footprint.DryRunLaunchesNothing | scenarios/runner.py:103-104 | a dry run launches no browser |
| Footprint.SupportedScenariosDoNotGoWrong | scenarios/engine.py:45-57 | no run of a supported tree shows an unsupported-block, unsupported-type or unsupported-parallel error |
| Footprint.NetworkFlagIsSound | scenarios/loader.py:335-346 | with the flag down no run calls the network handler |
| Calls.FlagIsExact | scenarios/loader.py:335-346 | the network flag is up exactly when some step at any depth calls the network handler |
| Loader.ValidatedDocumentsDoNotGoWrong | scenarios/loader.py:377-447 | a scenario that passes the validator and builds never meets an internal error of the interpreter, whatever its handlers do |
| Loader.ValidatedIsSupported | scenarios/loader.py:189-246 | what a validated definition builds has only known types, and parallel-safe children in parallel blocks, at every depth |
| Dumps.BuildDumpedScenario | scenarios/loader.py:105-134 | a scenario written down as JSON is built back as it was: every list from the field of its name, with its payloads, times and controls, absent fields standing for their defaults |
| Dumps.BuildDump | scenarios/loader.py:189-246 | the same of any step at any depth |
| Dumps.ValidatesIffComplete | scenarios/loader.py:377-447 | a definition written from a tree validates exactly when every step has its required keys and parallel blocks hold only parallel-safe steps |
| Dumps.BuiltAttempts | scenarios/loader.py:197-211 | a built step makes one attempt more than the retries its definition asks for, under the time limit it gives, if any |
| Loader.NetworkFlagIsConsistentAndSound | catalog/services.py:250-263 | for every definition that builds, the raw analysis equals the built flag; and when it says no, no run calls the network handler |
| Loader.RawAnalysisAgrees | catalog/services.py:250-259 | the same step by step |
| Loader.BuiltIsPaced | scenarios/loader.py:197-205 | whatever builds has only non-negative waits |
| Loader.BuiltScenariosAreBounded | scenarios/loader.py:105-134 | every run of a scenario that builds stays within the work its tree allows |
| Steps.TypesAreRead | scenarios/schema.py:5-35 | the enumeration of step types stands for the strings: reading a known type's name gives that type |
| Steps.TablesAgree | operations/registry.py:77-112 | exactly the atomic types have handlers, and the parallel-safe ones are those that need no browser |
| StepIds.RenderIsInjective | scenarios/engine.py:60-68 | different steps have different ids as strings |
| StepIds.NestedIdIsSpelled | scenarios/engine.py:60-68 | how the id of a step inside a block is spelled |
| WorkBound.RunIsBounded | scenarios/runner.py:51-220 | in every run, handler calls and time slept between retries are at most the recursive cost of the tree, for any measure of naps |
| WorkBound.AttemptsWithin | scenarios/runner.py:282-388 | one visit makes at most retry+1 attempts, with their waits |
| WorkBound.InterleaveWithin | scenarios/engine.py:120-147 | threads of a parallel block together stay within the sum of their costs |
| RetryWaits.WaitsGrow | scenarios/runner.py:364-365 | waits are not negative and never get shorter |
| RetryWaits.FailedVisitSleepsGeometric | scenarios/runner.py:350-365 | in a run, one visit of an atomic step whose attempts all fail sleeps exactly delay times the geometric sum of the backoff |
| RetryWaits.FailedVisitSleeps | scenarios/runner.py:285-365 | the same of any step: besides what its attempts sleep themselves, exactly the waits between them |
| ThreadNaps.ThreadsSleepBetweenRetries | scenarios/runner.py:344-365 | a parallel block sleeps, for any handlers and schedule, exactly what its retries ask for: after the n-th retry of a step with a delay its n-th wait |
| Unrolling.RepeatIsGroupOfCopies | scenarios/engine.py:46-52 | repeat leaves the context, browsers, calls, naps and outcome of the group of that many copies of its body, and its trace up to child ids |
| ParallelBlocks.ParallelIsScheduleIndependent | scenarios/engine.py:120-147 | for all schedules the parent's context and browsers are untouched; with handlers that depend on their own call only, the outcome is the same for all schedules: the first child in list order that fails when run alone |
| ParallelBlocks.ThreadsDecide | scenarios/engine.py:145-147 | for any handlers and schedule all threads end and the block raises the error of the first failing one in list order, or returns the driver it was given |
| ParallelBlocks.UnsafeChildrenAreRefused | scenarios/engine.py:121-123 | a block with an unsafe child runs none of its children and raises, naming exactly the unsafe types |
| Conditions.EvaluableNeverRaises | scenarios/runner.py:391-416 | a condition raises for no context if and only if its form is supported, it names a key where needed and its pattern compiles |
| Conditions.ExistenceForms | scenarios/runner.py:395-400 | exists and not_exists ask for a value that is there and not empty |
| Conditions.EqualsForm | scenarios/runner.py:401-404 | equals compares the key's value, empty when absent, with what follows the first equals sign |
| Conditions.InForm | scenarios/runner.py:405-409 | in asks whether the value is one of the listed items, white space around them dropped; an absent or empty value is in no list |
| Conditions.MatchesForm | scenarios/runner.py:410-415 | matches searches the pattern in the value, empty when absent |
| Runner.RunScenario | scenarios/runner.py:51-220 | a run on a new object does what RunTask says |
| Runner.TaskRunner.DoRunTask | scenarios/runner.py:200-220 | body, finally hooks and final quit, in that order |
| Runner.TaskRunner.DoBody | scenarios/runner.py:70-199 | try and except clauses: hooks, main steps, result |
| Runner.TaskRunner.DoOnReturn | scenarios/runner.py:146-168 | success hooks; their exception goes to the except clause |
| Runner.TaskRunner.DoOnError | scenarios/runner.py:169-199 | failure hooks and result |
| Runner.TaskRunner.DoMainSteps | scenarios/runner.py:89-144 | the loop over the main steps |
| Runner.TaskRunner.DoHooks | scenarios/runner.py:446-519 | the loop over hook steps, leaving the driver in the context |
| Runner.TaskRunner.DoStep | scenarios/runner.py:262-388 | condition, attempts with backoff, swallowing |
| Runner.TaskRunner.DoAttempt | scenarios/runner.py:286-349 | one attempt: block, or browser and handler |
| Runner.TaskRunner.DoInvoke | scenarios/runner.py:223-259 | handler lookup and call, time limit, close_browser |
| Runner.TaskRunner.DoEnsureDriver | scenarios/runner.py:308-309 | a browser is launched when needed and not held |
| Runner.TaskRunner.DoBlock | scenarios/engine.py:45-57 | dispatch on the block type |
| Runner.TaskRunner.DoRepeat | scenarios/engine.py:48-52 | the repeat loop |
| Runner.TaskRunner.DoSequence | scenarios/engine.py:71-117 | the loop over children |
| Runner.TaskRunner.DoChild | scenarios/engine.py:73-116 | one child from start to closing event |
| Runner.TaskRunner.DoTry | scenarios/engine.py:150-163 | try, catch and finally parts |
| Runner.TaskRunner.DoParallel | scenarios/engine.py:120-147 | thread pool under any scheduler, results read in list order |
| SlotKeys.KeysAreInjective | scheduler/model.py:21-22 | two keys are equal iff day, slot id and hours are, even when ids contain a bar |
| SlotKeys.IsoComparesAsDates | scheduler/model.py:22 | dates of four-digit years compare as strings exactly as they compare as dates |
| SlotKeys.DatePartComparesAsDays | state/store.py:55-57 | a key's date part is below today's date as a string iff its day is earlier |
| Calendar.WeekdayIsTheCalendars | scheduler/model.py:74-78 | the weekday of every day is the one its year, month and day give by the calendar's own formula |
| Calendar.DaysAreTheCalendars | scheduler/model.py:74-78 | days are numbered as the calendar counts them, leap years included |
| Calendar.DatesAreSpelled | scheduler/model.py:21-22 | how dates of four-digit years are spelled, digit by digit |
| Calendar.ClocksAreSpelled | scheduler/model.py:21-22 | how clock times are spelled |
| Calendar.NextPendingByTheCalendar | scheduler/model.py:91-106 | by calendar and clock: a search returns an instant after now on a weekday its slot lists, between its hours, of a key not executed; with separated windows no earlier one is left pending |
| Calendar.TiesGoToTheFirstSlot | scheduler/model.py:77-88 | of the candidates of a day the earliest is picked, of equally early ones that of the slot listed first |
| Calendar.PickWithinLookahead | scheduler/model.py:73-88 | a pick lies within the lookahead |
| Planner.NextPendingIsPending | scheduler/model.py:91-106 | what a search returns is an unexecuted window of a slot that opens that weekday, at an instant after now inside it; with separated windows no pending window before it was skipped; for all random draws |
| Planner.NextPendingIsFound | scheduler/model.py:97-106 | if at most len(slots)*lookahead keys are executed, some slot is usable, hours are clock times and lookahead is at least 8, a search always returns a window |
| PlannerLimits.NoneIsSkippedIffSeparated | scheduler/model.py:77-104 | no pending window is ever skipped, for all draws, instants and executed sets, if and only if windows on one weekday are separated (or have the same key) |
| PlannerLimits.FoundIffWithinBound | scheduler/model.py:97-106 | for every usable plan: a search finds a window for every executed set of at most m keys if and only if m is at most len(slots)*lookahead |
| PlannerLimits.RunsAgainIffUtcIsAhead | state/store.py:55-59 | a recorded window that is still open can be picked again if and only if the UTC date it was pruned by is past its day |
| Planner.SearchSkipsNone | scheduler/model.py:97-104 | wherever the probe has got to: all windows begun since now being executed, the pick skips none |
| Planner.PassedHaveDistinctKeys | scheduler/model.py:97-104 | windows a search passed, with growing ends, have distinct keys, so they are at most as many as the executed keys |
| Planner.SearchPasses | scheduler/model.py:97-106 | a search that finds nothing has passed as many executed windows as it had rounds, each ending after the one before |
| Planner.PickIsEarliest | scheduler/model.py:66-88 | a pick is a candidate before whose instant no window that starts after now has ended; there is none only if no such window begins within the lookahead, or hours are not clock times |
| Planner.CandidatesAreOffers | scheduler/model.py:77-83 | the candidates of a day are exactly the draws later than now in the windows of slots that open then |
| Planner.AnyInstantCanBeDrawn | scheduler/model.py:46-63 | every instant of the window, from now on if it is today's, is some draw |
| Planner.RandomDatetimeInSlot | scheduler/model.py:46-63 | a drawn instant lies in the window and not before now on the same day; none is drawn iff there is no such instant |
| Planner.OpensWithinAWeek | scheduler/model.py:73-83 | a usable slot opens again within the seven days after today |
| Planner.PickNextExecution | scheduler/model.py:66-88 | the nested loops over days and slots compute PickFrom |
| Planner.FindNextPending | scheduler/model.py:91-106 | the probe loop computes NextPending |
| StateStore.ExecutionStateStore.MarkExecuted | state/store.py:29-37 | the file then holds the old record and the key, without stale keys |
| StateStore.Prune | state/store.py:55-59 | removes exactly the stale keys |
| StateStore.PruningKeepsTodayAndLater | state/store.py:55-59 | of the keys the planner makes, pruning keeps exactly those of today and later |
| Scheduler.NeverSucceedsTwice | scheduler/service.py:350-434 | in any run of the loop, of any length and in any world, no slot key succeeds twice, as long as dates have four-digit years and the UTC date is not ahead of the local one when slots are marked |
| Scheduler.UndisturbedPassRuns | scheduler/service.py:350-434 | the loop makes progress: with a usable plan and an executed set within the planner's bound a pass that nothing disturbs adds exactly one line, the result of a window that was pending, started at or after the picked instant; with separated windows none pending was skipped |
| Passes.AfterChoiceGives | scheduler/service.py:356-434 | a pass starts its task exactly when a slot of a known scenario is chosen, the network is up at both checks where needed, the plan is announced and nobody recorded the key meanwhile; it then adds exactly one line, with these fields, and otherwise none; which passes return what |
| Passes.NothingRunsOffline | scheduler/service.py:358-418 | over any pass from any state: a task that needs the network is not started unless both checks are up; history unchanged, only others' marks recorded; blocked noted; a network lost during the wait ends a single run with 2 |
| Passes.LinesAreRuns | scheduler/service.py:350-434 | every line that any run of the loop adds tells of a task run in one of its rounds, with its slot, key and result, in or after its window's start, and with the network up at both checks where its scenario needs it |
| Passes.OnceRunsOnce | scheduler/service.py:415-433 | a single run adds at most one line, as its last act, and returns 0 exactly when it tells of a success, else 2; a run that is not single never returns |
| Passes.SuccessIsRecorded | scheduler/service.py:496-498 | a success is recorded with its start unless its day is over by the UTC date; a failure records nothing |
| Passes.AlertsAreSpaced | scheduler/service.py:358-379 | without network the first alert is sent at once and each further one when the cooldown is over and not before |
| Passes.PlansAreAnnounced | scheduler/service.py:379-404 | a plan is announced once in a row; one that could not be announced is saved as planned and tried again; where the check before the run raises, it stays saved as planned; a key recorded during the wait is let go |
| Scheduler.OnePassIsSound | scheduler/service.py:351-434 | one pass, however it ends, keeps every success recorded or of a day that is over, and adds at most one line |
| Scheduler.PickedIsNoSuccess | scheduler/service.py:354-355 | a pending key is none of the earlier successes, although successes may have been pruned |
| Scheduler.ResultIsSound | scheduler/service.py:488-551 | a result for a key without success keeps the invariant: the new success is recorded or of a day that is over, and keys of successes stay distinct |
| Scheduler.MarkingIsSound | state/store.py:29-37 | marking any key, by this loop or another command, prunes no success of a day that is not over |
| Scheduler.MarkingSettles | state/store.py:29-37 | the marked key itself is recorded afterwards or of a day that is over |
| Scheduler.RunLoop | scheduler/service.py:326-444 | a loop started on any store computes Run, and if the UTC date is not ahead its history has no key with two successes |
| Scheduler.SchedulerService.Loop | scheduler/service.py:350-444 | the loop computes Run |
| Scheduler.SchedulerService.DoOnePass | scheduler/service.py:351-434 | planning and the choice of a slot, then the rest of the pass |
| Scheduler.SchedulerService.DoAfterChoice | scheduler/service.py:356-377 | an unknown scenario or a failed network check ends the pass; no network suspends it |
| Scheduler.SchedulerService.DoSuspend | scheduler/service.py:358-377 | without network the slot is saved as blocked and an alert sent only after the cooldown |
| Scheduler.SchedulerService.DoAnnounce | scheduler/service.py:380-391 | a planned slot is saved and announced once in a row; if notifying raises it stays unannounced |
| Scheduler.SchedulerService.DoProceed | scheduler/service.py:379-398 | announcement, wait, and the run |
| Scheduler.SchedulerService.DoRunPicked | scheduler/service.py:400-434 | the re-check of the executed set, which skips a key marked meanwhile, the network re-check, the run and its result |
| Scheduler.SchedulerService.DoHandleResult | scheduler/service.py:488-551 | history, store and next execution after a result |
| Scheduler.SchedulerService.MarkElsewhere | state/store.py:29-37 | what other commands mark, key by key |
| SchedulerLimits.NeverTwiceIffNotAhead | state/store.py:55-59 | for every usable plan: in no run of the loop does a slot key succeed twice, the UTC date being at most so many days ahead of the local one when slots are marked, if and only if that number is not positive |
| Middleware.TwiceTheLimit | foxrunner/rate_limit.py:53-83 | whatever decides for each request which window is asked and whether Redis answers, both together admit at most twice the limit in any half-open window, when the deque's times do not go back and Redis milliseconds are distinct |
| Middleware.EachKeyTwiceTheLimit | foxrunner/rate_limit.py:53-121 | over any requests of any clients sharing the breaker, the same for each key, when the clock behaves for the requests of that key |
| Middleware.ServedAsAsked | foxrunner/rate_limit.py:62-83 | requests of other clients reach a key's windows only through the breaker: the windows are as the key's own asks left them |
| Middleware.AskedHolds | foxrunner/rate_limit.py:75-83 | one more ask, of either window, answered or not, keeps both windows safe |
| Breaker.RedisIsLeftAlone | foxrunner/rate_limit.py:64-125 | over any requests of any clients: for thirty seconds after a failure Redis is neither asked nor changed and the deque is asked; otherwise Redis is asked, and the deque only if it fails |
| Middleware.RateLimiter.AllowDeque | foxrunner/rate_limit.py:75-83 | the loop over the key's deque computes its ask |
| Middleware.RateLimiter.AllowRedis | foxrunner/rate_limit.py:129-139 | expiry and the four commands on the key's set, one after the other, compute its ask, answered or not |
| Middleware.RateLimiter.TryRedis | foxrunner/rate_limit.py:64-73 | Redis unless the shared breaker is open, whether that settled the request, and the breaker after it |
| Middleware.RateLimiter.Handle | foxrunner/rate_limit.py:64-83 | breaker, Redis and fallback for one request, and how often it was passed on |
| Middleware.ServeAll | foxrunner/rate_limit.py:53-121 | any sequence of requests on a new limiter computes Serve |
| RateLimit.DequeIsSafe | foxrunner/rate_limit.py:75-83 | with a clock that does not go back at most max requests are admitted in every half-open window, not only those ending at a request |
| Admission.DequeAdmitsExactly | foxrunner/rate_limit.py:75-83 | the deque admits a request exactly when it admitted fewer than the limit in the window that ends with it |
| RateLimit.RedisIsSafe | foxrunner/rate_limit.py:129-139 | the same for Redis, with distinct milliseconds; key expiry included |
| Admission.RedisAdmitsExactly | foxrunner/rate_limit.py:129-139 | at increasing milliseconds Redis admits a request exactly when fewer than the limit, rejected ones included, came before it in its window |
| RateLimit.RedisRefinesDeque | foxrunner/rate_limit.py:129-139 | on strictly increasing milliseconds every request Redis admits the deque admits |
| RedisRepeats.RedisIsSafeIffFewRepeat | foxrunner/rate_limit.py:129-139 | Redis keeps the limit in every window, on all requests with at most m in a millisecond, if and only if m for each of the window's milliseconds, or of max of them if they are more, is within the limit |
| RedisRepeats.RedisIsSafeUpToRepeats | foxrunner/rate_limit.py:129-139 | with at most m requests in a millisecond Redis admits, in any window, at most m for each of its milliseconds and for at most max of them |
| RedisRepeats.RepeatsCountOnce | foxrunner/rate_limit.py:135-139 | with milliseconds that repeat, Redis answers as if each had one request, all of a millisecond alike |
| RedisRepeats.SameMillisecondIsUndercounted | foxrunner/rate_limit.py:135-139 | any number of requests within one millisecond is admitted |
| LogRotation.RotationLosesOnlyTheOldest | app/logger.py:53-79 | after any writes, backups oldest to newest and the live file are a suffix of all written, at most backup_count backups exist, each file is at most one line over max_bytes, and nothing is lost before all backups are in use |
| LogRotation.RotationRetainsEnough | app/logger.py:66-79 | either nothing is lost or at least backup_count*max_bytes of the end are kept |
| LogRotation.Logger.RotateIfNeeded | app/logger.py:66-79 | the renaming loop over numbered files is one shift of the list of backups |
| LogRotation.Logger.Append | app/logger.py:61-64 | rotation, then the line at the end of the live file |
| LogRotation.WriteLines | app/logger.py:53-64 | any sequence of writes on a new logger |
| CatalogConfig.EveryHistoryIsClean | catalog/services.py:172-218 | from a clean state, after any sequence of updates, each validated as the scenarios of that time demand, no stored secret is blank or the mask and each default names an entry |
| CatalogConfig.MergeKeepsSecrets | catalog/services.py:183-196 | field by field: a real new secret replaces, else the stored one stays, else the field is dropped; other fields as sent |
| CatalogConfig.UpdateStoresThePayload | catalog/services.py:172-218 | an update stores exactly the pushovers sent, so one left out is removed, field by field, and the networks and defaults as sent; exactly when it is refused |
| CatalogConfig.GetPut | catalog/services.py:154-196 | writing back what was read changes nothing iff no stored secret is present but blank |
| CatalogConfig.GetPutFromClean | catalog/services.py:154-218 | in a clean state writing back what was read is never refused for its defaults and leaves the configuration unchanged |
| CatalogConfig.PutPut | catalog/services.py:172-218 | sending a payload twice is sending it once |
| CatalogConfig.GetShowsNoSecret | catalog/services.py:154-169 | the read view shows of a secret only whether there is one |
| CatalogConfig.GetShowsTheRest | catalog/services.py:154-169 | the read view shows all entries, networks and defaults, and all other fields as stored |
| CatalogConfig.CatalogService.GetCatalogConfig | catalog/services.py:154-169 | the loops compute the masked view |
| CatalogConfig.CatalogService.UpdateCatalogConfig | catalog/services.py:172-218 | the loops compute the merge; refused updates change nothing |
| HistoryImport.LastLineWins | ops/services.py:173-194 | each row is what the last accepted line with its identity says, or as it was; the count is that of accepted lines |
| HistoryImport.RowIsReadBack | ops/services.py:174-193 | a row is read back from the line it is written as, each column from the field of its name |
| HistoryImport.ImportIsIdempotent | ops/services.py:155-194 | importing again changes nothing, from any table |
| HistoryImport.PrefixThenWhole | ops/services.py:155-194 | importing a prefix and then the whole file equals importing the whole file once |
| HistoryImport.ImportAppend | ops/services.py:167-194 | importing two files in turn is importing their concatenation |
| HistoryImport.HistoryStore.ImportHistory | ops/services.py:154-195 | the line loop computes the import; an exception leaves the table as it was; a missing file imports nothing |

## Left out

- Selenium handlers, HTTP, notifications, VPN probing: foreign calls, given as replies of the environment.
- Handlers that write the two reserved context keys.
- `create_driver` failing after the browser process started: launching is one action that succeeds or fails.
- A step id of `None`: runs started by `run_task` always have one.
- Event fields besides id, type, step type and error (duration, traceback, payload), and a sink that raises.
- Screenshots and page sources taken on failure: they change nothing the model observes.
- Time limits as real time: a handler that ends late is a possible exception.
- NaN and infinite delays: times and delays are real numbers.
- Handler payloads are the step's own fields as written; `StepReference` and `ExtractTarget` objects are not built.
- Conditions read the driver key as an opaque non-empty text.
- Skips.ContextIsHandedOn: scenarios with parallel blocks, whose threads read and write copies of the context that the records do not tell apart; what such a block leaves of the context is `ParallelBlocks.ParallelIsScheduleIndependent`.
- Skips.ConditionsDecide: conditions of steps inside blocks, of which no event tells whether the step was skipped.
- FailureReports.EveryFailureIsReported: scenarios with parallel blocks, where an error a thread ends with may go unreported; `FailureReports.ParallelFailuresAreReported` counts those.
- Notes.HooksAreTold, Notes.CatchIsTold: lists whose first step has a condition, is a block or must first launch a browser.
- Whitespace that is not ASCII in `context_in` lists.
- The JSON Schema checks of scenarios/validator.py, loading files, `build_slots_from_items`, pushover and network maps: only easy members.
- Dates after year 9999, where Python raises: the planner's arithmetic is unbounded, and the loop theorem is stated for four-digit years.
- The first search of a run on a slot set that is empty or has only empty windows raises in the program and is `NoWindow` or `NothingPending` here.
- The heartbeat thread, the countdown text, the last-run file, `ProcessLock` and the command-line modes of the scheduler.
- Scheduler.NeverSucceedsTwice: the loop that never ends is any number of passes; the history is that of one loop, and other commands mark keys before planning, during the wait and while the task runs, each marking being one action.
- The environment switches and the path filter of the rate limiter.
- Middleware: requests are handled one at a time in one process; two threads may both pass a deque's test, and other processes have breakers and deques of their own.
- RateLimit, Middleware: the deque's times are fractions of a second in the program and whole milliseconds here.
- Console output and JSON formatting of log lines.
- CatalogConfig: payload entries that are lists of pairs, stored entries that are null, and the scenarios document beyond the accept-or-refuse answer of its validation.
- HistoryImport: rows with the same identity already duplicated in the table, which a null execution id would allow.
