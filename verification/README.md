# Verified model of the agent office core

The repository runs a pipeline of language-model agents over one task: a finite-state
driver asks planner, PM, architect, writer, reviewer, tester, QA and fixer in turn, loops
back through the fixer when a review, a QA verdict or a runtime check fails, and stops at
SUCCESS, FAIL or BLOCKED. Around it stand a write-once task memory, a cost ledger, a
single-slot background runner, a message bus between agents, a throttle that projects bus
messages to a chat, a scanner that finds a JSON object in prose, an impact analysis over
module dependencies, and direct messages between the owner and single agents. This project
models those parts in Dafny and proves what they guarantee for all inputs, all runs and all
answers of the outside world.

## How it is built

* The source's stateful objects are classes here (`PipelineMemory`, `Observability`,
  `Orchestrator`, `ThrottledProjectingAgentBus`, `BackgroundTaskRunner`,
  `CancellationToken`, `InMemoryAgentBus`, `AgentDmSingleReplyService`), with the same
  fields, branches and loops. Each method is proved equal to a pure function of the old
  state; the theorems are about those functions and about whole runs of them.
* Agents, runtime hook, cost estimator, clocks, message sends and JSON decoding are oracles:
  functions from the number of the call (or from the text) to an arbitrary answer,
  exceptions included. A theorem over all oracles is a theorem over all behaviours.
* Exceptions are `Result`/`Option` values; error texts are constructors.
* Money, time and latencies are `real`; rounding is not modelled.
* Everything that a run did is kept in a trace of call records (agent, arguments, answer,
  hook, length of the ledger at the start), so that statements about "the last review" or
  "the code QA saw" are statements about what was really passed and returned.

| file | content |
|---|---|
| `Wrappers`, `Names`, `Strings`, `Ordering` | optional values, name lookup, Python's `strip` and order on strings |
| `Fsm`, `Memory`, `Observability` | transition table, task memory, cost ledger and percentiles |
| `Pipeline`, `Orchestrator` | the driver as functions, and the imperative driver that refines them |
| `PipelineTheorems`, `PipelineVetting`, `PipelineInputs`, `PipelineBudget`, `PipelineOutcomes`, `PipelineHook` | what every pipeline run satisfies |
| `PipelineRoutes`, `PipelineRuns` | which pipeline runs there are |
| `AgentBusModels`, `Identifiers`, `AgentBus` | messages, padded ids, the in-memory bus |
| `Throttle`, `ThrottleTheorems`, `ThrottleBursts` | the throttled projection of bus messages |
| `BackgroundRunner` | the single-slot runner as a state machine of atomic steps |
| `JsonExtractor` | the brace scan against an RFC 8259 printer |
| `ImpactAnalysis` | reverse dependency graph and impacted modules |
| `AgentDm` | direct-message sessions and project resolution |
| `ProjectBootstrap` | slugs and identifiers derived from a repository name |

## What was found on the way

* The budget is blind for task ids with surrounding whitespace: the ledger stores stripped
  ids (core/observability.py:289-290) and is searched for the id as given
  (core/orchestrator.py:338). `PipelineBudget.CallCountsIffTrimmed` gives the exact
  condition, `PipelineBudget.PaddedIdEscapesBudget` the consequence for whole runs. A call whose
  figures the ledger refuses escapes it too (`PipelineBudget.PriceTheorem`).
* `max_total_steps_exceeded` cannot occur: 22 recorded transitions are the most any run makes,
  and some run makes them (`PipelineRuns.LongestRun`). The call limit does stop some runs
  (`PipelineRuns.CallLimitIsReached`).
* TEST to FIX is in the table (core/fsm.py:32) but no run takes it, so the `test_fix` counter
  stays 0. The state machine's document under docs/ speaks of FAIL for every exceeded limit;
  the code ends in BLOCKED from the four preparatory states (core/orchestrator.py:134-140,
  645-649). The model follows the code in both.
* After a QA `FAIL` the fixer is given the items of the review that had *approved* the
  code, not QA's own (`PipelineVetting.FixerTheorem`; a run that gets there:
  `PipelineRuns.FixerIsToldApproval`).
* The runtime hook sees each agent's first usable text (`PipelineHook.HookTheorem`), which is the
  newest code exactly if the fixer has not changed its mind (`PipelineHook.HookSeesNewestCode`; a
  run in which it has: `PipelineRuns.HookIsShownFirstFix`).
* A shutdown between the two halves of `submit` strands the accepted task for ever
  (`BackgroundRunner.StrandedForEver`); a second `shutdown(wait=True)` returns without
  waiting, against the contract in the module's header: it keeps that contract exactly if it
  happens to find nothing in the executor and nothing on its way there
  (`BackgroundRunner.ReturnIsQuietIffSettled`).
* The stored future can belong to a task that is over; exactly when, is
  `BackgroundRunner.FutureIsActiveIffInTime`.
* Any `{` in the prose before a JSON object makes the scan start there
  (`JsonExtractor.ScanInvertsPrinter` is an if-and-only-if;
  `JsonExtractor.EarlierBracesHideObject` shows the loss).
* A publish that is refused for its time has already used up a message number
  (`AgentBus.CounterTheorem`), and the next id is then not the one that the database-backed bus
  would allocate (`AgentBus.AllocatorTheorem`).
* Activating a session at a time before its creation closes the other session first and then
  fails, so that no session is left active (`AgentDm.ClockGoingBackLeavesNone`; exactly when,
  in `AgentDm.WhoIsActive`).

## Model

| member | source | states |
|---|---|---|
| Fsm.ParseStateInverts | core/fsm.py:4-16 | the name of a state is read back as that state and no other name is |
| Memory.PipelineMemory.NewTask | core/memory.py:107-118 | a task starts empty under an unused id, or is refused with its reason and nothing changes |
| Memory.PipelineMemory.SetArtifact | core/memory.py:120-129 | an artifact is stored once; a second text for the kind, an unknown kind, a blank text or an unknown task is refused |
| Memory.PipelineMemory.RecordTransition | core/memory.py:137-151 | only an edge of the table is appended to the trail |
| Memory.PipelineMemory.RecordAgentCall | core/memory.py:153-158 | one call is appended to the task's list |
| Memory.PipelineMemory.IncrementLoop | core/memory.py:160-167 | one loop counter rises by one and its new value is returned |
| Memory.PipelineMemory.RestoreTask | core/memory.py:214-275 | a dump is taken in whole under an unused id, or refused with the first error in the source's order |
| Memory.PipelineMemory.DumpTask | core/memory.py:199-212 | the dump of a known task |
| Memory.PipelineMemory.GetSnapshot | core/memory.py:184-194 | the snapshot of a known task |
| Memory.NormalizeSeeds | core/memory.py:86-100 | seed artifacts are accepted exactly if all kinds are known and all texts non-blank, and are then keyed by kind |
| Memory.NormalizeTransitions | core/memory.py:245-262 | a dumped trail is accepted exactly if every entry names an edge of the table |
| Memory.ExecKeepsValid | core/memory.py:107-275 | every command, accepted or refused, keeps every stored task well formed |
| Memory.ExecAllExtends | core/memory.py:107-167 | over any run of commands each task's record only grows: artifacts never change, trails and call lists are extended, counters never fall |
| Memory.BuildTheorem | core/memory.py:107-167 | every well-formed record without a counter at zero can be built from nothing by accepted commands other than a restore, so no command refuses more than it has to |
| Memory.FailureTheorem | core/memory.py:107-275 | a command fails with an error exactly if that reason holds and none that is checked before it, reason by reason |
| Memory.DumpThenRestore | core/memory.py:199-275 | the dump of any reachable task is refused only for a used id, and otherwise restores that very task and nothing else |
| Memory.RestoreAcceptsExactlyDumps | core/memory.py:214-275 | restore accepts exactly the dumps of well-formed tasks under unused ids |
| Memory.RestoredIsDumped | core/memory.py:199-275 | dumping what was restored gives the dump back |
| Observability.Observability.RecordAgentCall | core/observability.py:268-307 | a call is checked, its names are stripped, and it is appended; a bad one leaves the ledger alone |
| Observability.RecordedIff | core/observability.py:268-307 | exactly which calls are recorded - names with text, no negative figure, an error text exactly if the call failed - and every field of the record |
| Observability.Observability.GetCostSnapshot | core/observability.py:377-400 | the total is the sum of the selected calls' costs, and both breakdowns give every agent and task its own sum and add up to the total |
| Observability.PercentileMonotone | core/observability.py:169-184 | on any non-empty ascending list the percentile is the first value at 0, the last at 1, between them, and never falls as q rises, across interpolation segments |
| Observability.PercentileInterpolates | core/observability.py:169-184 | at the rank h = (n - 1) q the percentile is s[i] + (h - i)(s[i + 1] - s[i]) with i the whole part of h |
| Observability.PercentileOfTwo | core/observability.py:169-184 | of two values it is a + q (b - a) |
| Observability.LatencyFiguresOrdered | core/observability.py:362-375 | p50, p95 and p99 come in order within the list's bounds |
| Pipeline.StepDecreases | core/orchestrator.py:270-316 | whatever the oracles answer, a loop turn that goes on spends a fix loop, moves towards the end or uses up a retry: every run terminates, with and without the global limits |
| Pipeline.StepTurns | core/orchestrator.py:270-316 | one turn makes exactly one call of the state's own agent, records it, and then asks again, moves along one table edge determined by the verdict, or ends in the state's own failure state |
| Pipeline.JudgeShape | core/orchestrator.py:392-507 | how each state's verdict on a text determines the next edge, the kept artifact, the newest code and review, and the loop counters |
| Pipeline.RunHookShape | core/orchestrator.py:509-550 | the hook alone decides after a passing QA answer: on to SUCCESS, back to FIX with the rendered review within the loop limit, or failure |
| PipelineTheorems.TrailTheorem | core/orchestrator.py:247-320 | every run ends in a terminal state; the trail is one connected walk of table edges from IDLE of at most 22 edges, of an exact length for SUCCESS; no failure reason exactly at SUCCESS; never TEST to FIX |
| PipelineTheorems.TurnAudited | core/orchestrator.py:270-316 | at every loop head the loop counters equal the numbers of edges into FIX, and the trail's length is a function of state and counters |
| PipelineTheorems.StepLimitIsDead | core/orchestrator.py:322-326 | with any step limit from 21 on, or with none, every run is the same run |
| PipelineTheorems.CallsTheorem | core/orchestrator.py:348-349 | at most 63 calls without the call limit, at most 41 with it, and it can end a run only after at least 21 malformed answers |
| PipelineTheorems.TurnCounted | core/orchestrator.py:289-295 | at every loop head calls = transitions - 1 + malformed answers |
| PipelineTheorems.ArtifactTheorem | core/orchestrator.py:392-437 | after any run memory holds the seeds and, of every other kind, exactly the first usable answer of its agent |
| PipelineInputs.InputsTheorem | core/orchestrator.py:392-626 | over every run, each call's arguments in terms of the task, the seeds and the calls before it, agent by agent: seeds or first usable answers of planner, PM, architect and tester, the newest code, the newest review of reviewer or hook, and that review's items for the fixer |
| PipelineTheorems.TurnNewestCode | core/orchestrator.py:310-313 | the driver's current code is always the newest usable text of writer or fixer |
| PipelineVetting.SuccessTheorem | core/orchestrator.py:439-498 | SUCCESS means one code text, the newest, was approved by the last reviewer call, shown to every later tester and QA call, passed by the last, with the hook absent or content; the trail ends REVIEW, TEST, QA, SUCCESS |
| PipelineVetting.SuccessTail | core/fsm.py:25-37 | any walk of table edges to SUCCESS ends REVIEW, TEST, QA, SUCCESS |
| PipelineVetting.FixerTheorem | core/orchestrator.py:600-626 | every fixer call follows, after fixer calls only, the call that sent the run to FIX and works on that review's items; after a QA FAIL these are the approving review's |
| PipelineBudget.BudgetTheorem | core/orchestrator.py:334-346 | with budget and in-memory sink every call starts within the budget, so a run overspends by at most its last recorded call |
| PipelineBudget.PriceTheorem | core/orchestrator.py:334-390 | in every run with observability the recorded cost is what it was before plus the prices of exactly the calls that count, and with a budget what counts before each call is within it; so if all calls count, the prices really asked without the last call are within the budget, and a call whose figures the ledger refuses escapes it |
| PipelineBudget.LedgerTheorem | core/orchestrator.py:348-390 | in every run with observability the ledger grows by one offer for each call in order, with its agent, task, time, success and estimated figures, as far as it is accepted; without, it does not change |
| PipelineBudget.CallCountsIffTrimmed | core/observability.py:268-307 | a recorded call counts for the id it was made with exactly if that id has no whitespace around it |
| PipelineBudget.PaddedIdEscapesBudget | core/orchestrator.py:334-346 | for an id with surrounding whitespace every run is the run without a budget |
| PipelineBudget.PaddedIdIsAccepted | core/memory.py:107-118 | such an id is accepted as a task id |
| PipelineOutcomes.ReasonTheorem | core/orchestrator.py:270-346 | every failure reason is true of its run: the limit it names is exceeded, or the last three calls were malformed answers of that state's agent, or the last call was of the named kind with exactly the named number of loops already taken |
| PipelineOutcomes.BlockedTextIs | core/orchestrator.py:430-431 | a BLOCKED answer is reported with the first 120 characters of its stripped text |
| PipelineOutcomes.IsBlockedIff | core/orchestrator.py:430-431 | an answer is BLOCKED exactly if it starts with the word and its colon, white space aside |
| PipelineOutcomes.FailureHasCause | core/orchestrator.py:270-320 | with the driver's own limits, a run that its budget does not stop fails only if some call of it raised, was malformed, BLOCKED or refusing, or its hook objected |
| PipelineHook.HookTheorem | core/orchestrator.py:509-521 | the hook runs only after a passing QA answer, and is shown the seeds and each agent's first usable answer so far |
| PipelineHook.HookSeesNewestCode | core/orchestrator.py:509-521 | without seeds for code the text the hook is shown is the newest code exactly if the fixer's first and last usable answers so far are the same, or there is none |
| PipelineRoutes.RouteTheorem | core/orchestrator.py:247-320 | a run whose answers lead along a sequence of places to SUCCESS takes exactly that way, one call for each place, and leaves exactly its edges as the trail |
| PipelineRuns.SuccessTrails | core/orchestrator.py:247-320 | for any JSON reader with texts for the four verdicts, the trails of successful runs are exactly the walks along the table from IDLE to SUCCESS without TEST to FIX, with REVIEW to FIX three times and QA to FIX twice at most |
| PipelineRuns.SuccessIsPossible | core/orchestrator.py:247-320 | for any JSON reader that finds nothing in a blank text: a task can be brought to SUCCESS exactly if the reader takes some text for an approval and some text for a pass |
| PipelineRuns.LongestRun | core/orchestrator.py:322-326 | the bound of 22 edges is reached |
| PipelineRuns.CallLimitIsReached | core/orchestrator.py:326-329 | the bound of 41 calls is reached, by a run that the call limit stops |
| PipelineRuns.FixerIsToldApproval | core/orchestrator.py:499-507 | in every world with the four texts there is a run whose QA fails the code and whose next call is a fixer call with the approving review's items |
| PipelineRuns.HookIsShownFirstFix | core/orchestrator.py:509-521 | in every world with the four texts there is a run whose hook is shown the first of two fixes while the second is the newest code |
| PipelineRuns.ExampleRuns | core/orchestrator.py:499-521 | both with concrete texts: QA asks for `[2]` and the fixer is told `[]`; the hook is shown `first` when `second` is under test |
| Orchestrator.Orchestrator.Invoke | core/orchestrator.py:348-390 | one call is listed, answered, timed, priced and recorded as the specification says, exceptions included |
| Orchestrator.Orchestrator.HandleReview | core/orchestrator.py:439-462 | the imperative handler does exactly the specified review step |
| Orchestrator.Orchestrator.HandleTest | core/orchestrator.py:464-474 | the imperative handler does exactly the specified test step |
| Orchestrator.Orchestrator.HandleQa | core/orchestrator.py:476-507 | the imperative handler does exactly the specified QA step, hook included |
| Orchestrator.Orchestrator.HandleFix | core/orchestrator.py:600-618 | the imperative handler does exactly the specified fix step |
| Orchestrator.Orchestrator.InvokeRuntimeValidator | core/orchestrator.py:509-550 | the hook is called with the memory's artifacts and judged as specified |
| Orchestrator.Orchestrator.CheckGlobalLimits | core/orchestrator.py:322-346 | the limits are checked in order: steps, calls, budget |
| Orchestrator.Orchestrator.DriveLoop | core/orchestrator.py:247-320 | the loop over the mutable state refines the recursive driver and changes no other task |
| Orchestrator.Orchestrator.RunTask | core/orchestrator.py:230-245 | a run is refused without a trace in memory, or it returns the specified result with all its proved facts and leaves every other task alone |
| Orchestrator.Orchestrator.RefusalIs | core/orchestrator.py:230-245 | exactly why a run is refused, in order: a rejecting validator, a bad seed, a blank id, a blank task, an id in use |
| Throttle.ThrottledProjectingAgentBus.HandlePersistedMessage | core/agent_bus_projection_throttle.py:265-329 | one published message's attempts, report and new thread state, said outright in terms of the messages held before it, the idle gap, the raw count and the answers |
| Throttle.ThrottledProjectingAgentBus.FlushThread | core/agent_bus_projection_throttle.py:230-244 | a flush of a known thread does the specified flush; an unknown one is left alone |
| Throttle.ThrottledProjectingAgentBus.FlushPendingBatches | core/agent_bus_projection_throttle.py:526-546 | the flush loop with its mutable queue refines the recursive flush |
| Throttle.ThrottledProjectingAgentBus.PendingSummaryCount | core/agent_bus_projection_throttle.py:252-263 | the number of messages in deferred batches and the suppressed list |
| ThrottleTheorems.ConservationTheorem | core/agent_bus_projection_throttle.py:265-388 | over every run and failure pattern, each message of a thread has exactly one fate: attempted raw, in a sent summary, in a deferred batch, or held back; batches are contiguous runs of the log and stay in publication order |
| ThrottleTheorems.PublishTheorem | core/agent_bus_projection_throttle.py:265-388 | the same for every publish of every run of the bus: the thread's new attempts and its new state are exactly those |
| ThrottleTheorems.NoFullBatchWaits | core/agent_bus_projection_throttle.py:366-388 | after every publish of every run either fewer messages than a batch are held back, or the thread's last attempt was an unsent summary of exactly those |
| ThrottleTheorems.CountTheorem | core/agent_bus_projection_throttle.py:252-263 | in every run a thread's messages are as many as have been posted raw or in sent summaries, plus the pending count that is reported |
| ThrottleTheorems.OtherThreadsUntouched | core/agent_bus_projection_throttle.py:504-524 | an operation on one thread changes no other thread's state, log or sends |
| ThrottleTheorems.FlushTakesPrefix | core/agent_bus_projection_throttle.py:526-546 | a flush removes exactly the successfully projected prefix of batches, stops at the first failure, and turns to the held-back messages only when none is left |
| ThrottleBursts.BurstRuleHolds | core/agent_bus_projection_throttle.py:285-317 | in every reachable state held-back messages imply a used-up raw allowance |
| ThrottleBursts.BurstRuleKept | core/agent_bus_projection_throttle.py:285-317 | so the early test for held-back messages never changes what a publish does |
| ThrottleBursts.BurstTheorem | core/agent_bus_projection_throttle.py:265-329 | n messages of one burst, all sent, cost min(n, L) raw posts and max(0, n - L) / B summaries and leave max(0, n - L) mod B pending |
| ThrottleBursts.IdleGapTheorem | core/agent_bus_projection_throttle.py:331-364 | the first message after an idle gap costs one more summary exactly if messages were pending, and is the first raw post of a new burst |
| ThrottleBursts.BurstsTheorem | core/agent_bus_projection_throttle.py:265-364 | after any run of the bus in which all sends succeed and the thread is not flushed, whatever happens in other threads: the thread's posts are those of its bursts - min(n, L) raw posts and max(0, n - L) / B summaries for each, one more summary for each burst but the last that left messages over - and the last burst's remainder is held back |
| BackgroundRunner.EveryInterleaving | core/background_runner.py:121-218 | in every interleaving of submitters, worker, cancels and shutdown: the active handle names exactly the one task between acceptance and release, or stranded; the queue holds at most one; at most one runs; callbacks are called exactly once and after release |
| BackgroundRunner.StartsAlone | core/background_runner.py:169-193 | when a task starts, nothing else runs or holds the slot |
| BackgroundRunner.ReleaseFreesOwnSlot | core/background_runner.py:186-189 | release always clears its own handle |
| BackgroundRunner.CancelHitsActiveTask | core/background_runner.py:195-206 | cancel sets the flag of exactly the task that holds the slot |
| BackgroundRunner.AcceptedIffFree | core/background_runner.py:145-160 | a submission is accepted exactly if no task holds the slot and there was no shutdown |
| BackgroundRunner.OneStageAtATime | core/background_runner.py:169-193 | each step takes a submission on by at most one stage; the callback comes last, with the slot long free |
| BackgroundRunner.WorkerFinishes | core/background_runner.py:169-193 | from any reachable state the worker alone brings a task in the executor to its end and callback in at most four steps, also after a shutdown |
| BackgroundRunner.StrandedExactlyIfClosed | core/background_runner.py:162-164 | a submission is stranded exactly if its hand-over finds the executor closed |
| BackgroundRunner.StrandedForEver | core/background_runner.py:145-167 | a stranded submission keeps the slot in every continuation and its callback is never called |
| BackgroundRunner.StrandingIsPossible | core/background_runner.py:162-164 | a shutdown between lock block and hand-over strands the task |
| BackgroundRunner.QuietAfterJoin | core/background_runner.py:208-218 | once the closing shutdown has waited, no task runs or will ever run |
| BackgroundRunner.ReturnIsQuietIffSettled | core/background_runner.py:208-218 | when a later shutdown call returns, no task is in the executor then or in any continuation, if and only if nothing is queued or running and the executor is closed or no submission is on its way to it |
| BackgroundRunner.LaterShutdownDoesNotWait | core/background_runner.py:208-218 | such a call can return while a task is running, and also while none is but one is on its way |
| BackgroundRunner.FutureWasQueued | core/background_runner.py:165-166 | the stored future always belongs to a task that reached the executor |
| BackgroundRunner.RecordedInTime | core/background_runner.py:165-166 | the future that a submitter stores belongs to the active task exactly if its own task has not been released meanwhile |
| BackgroundRunner.FutureIsActiveIffInTime | core/background_runner.py:165-189 | in every reachable state the stored future is absent or the active task's exactly if the last future stored since the last release was not stored after its own task's release |
| BackgroundRunner.FutureMayBeStale | core/background_runner.py:162-166 | a reachable state with the future of a finished task while another is active, and one in which a later submitter has repaired it |
| BackgroundRunner.BackgroundTaskRunner.SubmitLocked | core/background_runner.py:145-160 | the lock block of submit, as one step of the machine: it accepts with a fresh token, or names the reason of refusal |
| BackgroundRunner.BackgroundTaskRunner.HandOver | core/background_runner.py:162-164 | the executor queues the task, or refuses it after its shutdown, as one step of the machine |
| BackgroundRunner.BackgroundTaskRunner.RecordFutureLocked | core/background_runner.py:165-166 | the second lock block of submit, as one step of the machine |
| BackgroundRunner.BackgroundTaskRunner.WorkerTake | core/background_runner.py:169-179 | the worker starts the oldest queued task, as one step of the machine |
| BackgroundRunner.BackgroundTaskRunner.CallOnComplete | core/background_runner.py:190-193 | the callback after release, as one step of the machine |
| BackgroundRunner.BackgroundTaskRunner.ShutdownLocked | core/background_runner.py:214-217 | the flag of shutdown, as one step of the machine; it tells the first call from later ones |
| BackgroundRunner.BackgroundTaskRunner.CloseExecutor | core/background_runner.py:218 | the executor is closed, as one step of the machine |
| BackgroundRunner.BackgroundTaskRunner.CancelActive | core/background_runner.py:195-206 | cancel, as one step of the machine |
| BackgroundRunner.BackgroundTaskRunner.ReleaseLocked | core/background_runner.py:186-189 | release, as one step of the machine |
| JsonExtractor.BraceScan | core/json_extractor.py:105-139 | the candidate is the shortest text from the first brace whose braces outside string literals balance, and there is none exactly if none balances |
| JsonExtractor.ScanInvertsPrinter | core/json_extractor.py:105-139 | for every printed object, prefix and suffix the scan starts at the object, and its candidate is exactly the object, if and only if the prefix has no opening brace |
| JsonExtractor.ExtractJsonObject | core/json_extractor.py:24-68 | the strategies are tried in order: whole text, fenced text, scan |
| JsonExtractor.PrintedObjectIsExtracted | core/json_extractor.py:24-68 | an object printed into prose without an earlier brace is what is extracted, when the decoder takes neither the whole nor a fenced text |
| JsonExtractor.BareObjectIsExtracted | core/json_extractor.py:24-50 | an object alone, with white space around it, is what is extracted |
| JsonExtractor.FencedObjectIsExtracted | core/json_extractor.py:52-61 | an object in a fence, white space around it aside, is what is extracted, whatever braces the prose has, unless the decoder takes the whole text |
| JsonExtractor.ScanIsLast | core/json_extractor.py:52-68 | the scan decides exactly if the decoder takes neither the whole text nor what a fence holds |
| JsonExtractor.BlankHoldsNothing | core/json_extractor.py:46-48 | nothing is extracted from white space |
| JsonExtractor.EarlierBracesHideObject | core/json_extractor.py:105-139 | braces in the prose that are no object hide every later object |
| ImpactAnalysis.ReverseDependencyGraph | core/impact_analysis.py:3-12 | every node is a key and lists, sorted without duplicates, exactly the modules depending on it |
| ImpactAnalysis.ReverseUnique | core/impact_analysis.py:3-12 | the contract of the reverse graph leaves exactly one answer |
| ImpactAnalysis.ReverseTwice | core/impact_analysis.py:3-12 | reversing twice gives back every edge and no other, and makes every node a key |
| ImpactAnalysis.ImpactedModules | core/impact_analysis.py:15-33 | for every graph, cyclic ones included: sorted and without duplicates exactly the modules from which the changed one is reachable by one or more edges |
| Identifiers.SequencedNumber | core/agent_bus.py:44-66 | the number of a zero-padded id is read back, for every natural number |
| Identifiers.Pad6Width | core/agent_bus.py:66 | numbers up to 999999 get six digits, larger ones no leading zero |
| Identifiers.WritingsAreOne | core/agent_bus.py:33-41 | white space around an identifier or a task id and capital letters in it do not matter |
| Identifiers.NormalIsIdentifier | core/agent_bus.py:33-41 | what is in normal form is an identifier, and its own normal form |
| Identifiers.SequencedInjective | core/agent_bus.py:197-201 | different numbers make different ids |
| Identifiers.NextSequencedIdentifier | core/agent_bus.py:44-66 | the loop over stored ids, stripped and lower-cased, finds one above the largest number, and refuses ids that are not well formed |
| Identifiers.AllocatedIsNew | core/agent_bus.py:33-66 | the allocated id is none of the stored ones, however these are written |
| Identifiers.AllocatesAfterLast | core/agent_bus.py:44-66 | on ids with rising numbers it allocates one above the last |
| AgentBus.InMemoryAgentBus.OpenThread | core/agent_bus.py:84-106 | a thread is accepted exactly if all its fields are valid, and is then filed, field by field, in normal form under a new id; the thread counter moves in any case |
| AgentBus.InMemoryAgentBus.PublishRequest | core/agent_bus.py:108-128 | an accepted request is the log's one new message, field by field as given, and the newest entry of its recipient's inbox and of no other; a refused one leaves the log alone |
| AgentBus.InMemoryAgentBus.PublishReply | core/agent_bus.py:130-165 | an accepted reply is the log's one new message, field by field, in its target's thread and naming its target, and the newest entry of its recipient's inbox and of no other; a refused one leaves the log alone |
| AgentBus.InMemoryAgentBus.ListThreadMessages | core/agent_bus.py:167-173 | the thread's messages in the log, in order, also for unknown threads |
| AgentBus.InMemoryAgentBus.ListInbox | core/agent_bus.py:175-195 | the messages of the log to this project and role, in order |
| AgentBus.BusTheorem | core/agent_bus.py:69-241 | after any mixture of successful and failed operations: lists and index are exactly the filters of the log, times never fall along a thread and last_message_at is the latest, ids rise within the counter, and every reply names an earlier request of its thread |
| AgentBus.KeysDistinct | core/agent_bus.py:197-201 | in every reachable state no two logged messages share project, thread and id |
| AgentBus.AcceptedIff | core/agent_bus.py:197-241 | in every reachable state a message is accepted exactly if its thread is open, it is not older than the thread's last message or opening, and its number fits into an identifier |
| AgentBus.RefusedFor | core/agent_bus.py:197-241 | which error a refused message gets |
| AgentBus.ReplyGoesOnIff | core/agent_bus.py:130-147 | in every reachable state a reply goes on exactly if the log has a request under the key it names |
| AgentBus.ReplyRefusedFor | core/agent_bus.py:130-147 | which error a refused reply gets |
| AgentBus.CounterTheorem | core/agent_bus.py:197-241 | a thread's counter is its messages plus the publishes refused after the counter moved; without such a publish the ids are 1, 2, 3 and so on |
| AgentBus.AllocatorTheorem | core/agent_bus.py:44-66 | over any run, the id of a thread's next message is the one the allocator takes for the thread's stored ids, exactly if no publish has been refused after the counter moved since the thread's last message |
| AgentBus.FailureLeavesGap | core/agent_bus.py:197-241 | after a publish refused for its time the next id is one the allocator would not choose |
| AgentDm.AgentDmSingleReplyService.CloseOtherAgentSessions | core/agent_dm_reply.py:474-489 | exactly the sessions of the same owner and agent in other projects are closed, in whatever order they are listed |
| AgentDm.AgentDmSingleReplyService.ActivateSession | core/agent_dm_reply.py:448-472 | activation closes the rivals, keeps the creation time of an existing session, and fails after closing when the clock is before it |
| AgentDm.AgentDmSingleReplyService.ReplyOnce | core/agent_dm_reply.py:328-396 | the session is touched only when the model has answered with text |
| AgentDm.WhoIsActive | core/agent_dm_reply.py:448-489 | after an activation the project alone is active, or nobody exactly if it failed and the project was not active before; other owners and roles keep what they had |
| AgentDm.OneActiveTheorem | core/agent_dm_reply.py:448-489 | over any run, whatever the clock does, at most one active session per owner and agent |
| AgentDm.ClockGoingBackLeavesNone | core/agent_dm_models.py:144-145 | with the clock back before a session's creation, its activation leaves no session active |
| AgentDm.StoreTheorem | core/agent_dm_reply.py:448-489 | under a clock that does not go back the store is a function of the log: created at the first activation, last used at the last, active exactly if last of its owner and agent |
| AgentDm.CollectCandidateProjects | core/agent_dm_disambiguation.py:319-368 | the candidates are the owner's active projects that allow direct messages, each with the state of its session, sorted by slug |
| AgentDm.CandidatesTheorem | core/agent_dm_disambiguation.py:319-368 | who the candidates are: owner, status and policy of the project, and the state and time of its session, field by field |
| AgentDm.SortTheorem | core/agent_dm_disambiguation.py:363-368 | the candidates come sorted by slug, nobody is lost or added, and those with the same slug stay in the registry's order |
| AgentDm.AtMostOneActiveCandidate | core/agent_dm_disambiguation.py:571-582 | with one active session at most, at most one candidate has one |
| AgentDm.ResolveTheorem | core/agent_dm_disambiguation.py:370-498 | a message without an explicit choice goes to the project last activated with that agent if it is still eligible, however many others are; else to the only eligible one; else the owner is asked |
| AgentDm.ExplicitTheorem | core/agent_dm_disambiguation.py:418-450 | a message that names a project by its slug goes to the eligible project with that slug - the registry's last, if there are several - whatever sessions are active; with none the owner is asked; with no eligible project nothing applies |
| AgentDm.RoutedTheorem | core/agent_dm_disambiguation.py:378-393 | a message that carries a project of the registry goes to exactly that project |
| AgentDm.OthersAreNotApplicable | core/agent_dm_disambiguation.py:289-298 | any message that is no owner's private word to an agent other than the coordinator is not applicable, with its exact text, or refused if that is blank |
| ProjectBootstrap.SanitizeRepoName | core/project_bootstrap.py:42-54 | the loop over characters builds the specified name |
| ProjectBootstrap.SanitizeTheorem | core/project_bootstrap.py:42-54 | the result is empty exactly if the name has no ASCII letter or digit, else words joined by single separators that keep all letters and digits in order |
| ProjectBootstrap.WordsTheorem | core/project_bootstrap.py:42-54 | a sanitised name is exactly the longest runs of letters and digits of the name with one separator between each two |
| ProjectBootstrap.BaseIsWords | core/project_bootstrap.py:126-130 | the base of the identifiers is these words joined by underscores, with `repo_` before a leading digit |
| ProjectBootstrap.IdentityTheorem | core/project_bootstrap.py:57-133 | for every name slug, project id and adapter name are well formed and within 64 characters; the id is the base and the adapter name the base with its suffix, cut and trimmed exactly as far as needed; the fallbacks are taken for exactly the names without a letter or digit |

## Left out

- HTTP, Telegram, git, subprocess, file system, vector store, prompts, personas and reply texts: I/O, wiring and strings without a property.
- core/state_db.py is not part of this model: sessions are a map keyed by owner, project and role, and the database-backed bus appears only through its id allocator.
- Threads and the lock itself: the runner is a machine of atomic steps, one per lock block or executor action, in every order; `run_fn` and `on_complete` that raise are caught in the source and look like ones that return.
- Aliasing of task records: `PipelineMemory` stores task states as values in its map, so the source's in-place updates of one record are updates of the map entry.
- Type checks of frozen dataclasses and of dump entries (a non-string kind, a boolean counter): Dafny's types rule them out.
- Memory.NormalizeSeeds: when several seeds are bad the source reports the first in dictionary order; the model reports only that the seeds are invalid, because maps have no order.
- Memory.PipelineMemory.RestoreTask: bad seeds and bad loop counters of a dump are one error each, for the same reason; acceptance and the order of the kinds of errors are exact.
- Agent answers that are neither text nor None, and interrupts (`BaseException`), in the driver.
- Orchestrator.Orchestrator.InvokeRuntimeValidator: the summary and the rendered review of a failing report are part of the hook's answer; how `_build_runtime_review_payload` renders it is not modelled.
- Float rounding, and the six-digit formatting of the budget message.
- JsonExtractor.ExtractJsonObject: the JSON decoder and the fence pattern are parameters; whether the decoder accepts what the printer writes is not proved, only that it is given exactly that text.
- Observability.LatencyFiguresOrdered: the other figures of `agent_performance`, logs, metrics and the JSON-lines sink are not modelled.
- Throttle: `flush_all` is a sequence of flushes of single threads; registry errors raised in the middle of a publish, and the text of a summary, are not modelled.
- AgentBus: the status of a thread (always open) is left out; requests, replies and queries name their thread and role in normal form, as their constructors make them.
- AgentDm.ResolveTheorem: the pattern for an explicit project choice is a parameter; project ids are distinct, as the primary key of the store makes them.
- ProjectBootstrap: lower-casing is done before the model starts; names are any sequence of characters. The choice between registry and environment at start-up is wiring.
- The rule that the same fix twice in a row ends a run (stated in the state machine's document under docs/) is not in the code and so is not modelled.
