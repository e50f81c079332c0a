# A verified model of the Hydra queue runner

The queue runner keeps a graph of build steps, feeds per-system queues from it,
sends steps to builder machines, and finishes, fails, retries or cancels them. This
project models that scheduler, and four smaller parts beside it, and proves what
holds in every run.

`dafny verify dfyconfig.toml` checks everything.

## How it is built

Concurrent behaviour is a state machine, interleaved in any order. One event is one
section of the source between two points where a task waits for a lock or for the
database: sending a job and recording it as scheduled are two events, a failure for
good is one event for each pass over the dependents, a report looks up its path in one
event and acts in another. Algorithms and objects that work in place are methods and
classes, proved against the functions and relations the state machines use; what other
tasks do while a method waits is a parameter.

| files | what they hold |
|---|---|
| `Collections` | optional values, facts about sets |
| `Reachability` | walks, closed sets, transitivity |
| `StepGraph`, `StepGraphInvariant`, `StepGraphTheorems` | steps, registry, creation, waking, failing; the inductive invariant; topological safety, wake-ups, freedom from deadlock |
| `StepGraphInputs`, `StepGraphFlags` | what becomes of each input of a step: recorded, passed over, or the end of the creation; which events set the flags of a step |
| `StepGraphTwins` | two live objects of one path: exactly when a wake-up or a registration is lost and when a step is deadlocked |
| `StepGraphRuns`, `StepGraphDeadlock`, `StepGraphSkipped`, `StepGraphMissed` | three runs that deadlock |
| `StepTable` | the registry and the waking of dependents in place |
| `Scheduling`, `SchedulingInvariant`, `SchedulingFrames` | queues, `scheduled`, machines, the dispatch loop, tasks and calls; their agreement; what each operation leaves alone |
| `Runner`, `RunnerInvariant`, `RunnerTheorems`, `RunnerGraph` | graph and scheduling together; the whole invariant; order of sends, agreement, reports; the run of the graph inside a run of both |
| `RunnerReports` | where infos and calls come from, and what finishes a step |
| `RunnerRetries`, `RunnerMachines`, `RunnerForgotten` | retries and pauses; lost machines; steps that are never sent again |
| `RunnerScenarios`, `RunnerBound` | runs that break what one would expect |
| `Scheduler` | the scheduling operations in place, with other tasks at work in between |
| `Dependents`, `FailureLoop` | the depth-first walk over dependents, and the loop that fails every build above a step |
| `Priorities`, `PriorityRuns` | the breadth-first propagation of priorities, and priorities over whole runs of the graph |
| `StableSorting`, `BuildQueue`, `InnerQueues` | comparators, insertion, scrubbing, sorting |
| `Machines` | the index by system and the first-fit lookup |
| `FodChecker`, `JobsetWindow`, `BuildRows`, `Upload` | content-addressed derivations, scheduling window, database rows, chunked upload |
| `Text`, `NarInfo`, `NarInfoRoundTrip`, `NarInfoText` | the narinfo printer and parser, their round trip, the text itself |

A step is an object with its own identity, and the registry maps a path to one
object. A weak pointer is an identity that can be followed while the object is live.
Clocks, database answers, store queries, job identifiers and the pattern of short
reads are parameters, so every theorem holds for all of them.

## What the model found

- A step that failed for good can be sent out again, beyond max(1, max_retries) times:
  the task of the failure still holds its info while it fails the dependents, so the
  queue entry can be followed. `BoundExceeded` and `BoundBroken` are such runs.
  `RetryBoundExactly`: the bound holds in a run if and only if no step is sent out after it failed for good.
- A report whose turn comes before its job is recorded as scheduled is lost, and the job
  counts as being built from then on: `ReportLost`. A call acts if and only if its path is
  scheduled at its turn (`ActsIffScheduled`), so it may also act on a later job of the
  same path (`EarlyFinderActs`).
- A machine that is lost while it is sent a job can keep that job for good:
  `LostMachineKeepsJob`. `LostMachineKeepsExactly` says which jobs stay.
- A step whose job is dropped after a retry is never sent again, because the dispatch
  loop skips steps with `tries > 0`: `RetriedIsStranded` is such a run.
  `DiscardStrandsRetried` and `DropStrandsRetried` say exactly when, `OutNeverSent` that
  it is final.
- A new step of a path whose old info is still held by a task is inserted into the owning
  map and into no queue: `PathIsBlocked` is such a run, `InsertBlocksExactly` and
  `SkippedExactly` say exactly when. `NotForgotten` says that nothing else is forgotten,
  whatever the dispatch loop is doing.
- A new input with a cached failure stops the creation of its step (`FailedInputStops`). One
  that is known from another build and has failed is passed over like a finished one, so
  the step is built without it: `FailedInputPassedOver` is such a run, `PassedOverExactly`
  says exactly when.
- Registrations are removed by path. If two live objects share a path, removing one can
  unregister the other. `WakeUpLostExactly` says exactly when a wake-up is lost that way
  and `UnregisteredExactly` when a dependency of a registered step is; both can end in a
  deadlock (`TwinsDeadlock`, `SkippedDeadlock`).
- All creations for one new build share one set of new runnable steps, and the set compares
  steps by path. A second object of a path does not enter it: it stays registered and
  created, without dependencies and not runnable (`MissedDeadlock`, `MissedForEver`).
  `OverlookedExactly` says exactly when. `DeadlockedExactly` says what every deadlock ends
  in, and `DeadlockFreeUnlessTaken` that without a taken registration or place there is none.
- The walk over dependents keeps one object per path, so with two objects of one path
  above a failed step the failure loop can leave a build unfinished: `HiddenExactly` says
  exactly which, and `TwinsHideBuild` is a run in which it finishes none.
- A build that is propagated while a step below it is still being created misses the
  dependencies recorded later: `LateDependencyMisses`. `PrioritiesCarriedExactly` says
  exactly in which runs every step carries the priorities of the builds above it.
- A first read without room finishes the streaming hash early (`Read`), and an upload
  with a buffer of size zero stores nothing (`UploadFile`).

## Model

| member | source | states |
|---|---|---|
| StepGraphInvariant.EventKeeps | queue-runner/src/state/step.rs:244-302 | every event of the graph keeps the invariant: runnable steps are created and have no dependencies, every held dependency is live and has the reverse edge, a dependency is dropped only because it finished, a built step is a dependency only until its completion wakes its dependents |
| StepGraphInvariant.ResolveKeeps | queue-runner/src/state/mod.rs:1799-1813 | looking at an input, with its three outcomes, keeps the invariant; what becomes of each input is said, over runs, by the members of `StepGraphInputs` |
| StepGraphInvariant.CreateChildKeeps | queue-runner/src/state/mod.rs:1646-1658 | the get-or-create call for an input keeps the invariant, also when the step is known and undecided |
| StepGraphInvariant.WokenDepsExact | queue-runner/src/state/step.rs:250-262 | removal of dependencies by path drops exactly the steps that wake, no other object |
| StepGraphInvariant.WakeAllKeeps | queue-runner/src/state/step.rs:456-467 | waking for any set of finished steps keeps the invariant and leaves none of them as a dependency |
| StepGraphInvariant.FailKeeps | queue-runner/src/state/mod.rs:1380-1397 | forgetting all dependents of a failed step keeps the invariant |
| StepGraphInputs.FailedInputStops | queue-runner/src/state/mod.rs:1809-1811 | once the creation made for an input has stopped with a failure, the step that asked for it is created or runnable in no state of the run, earlier or later |
| StepGraphInputs.InputsAccounted | queue-runner/src/state/mod.rs:1799-1813 | once a step is created, every object it got for an input is a recorded dependency, or finished, or will never be built: known and failed, or new and given up without a failure |
| StepGraphInputs.EveryInputAskedFor | queue-runner/src/state/mod.rs:1776-1798 | a created step has asked for, or skipped, each input of its derivation |
| StepGraphInputs.SkippedIsFinished | queue-runner/src/state/mod.rs:1646-1651 | an input that is skipped has a finished step |
| StepGraphInputs.FinishedExactly | queue-runner/src/state/mod.rs:1760-1768 | a path counts as finished exactly from when a creation found nothing of it to build until the set is started anew |
| StepGraphInputs.RecordedExactly | queue-runner/src/state/mod.rs:1802-1808 | a dependency is recorded in a run if and only if it was looked at while unfinished and not failed, and, if new, not given up |
| StepGraphInputs.PassedOverExactly | queue-runner/src/state/mod.rs:1802-1808 | an input of a created step that has failed is not among its dependencies if and only if it was known and had already failed when it was looked at |
| StepGraphInputs.FailedDependencyBlocks | queue-runner/src/state/mod.rs:1716-1719 | if it is among them the step never becomes runnable |
| StepGraphInputs.FailedInputPassedOver | queue-runner/src/state/mod.rs:1656-1658 | a run in which a step becomes runnable although its only input, known from another build, has a cached failure |
| StepGraphFlags.FlagsExactly | queue-runner/src/state/mod.rs:1662-1820 | in every run a step is finished exactly if it was built or nothing of it was to be built, has failed exactly if a cached failure was found, and is created exactly if its creation came to its end |
| StepGraphFlags.RunnableOnlyAfter | queue-runner/src/state/mod.rs:454-474 | a step is runnable only after it was created and the creations of its nest are all over, or a step that lists it as a dependent finished and woke it |
| StepGraphTheorems.RunLater | queue-runner/src/state/step.rs:320-326 | over any stretch of a run flags never go back, no dependency is recorded after creation, no object is revived or registered again |
| StepGraphTheorems.TopologicalSafety | queue-runner/src/state/step.rs:244-302 | in every run, once a step is runnable, every dependency recorded for it at any time of the run has finished |
| StepGraphTheorems.OverlookedExactly | queue-runner/src/state/mod.rs:1815-1820 | in every reachable state a created step without dependencies is neither runnable nor about to be if and only if its check found another live object of its path in the set of new runnable steps and no wake-up has come since |
| StepGraphTheorems.NoLostWakeUp | queue-runner/src/state/step.rs:328-347 | in every reachable state a dependency has the reverse edge; a created step without dependencies is runnable or about to be if and only if it did not miss the set in this way; a finished dependency is being completed or is seen by the sweep, unless two live objects share a path |
| StepGraphTheorems.WaitsBelow | queue-runner/src/state/step.rs:279-302 | as long as anything a step waits for, directly or not, is unfinished, the step is neither runnable nor finished, in all later states |
| StepGraphTheorems.SweepWakes | queue-runner/src/state/mod.rs:471-474 | after the sweep no live step depends on a registered finished step without previous failure |
| StepGraphTheorems.DeadlockFree | queue-runner/src/state/mod.rs:1776-1827 | without failed creations, over acyclic derivations, every live unfinished step reaches something outstanding, and if it is registered something registered that somebody is going to act on |
| StepGraphTheorems.DeadlockFreeAfterSweep | queue-runner/src/state/mod.rs:454-474 | after the sweep, with no creation under way, it reaches a runnable unfinished step, registered if the waiting one is, or a completion in flight |
| StepGraphTwins.WakeUpLostExactly | queue-runner/src/state/mod.rs:471-474 | a finished dependency will be dropped if and only if it was built or no object of the same path took its registration |
| StepGraphTwins.LostForGood | queue-runner/src/state/step.rs:494-497 | after a lost wake-up the dependent is never runnable again |
| StepGraphTwins.UnregisteredExactly | queue-runner/src/state/mod.rs:1380-1397 | a dependency of a registered step that was not finished without a build is itself unregistered if and only if an object of the same path took its registration |
| StepGraphTwins.DeadlockedExactly | queue-runner/src/state/mod.rs:1776-1827 | without failed creations nobody acts on anything a live unfinished step waits for if and only if each end of its waiting is abandoned: finished without a build with its registration taken, or unfinished and unregistered or missed by the set of new runnable steps |
| StepGraphTwins.DeadlockFreeUnlessTaken | queue-runner/src/state/mod.rs:1776-1827 | freedom from deadlock over acyclic derivations with two objects of one path: every registered unfinished step reaches something registered that somebody acts on, unless an object of the same path took the registration of a step it waits for, or its place in the set of new runnable steps |
| StepGraphTwins.NoneTakenWithoutTwins | queue-runner/src/state/step.rs:92-105 | neither happens as long as no two live objects ever shared a path |
| StepGraphDeadlock.TwinsDeadlock | queue-runner/src/state/mod.rs:1388-1394 | a run without failed creations over acyclic derivations in which a created step waits for ever for a finished one |
| StepGraphSkipped.SkippedDeadlock | queue-runner/src/state/mod.rs:1380-1397 | such a run with no lost wake-up: the walk of a failure skips a dependent of the failed step because of a second object of its path, and nobody acts on what a registered step above waits for |
| StepGraphSkipped.SkippedForEver | queue-runner/src/state/mod.rs:1380-1397 | from then on that step never becomes runnable while the failed step is unfinished |
| StepGraphMissed.MissedDeadlock | queue-runner/src/state/mod.rs:1815-1820 | such a run with no lost registration: two objects of one path are created for one new build, the second does not enter the set of new runnable steps, and a registered step waits for it |
| StepGraphMissed.MissedForEver | queue-runner/src/state/mod.rs:454-456 | from then on that step never becomes runnable, for as long as it lives |
| StepGraphMissed.OverlookedForGood | queue-runner/src/state/step.rs:244-277 | a missed step of a derivation without inputs is overlooked for as long as it lives |
| StepTable.Steps.Create | queue-runner/src/state/step.rs:470-492 | get-or-create: the registered live step or a new one, with the parent pushed to its reverse dependencies, and nothing else changed |
| StepTable.Steps.CheckDeps | queue-runner/src/state/mod.rs:1815-1820 | a created step without dependencies enters the set of its nest unless an object of its path is there |
| StepTable.Steps.MakeNewRunnable | queue-runner/src/state/mod.rs:454-456 | when the nest is over exactly the steps of its set become runnable, in any order |
| StepTable.ReleaseIsMakeRunnable | queue-runner/src/state/mod.rs:454-456 | emptying the set is one event of the graph for each of its steps |
| StepTable.Steps.MakeRdepsRunnable | queue-runner/src/state/step.rs:244-277 | the loop over dependents is one wake of the graph; an unfinished step does nothing |
| StepTable.Steps.Sweep | queue-runner/src/state/step.rs:456-467 | in any order of the hash map, the sweep wakes for exactly the registered live finished steps without previous failure |
| StepTable.WakeAllCompose | queue-runner/src/state/step.rs:456-467 | waking for one set and then another is waking for both, so the order does not matter |
| StepTable.Steps.CloneRunnable | queue-runner/src/state/step.rs:441-454 | returns exactly the registered live runnable steps and drops exactly the dead entries |
| SchedulingInvariant.DoKeeps | queue-runner/src/state/queue.rs:249-287 | every operation of the dispatch loop, of tasks, calls and machines keeps queues, `scheduled`, flags, machines and what is in flight in agreement |
| SchedulingInvariant.SendKeeps | queue-runner/src/state/mod.rs:359-373 | putting a job on a machine, which may have been lost meanwhile, keeps the agreement although the job is not scheduled yet |
| SchedulingInvariant.ScheduleKeeps | queue-runner/src/state/queue.rs:249-261 | recording the job in flight as scheduled keeps the agreement |
| SchedulingInvariant.ApartKeeps | queue-runner/src/state/mod.rs:1112-1180 | the first section of completing or failing a path keeps the agreement, with the info held by the task that is left |
| SchedulingInvariant.RemoveKeeps | queue-runner/src/state/queue.rs:278-287 | removal by a task keeps the agreement, with every entry that can still be followed |
| SchedulingInvariant.EnqueueKeeps | queue-runner/src/state/queue.rs:198-226 | inserting a job keeps the agreement for any resulting order, also when the queue skips it |
| Scheduling.FailureExactly | queue-runner/src/state/mod.rs:1149-1180 | after the n-th counted failure, with n below max_retries, the step is due again the whole part of interval times backoff to the power n−1 later, in seconds; otherwise, or if the outcome may not be retried, a task is left that fails it |
| Scheduling.PauseExactly | queue-runner/src/state/mod.rs:1166-1166 | the pause is that whole part and no other number |
| Scheduling.FirstPause | queue-runner/src/state/mod.rs:1166-1166 | the first pause is the whole part of the interval |
| Scheduling.PowerLaws | queue-runner/src/state/mod.rs:1166-1166 | the power is one at 0, the base at 1 and a product over sums |
| Scheduling.RetriesExactly | queue-runner/src/state/build.rs:239-260 | which outcomes may be retried, one by one |
| Scheduling.TakenExactly | queue-runner/src/state/mod.rs:1112-1136 | completing or failing takes exactly the job of the path off the machine and `scheduled` |
| Scheduling.LostJobExactly | queue-runner/src/state/mod.rs:204-229 | a job listed for a lost machine is failed as one that may be retried |
| Scheduling.DiscardExactly | queue-runner/src/state/queue.rs:507-519 | a job given up by the dispatch loop leaves the owning map; its entry stays, because the loop holds it, and dead entries go |
| Scheduling.RemoveExactly | queue-runner/src/state/queue.rs:278-287 | the same for a job removed by its task |
| Scheduling.DropExactly | queue-runner/src/state/mod.rs:1998-2003 | a job dropped by path leaves, and all queues keep exactly what can be followed |
| SchedulingFrames.DoFewer | queue-runner/src/state/queue.rs:63-97 | no operation but an insertion makes an entry followable, adds one or gives a path another owner |
| RunnerInvariant.EffectKeeps | queue-runner/src/state/mod.rs:896-948 | every event of the whole scheduler keeps the whole invariant: graph, agreement, held steps, tasks, counters and pauses |
| RunnerTheorems.SentOnlyAfterDependencies | queue-runner/src/state/queue.rs:464-498 | in every run a step is sent to a machine only after every dependency ever recorded for it has finished |
| RunnerTheorems.SchedulingAgreement | queue-runner/src/state/queue.rs:249-287 | in every reachable state a derivation has at most one job over all machines, and has one exactly when it is scheduled there or has just been sent there; at most one entry of a path can be followed; flags, `current_jobs` and `active_runnable` agree; a job limit is never exceeded |
| RunnerTheorems.AtMostOnce | queue-runner/src/state/mod.rs:1206-1240 | after a report or a cancellation acted on a job, or its machine was lost, every later report with its identifier changes nothing, whoever sends it and wherever the derivation runs by then |
| RunnerTheorems.ActsIffScheduled | queue-runner/src/state/mod.rs:1112-1124 | a call that found its path acts if and only if the path is scheduled at its turn |
| RunnerTheorems.EarlyReportIsLost | queue-runner/src/state/queue.rs:491-498 | a report whose turn comes between sending and recording finds the job and changes nothing |
| RunnerReports.FinishedExactly | queue-runner/src/state/mod.rs:985-1009 | a runnable step is finished if and only if a call of success acted on it before |
| RunnerReports.FinishedByReport | queue-runner/src/state/mod.rs:1206-1240 | then a machine reported the success of a job of its path, by that call, while it had the job |
| RunnerReports.CallOrigin | queue-runner/src/state/mod.rs:1206-1240 | every call waiting for its turn has the path and the outcome of a report, or the path of a cancellation |
| RunnerReports.CompletionWakes | queue-runner/src/state/mod.rs:1103-1103 | when the completion of a step ends no live step waits for it any longer |
| RunnerReports.InfoOrigin | queue-runner/src/state/mod.rs:899-928 | every info was made for a step that had been collected while registered, runnable and never retried, and that was unfinished, with a path nobody owned |
| RunnerReports.OfferOutcome | queue-runner/src/state/queue.rs:198-218 | a collected step gets an info unless its path has an owner or it is finished |
| RunnerRetries.RetryBoundExactly | queue-runner/src/state/mod.rs:1149-1192 | all along a run a step object is sent out at most max(1, max_retries) times, each time but the last ended by a counted failure, if and only if it is never sent out after it failed for good |
| RunnerRetries.PlainBoundExactly | queue-runner/src/state/mod.rs:1149-1192 | the number of sends alone stays within max(1, max_retries) if and only if the sends after the failure for good are no more than the tries that were left |
| RunnerRetries.Backoff | queue-runner/src/state/mod.rs:1163-1170 | unless it is sent out after it failed for good, attempt k+1 starts no earlier than the k-th failure plus the whole seconds of interval times backoff to the power k−1 |
| RunnerRetries.BackoffSum | queue-runner/src/state/mod.rs:1163-1170 | and no earlier than the first failure plus the geometric sum of the first k pauses, up to a second for each |
| RunnerRetries.InFlightIsSent | queue-runner/src/state/queue.rs:464-498 | an entry that is due and not scheduled, of an unfinished step, can be chosen and sent whatever the step went through; if it had failed for good it counts as sent again |
| RunnerRetries.FailedOrWaiting | queue-runner/src/state/mod.rs:1149-1202 | a failure of a scheduled path lets it wait again exactly when it may be retried and tries are left; otherwise a task is left that fails it for good |
| RunnerRetries.FailureEnds | queue-runner/src/state/mod.rs:1192-1203 | when that task ends the step has left the registry, and it is out of the queues for good if and only if nothing else holds its info and it was not collected before |
| RunnerRetries.OutNeverSent | queue-runner/src/state/mod.rs:907-909 | a step object that is out of the queues, with tries counted or unregistered, is never sent to a machine again |
| RunnerRetries.OutNeverFinishes | queue-runner/src/state/mod.rs:985-1009 | such a step, if runnable and unfinished, is never finished |
| RunnerRetries.WaitsForEver | queue-runner/src/state/step.rs:279-302 | and whatever waits for it, directly or not, never becomes runnable |
| RunnerMachines.LostMachineKeepsExactly | queue-runner/src/state/mod.rs:204-229 | once all listed paths of a lost machine were dealt with and nothing is in flight to it, it has exactly the jobs recorded too late and not completed or failed since |
| RunnerMachines.StraySticks | queue-runner/src/state/mod.rs:204-229 | such a job stays on the lost machine and scheduled until its path is completed or failed |
| RunnerMachines.LostMachineEmpties | queue-runner/src/state/mod.rs:204-229 | if the dispatch loop had not chosen the machine when it was lost, then it has no job and nothing is scheduled on it once its listed paths were dealt with |
| RunnerForgotten.NotForgotten | queue-runner/src/state/mod.rs:899-928 | in every reachable state, whatever the dispatch loop is doing, a registered runnable unfinished step that neither failed for good nor was dropped after it had been sent out has an info of its own in the queue, or meets all that the next collection asks for, or its path is blocked, or another live step of its path has an info in the queue |
| RunnerForgotten.CollectableGetsQueued | queue-runner/src/state/mod.rs:899-928 | what meets all that is collected and inserted into its queue when the loop collects |
| RunnerForgotten.StrandedOnlyByDrop | queue-runner/src/state/mod.rs:907-909 | a registered step out of the queues for good failed for good or was dropped after it had been sent out, by an earlier event |
| RunnerForgotten.DiscardStrandsRetried | queue-runner/src/state/queue.rs:507-519 | dropping the chosen job of a registered step strands it if and only if it was retried before and no task holds its info |
| RunnerForgotten.DropStrandsRetried | queue-runner/src/state/mod.rs:1998-2003 | the same for a job dropped by path; it must not be scheduled either |
| RunnerForgotten.InsertBlocksExactly | queue-runner/src/state/queue.rs:72-84 | an inserted info is in no queue if and only if an entry of its path could still be followed |
| RunnerForgotten.BlockedOnlyByInsert | queue-runner/src/state/queue.rs:205-226 | in every run a path is owned by an info in no queue only after such an insertion |
| RunnerGraph.GraphRunIs | queue-runner/src/state/mod.rs:896-948 | every run of the whole scheduler contains a run of the graph |
| RunnerForgotten.SchedulerProgress | queue-runner/src/state/mod.rs:896-948 | freedom from deadlock of the whole scheduler, with two objects of one path too: unless one took the registration or the place of a step it waits for, a waiting step reaches something acted on, which if runnable is queued or collectable, unless it failed for good, was dropped, is blocked or has a live twin queued |
| RunnerScenarios.ReportLost | queue-runner/src/state/queue.rs:491-498 | a run in which any report is lost and its job is then recorded as scheduled |
| RunnerScenarios.LostMachineKeepsJob | queue-runner/src/state/mod.rs:204-229 | a run in which a lost machine keeps its job, scheduled and owned by nobody who acts on it |
| RunnerScenarios.BoundBroken | queue-runner/src/state/mod.rs:1192-1203 | for every number of tries a run in which a step is sent out twice without a counted failure |
| RunnerBound.BoundExceeded | queue-runner/src/state/mod.rs:1149-1203 | for every configured number of tries some run sends a step out max(1, max_retries) + 1 times |
| RunnerScenarios.RetriedIsStranded | queue-runner/src/state/queue.rs:507-519 | a run in which a retried step, registered, runnable and unfinished, is dropped and never sent again |
| RunnerScenarios.EarlyFinderActs | queue-runner/src/state/mod.rs:1224-1240 | a run in which a report for one job acts on a later job of the same path |
| RunnerScenarios.PathIsBlocked | queue-runner/src/state/queue.rs:198-226 | a run in which a registered runnable step has an owned path that no queue leads to |
| Scheduler.Queues.SucceedStep | queue-runner/src/state/mod.rs:985-1009 | completing in place is the first section of a completion; an unscheduled path changes nothing |
| Scheduler.Queues.FailStep | queue-runner/src/state/mod.rs:1112-1180 | failing in place is the first section of a failure, with the pause and the decision of `FailureExactly` |
| Scheduler.Queues.RemoveInTask | queue-runner/src/state/mod.rs:1192-1192 | the rest of a failure or completion removes the job and keeps the queue entries that can be followed |
| Scheduler.Queues.Meanwhile | queue-runner/src/state/mod.rs:1112-1203 | whatever other tasks do is a run that keeps the agreement and leaves the dispatch loop where it was |
| Scheduler.Queues.StepByUuid | queue-runner/src/state/mod.rs:1206-1240 | a report with others at work between lookup and turn: it acts if and only if its path is scheduled at its turn, and the last operation of the run is the answer to this call |
| Scheduler.Queues.RemoveMachine | queue-runner/src/state/mod.rs:204-229 | the jobs of a lost machine are failed one after the other with others at work before each; afterwards the machine has no job but one in flight to it |
| Scheduler.Queues.Settle | queue-runner/src/state/queue.rs:489-526 | a valid answer puts exactly one send of this job and one recording into the run, and the path is then scheduled on that machine, which has the job; a cancelled or failed one ends with the path out of the owning map; an error leaves everything |
| Scheduler.Queues.ProcessEntry | queue-runner/src/state/queue.rs:464-526 | one queue entry with others at work whenever the loop waits: it is kept waiting if and only if it is due and no machine was found; it is taken up if and only if it is due and one was found, and then settled by its answer; otherwise nothing is done |
| Scheduler.Queues.Process | queue-runner/src/state/queue.rs:450-532 | a dispatch pass with others at work: a round for exactly the queues there are, each once; in a round every entry of the queue is visited in order, as in `ProcessEntry`; the answer counts the waiting ones; all of it is a run that inserts nothing and takes up only unfinished steps |
| Scheduler.Queues.RemoveJob | queue-runner/src/state/queue.rs:278-287 | the info leaves the owning map and its queue keeps exactly the entries that can be followed |
| Dependents.GetDependents | queue-runner/src/state/step.rs:212-238 | the walk terminates on any graph, adds only steps reached over live reverse edges, is closed up to equal paths, and keeps one build for exactly the paths of open builds of visited steps |
| Dependents.VisitsExactly | queue-runner/src/state/step.rs:212-238 | it visits exactly the reachable steps if and only if these have pairwise different paths |
| Dependents.RepresentsExactly | queue-runner/src/state/step.rs:224-230 | its builds stand for exactly the paths of the unfinished builds above the step |
| FailureLoop.Failing.GetAllIndirectBuilds | queue-runner/src/state/mod.rs:1380-1397 | one walk; when it finds no build, exactly the visited paths leave the registry |
| FailureLoop.Failing.InnerFailJob | queue-runner/src/state/mod.rs:1267-1397 | with builds, steps and dependents joining, and steps freed, between passes: at the end the steps of the last walk are unregistered and have no unfinished build, each recorded build is finished and recorded once; with different paths, and no owned step freed, every build ever open above the step is finished; left alone it finishes exactly the open builds of the visited steps |
| FailureLoop.MoveKeepsAbove | queue-runner/src/state/step.rs:58-63 | whatever others do between passes, a build open above the step stays so unless it is finished or a step that something owns is freed |
| FailureLoop.HiddenExactly | queue-runner/src/state/step.rs:212-238 | a build is left open above the failed step if and only if it is open at a step above and at no visited one; with different paths there is none |
| FailureLoop.TwinsHideBuild | queue-runner/src/state/build.rs:31-45 | in a run of the graph, with builds attached, ended and steps forgotten as the code does, the failure of one input ends the first build; then the loop for the other finds no build and ends with a build above the failed step open |
| FailureLoop.LoopForG | queue-runner/src/state/mod.rs:1267-1397 | what happens to builds and registry in that run at the first failure is what the loop does |
| FailureLoop.OwnersKeepWalks | queue-runner/src/state/step.rs:58-63 | while unfinished builds own their steps, freeing other steps cuts no unfinished build off |
| FailureLoop.WalkGivesDependents | queue-runner/src/state/mod.rs:1388-1394 | the visited steps are what a final failure removes in the graph model |
| Priorities.PassExactly | queue-runner/src/state/build.rs:109-151 | the pass touches only steps below the build, all of them if these have different paths, and only then if the top level does not depend on itself |
| Priorities.Propagator.PropagatePriorities | queue-runner/src/state/build.rs:109-151 | terminates on any graph; the steps of one pass, all below the build, get maximum, maximum, minimum and union, all others stay; with different paths these are all steps below |
| Priorities.Propagator.UpdatePriorities | queue-runner/src/state/build.rs:654-671 | builds not current are dropped, and exactly the builds whose priority rose are propagated again by passes, in some order, on any graph |
| Priorities.PassesRaised | queue-runner/src/state/build.rs:109-151 | with different paths below each build, any sequence of passes gives every step the maximum, maximum, minimum and union over the builds it is below |
| Priorities.OrderIrrelevant | queue-runner/src/state/build.rs:109-151 | then two sequences of passes over the same builds give the same priorities, in any order, with any repetitions |
| PriorityRuns.PassCarriesExactly | queue-runner/src/state/build.rs:109-151 | a pass keeps the promise to its build if and only if it reaches every step below that does not carry it yet, and keeps all others |
| PriorityRuns.RecordCarriesExactly | queue-runner/src/state/mod.rs:1799-1813 | a new dependency keeps all promises if and only if all it leads to carries every build that the dependent is below |
| PriorityRuns.PrioritiesCarriedExactly | queue-runner/src/state/build.rs:654-671 | in every run, with the graph growing, each step below a tracked build has at least its priorities, at most its id, and its jobset, at all times, if and only if every pass and every recorded dependency is safe in this sense |
| PriorityRuns.PrioritiesCarried | queue-runner/src/state/mod.rs:1601-1607 | this holds in the whole run if every build is propagated when all steps below it are created and have different paths |
| PriorityRuns.LateDependencyMisses | queue-runner/src/state/mod.rs:1656-1657 | a run in which a build finds its top level still being created by another build, and a dependency recorded after its propagation never gets its priorities |
| BuildQueue.ComparatorsArePreorders | queue-runner/src/state/step_info.rs:77-136 | both comparators, extended to dead entries, are total preorders |
| BuildQueue.LessGoesFirst | queue-runner/src/state/step_info.rs:77-136 | less means goes first: global priority, share, dependents, local priority, build id |
| BuildQueue.Queue.SortJobs | queue-runner/src/state/queue.rs:100-126 | the stable sort over freshly refreshed shares; no other field of any entry changes |
| BuildQueue.Queue.ScrubeJobs | queue-runner/src/state/queue.rs:129-134 | exactly the live entries stay, in order, and are counted |
| BuildQueue.Queue.InsertNewJobs | queue-runner/src/state/queue.rs:63-97 | exactly the old live entries and the accepted new ones, sorted and counted, at most one per path |
| BuildQueue.AcceptedCompletes | queue-runner/src/state/queue.rs:72-90 | what is accepted is offered, live and new; afterwards every offered live path is present, none twice |
| InnerQueues.Inner.InsertNewJobs | queue-runner/src/state/queue.rs:198-226 | every offered unfinished step whose path is not owned becomes owned; it is queued unless an entry of its path that was there can still be followed, next to exactly those entries |
| InnerQueues.SkippedExactly | queue-runner/src/state/queue.rs:72-84 | the second look of the queue skips a submitted info if and only if an entry of its path that was there before can still be followed |
| InnerQueues.TakeAllOwners | queue-runner/src/state/queue.rs:205-218 | exactly the old paths and the offered unfinished ones are owned; old owners stay |
| StableSorting.StableSortUnique | queue-runner/src/state/queue.rs:114-123 | a stable sort by a total preorder is unique, so the algorithm does not matter |
| Machines.Registry.Sort | queue-runner/src/state/machine.rs:297-309 | every list is stably sorted by score and then by load, and lists what it listed |
| Machines.Registry.InsertMachine | queue-runner/src/state/machine.rs:362-379 | a fresh machine is listed under exactly its systems, and every list is in descending score |
| Machines.Registry.RemoveMachine | queue-runner/src/state/machine.rs:382-399 | the machine leaves every list, and order is kept |
| Machines.ListedIffSupports | queue-runner/src/state/machine.rs:290-294 | a list has exactly the registered machines that support its system |
| Machines.Registry.AskCapacity | queue-runner/src/state/machine.rs:775-812 | the answer, and the reset of an old burst window as its only effect |
| Machines.Registry.GetMachineForSystem | queue-runner/src/state/machine.rs:416-450 | the machine returned supports the system and every required feature, has no mandatory one that was not required, does not refuse, and has the highest score among these; none only if every registered machine lacks one of these; `builtin` takes a machine of any system |
| Machines.Registry.Resolve | queue-runner/src/state/queue.rs:379-399 | the same for the features of the step and of the queue together |
| Machines.CapacityExactly | queue-runner/src/state/machine.rs:735-812 | a machine refuses exactly for a burst of four jobs, a full disk, a pressure or load above its threshold, or its job limit, each where the rule asks for it |
| Machines.ScoreExactly | queue-runner/src/state/machine.rs:820-840 | the three scores |
| Machines.CapacityKept | queue-runner/src/state/machine.rs:770-812 | sending to a machine just found free keeps its job limit, for the two rules that look at it |
| Machines.MachineRefines | queue-runner/src/state/machine.rs:685-724 | the machines of the scheduler are these with all but jobs and limit left out: a send and a removal do the same to both, and a machine found free has room |
| Machines.Registry.BuildDrv | queue-runner/src/state/machine.rs:713-724 | the job is appended, the jobs are counted, the burst window starts or grows |
| Machines.Registry.RemoveJob | queue-runner/src/state/machine.rs:881-904 | all jobs of the path leave, the first is returned, the burst counter wraps |
| FodChecker.CollectCaDerivations | queue-runner/src/state/fod_checker.rs:15-58 | the recursive walk with a shared set adds what is below the root and returns the content-addressed ones of what it added |
| FodChecker.Checker.Traverse | queue-runner/src/state/fod_checker.rs:84-109 | the roots are drained and exactly the content-addressed derivations below them are added |
| FodChecker.AnyOrderExact | queue-runner/src/state/fod_checker.rs:41-52 | however the calls interleave, the result is exactly that |
| FodChecker.VisitsEnd | queue-runner/src/state/fod_checker.rs:15-58 | every call marks a new path or uses up a call, so no run is endless |
| JobsetWindow.Jobset.AddStep | queue-runner/src/state/jobset.rs:77-80 | the entry is put, the counter grows, a replaced duration is accounted for |
| JobsetWindow.Jobset.PruneSteps | queue-runner/src/state/jobset.rs:82-98 | exactly the entries at or before now − window go, and exactly their durations are subtracted |
| JobsetWindow.SecondsAccounted | queue-runner/src/state/jobset.rs:77-98 | after any history `seconds` is the window sum plus the overwritten durations |
| JobsetWindow.SecondsExact | queue-runner/src/state/jobset.rs:77-98 | with distinct start times it is exactly the window sum |
| BuildRows.ApplyKeeps | crates/db/src/connection.rs:124-171 | every statement of every session keeps the row invariant |
| BuildRows.BusyIffNoStatus | crates/db/src/connection.rs:149-171 | a step row is busy exactly while its status is NULL |
| BuildRows.StepNumbersContiguous | crates/db/src/connection.rs:456-511 | the step numbers of a build are 1, ..., n, with allocation and insertion interleaved |
| BuildRows.NumbersUnique | crates/db/src/connection.rs:467-511 | no two insertions give the same number |
| BuildRows.TerminalStatusStays | crates/db/src/connection.rs:325-381 | a finished build row never changes again |
| BuildRows.UnguardedUpdate | crates/db/src/connection.rs:295-322 | if check and update did not share a transaction, the update would overwrite a terminal status if and only if a statement in between finished the build with another status |
| BuildRows.StatusWrittenBy | crates/db/src/connection.rs:295-381 | in every run a build has status x if and only if it was unfinished when it was aborted (3), failed with x, or marked as succeeded with `failed` unset (0) or set (6) |
| BuildRows.StepRowAfter | crates/db/src/connection.rs:149-171 | what each statement makes of a step row: finishing writes its status, clearing aborts busy rows, progress shows only on busy ones |
| BuildRows.CodesReadBack | crates/db/src/models.rs:7-55 | the number of each status, and that no two share one |
| BuildRows.Database.CreateBuildStep | crates/db/src/connection.rs:743-768 | with other sessions inserting in every round the loop tries again exactly as long as they take the number, then inserts one row with the next number and keeps the invariant |
| BuildRows.Database.MarkSucceededBuild | crates/db/src/connection.rs:838-869 | an unfinished build that is there becomes finished with status 0, or 6 if `failed` is set; all other builds and all steps stay |
| Upload.HashingReader.PollRead | crates/binary-cache/src/streaming_hash.rs:60-88 | the hash is that of the bytes given so far, and the result cell is written once |
| Upload.HashingReader.Read | crates/binary-cache/src/streaming_hash.rs:60-88 | the result is that of the whole stream if and only if there was room or nothing was left |
| Upload.ReadChunk | crates/binary-cache/src/lib.rs:169-184 | a chunk is full unless the stream ended, for every pattern of short reads |
| Upload.RunMultipartUpload | crates/binary-cache/src/lib.rs:187-224 | the parts are the first chunk and the rest of the stream in chunks; the size is that of both |
| Upload.UploadFile | crates/binary-cache/src/lib.rs:417-505 | the object holds the stream if and only if there is a buffer or nothing to store, and hash and size are those of the whole stream |
| Upload.ChunksFlatten | crates/binary-cache/src/lib.rs:197-215 | the parts concatenate to the stream |
| Upload.ChunksFull | crates/binary-cache/src/lib.rs:197-215 | every part but the last is exactly as long as the buffer, none is empty |
| NarInfo.Render | crates/binary-cache/src/narinfo.rs:161-196 | the buffer holds the fields in order, one a line, absent options left out |
| NarInfo.Parser.FromStr | crates/binary-cache/src/narinfo.rs:219-345 | the line loop computes the parse: values, unknown keys, comments, missing fields, the first error with its line |
| NarInfo.PrintedPath | crates/nix-utils/src/store_path.rs:19-34 | a printed store path is read back if and only if its base name has no leading slash or the directory ends with one |
| NarInfo.CompressionBack | crates/binary-cache/src/compression.rs:41-85 | every compression name is read back |
| NarInfoText.PrintedText | crates/binary-cache/src/narinfo.rs:161-196 | the printed text letter by letter: the names, their order, which lines may be absent |
| NarInfoText.WrittenExactly | crates/binary-cache/src/narinfo.rs:167-171 | sizes are printed in decimal without a zero in front |
| NarInfoText.NumberExactly | crates/binary-cache/src/narinfo.rs:279-295 | a size is read from its decimal digits, perhaps after a plus sign, if it fits into 64 bits, and from nothing else |
| NarInfoText.AcceptedExactly | crates/binary-cache/src/narinfo.rs:327-344 | a text of readable lines is accepted if and only if it has the five required fields; otherwise the first missing one is reported |
| NarInfoText.OtherLines | crates/binary-cache/src/narinfo.rs:240-256 | blank lines, comments and unknown fields change nothing; a line without a colon is an error with its number |
| NarInfoText.CompressionExactly | crates/binary-cache/src/compression.rs:73-86 | which words name which compression |
| NarInfoRoundTrip.ParsedIsClean | crates/binary-cache/src/narinfo.rs:243-323 | whatever is parsed has values that fit on one line and references without space |
| NarInfoRoundTrip.PrintThenParse | crates/binary-cache/src/narinfo.rs:161-345 | parsing what was printed always succeeds, and loses only empty entries and path prefixes |
| NarInfoRoundTrip.RoundTripExactly | crates/binary-cache/src/narinfo.rs:161-345 | a narinfo comes back unchanged if and only if its values fit on their lines, nothing listed or optional is empty, and its paths are base names |
| NarInfoRoundTrip.RoundTrip | crates/binary-cache/src/narinfo.rs:161-345 | every narinfo of non-empty values without space comes back, with all sizes, options and lists |

## Left out

- Servers, builder client, tracing, metrics, status dump, configuration: input and output only.
- Nix bridge, object store client, signing, compression codecs, SHA-256: foreign code; hashing is a fold and store queries are parameters.
- SQL: each statement is an update of a map of rows, and only the check and update of `mark_succeeded_build` share one step; web-side writers of Hydra are not part of this model.
- Errors of the database and of the message queue: calls succeed, so early returns by `?` are not modelled.
- Sections without a wait: a report's lookup, the first section of `succeed_step` and `fail_step` up to the removal of the job, one walk of the failure loop with its removals from the registry, and one decision of the dispatch loop are each one event, although other threads could run inside them.
- Losing a machine and copying its job list are one event; a job put on the machine by another thread between the two is not modelled.
- A nest of creations ends when no creation of it is under way; that it also waits for its own calls to the database is not modelled.
- Re-registration of a machine id: machine ids are fresh.
- A dispatch pass of the state machine takes entries in any order; `Process` takes them queue by queue from a copy, as the source does.
- Largest timeout over the dependent builds, log paths and build options of a job.
- Empty queues that a joining machine creates for its systems; they hold no entry.
- Machine integers: `tries`, `seconds`, priorities and sizes of uploads are unbounded; only the burst counter of a machine wraps and narinfo sizes are 64 bits wide.
- Floating point: scores, shares and pauses are reals; `total_cmp` on NaN and the saturation of the cast of a pause are not modelled.
- Wait-time, runnable-since and sort-duration statistics of the queues.
- The uploader's task list and its saved form.
- Failed multipart uploads: only the completed path of `upload_file` is modelled.
- DeadlockFree: requires that no two live objects ever shared a path, because with two the claim is false; `DeadlockFreeUnlessTaken` and `DeadlockedExactly` are the general forms.
- InnerFailJob: that every build above the step is finished is stated for pairwise different paths above it, because otherwise it is false (`TwinsHideBuild`); `HiddenExactly` is the exact form.
- PrioritiesCarried: requires that all steps below a build are created when it is propagated, because otherwise it is false (`LateDependencyMisses`); `PrioritiesCarriedExactly` is the exact form.
