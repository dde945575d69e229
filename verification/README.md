# A verified model of Mistral's execution engine

Mistral runs workflows: graphs of tasks whose executions are rows of one
database shared by many engine processes.  This project models how the engine
moves those rows from state to state and proves what the moves keep over whole
runs.  Each `db_api.transaction()` block is one atomic step; an update that is
filtered by the old value is a compare-and-set.  Expressions (conditions,
published values, break-on and similar clauses) are arbitrary choices, so every
theorem holds whatever they evaluate to.

| file | what it models |
|---|---|
| `Wrappers.dfy`, `States.dfy`, `WorkflowSpec.dfy` | optional values; task and workflow states; a direct workflow as a finite graph |
| `JoinLogic.dfy`, `RouteCache.dfy`, `AffectedJoins.dfy`, `JoinMoves.dfy` | when a join may run: the route search, its depth-limited cache, the verdict, the search for joins affected by a task, and how verdicts move |
| `Policies.dfy`, `DirectRun.dfy`, `DirectTheorems.dfy`, `DirectEngine.dfy` | what policies make of a completion; a direct workflow run as a state machine, its theorems, and an engine object whose methods refine the machine |
| `Clauses.dfy`, `Ends.dfy` | what the end of a task leads to and stores, and what a completion check makes of it, read off the clauses of the definition |
| `Reopening.dfy`, `ReopeningRun.dfy` | completed joins that are put back to waiting: exactly when a verdict is taken back, and runs in which it is |
| `PausedRun.dfy`, `PausedTheorems.dfy`, `PausedExamples.dfy` | a direct workflow run with pauses: what completes in a pause is held until the resume; what such runs keep, exactly when a resume loses something, and runs in which it does |
| `WithItems.dfy`, `Sorting.dfy` | a task over a list of items with bounded parallelism |
| `PauseTree.dfy` | pausing and resuming a tree of sub-workflows, down and up |
| `ContextKeys.dfy`, `ContextMerge.dfy`, `ContextRuns.dfy` | contexts with versioned variables: merging upstream contexts, recording what was published, and whole histories |
| `Scheduler.dfy`, `Cron.dfy` | schedulers sharing a job store; engines sharing a cron trigger |
| `Dispatcher.dfy`, `BacklogJoins.dfy` | dispatching commands, the backlog of a paused workflow, and the joins that pass through it |
| `Retry.dfy`, `RetryDecisions.dfy` | the policies that delay, fail, retry and time out a task, and what they decide in terms of what is configured |
| `Reverse.dfy` | reverse workflows |

`dafny verify dfyconfig.toml` checks everything.

## Readings of the code worth knowing

* A join that is judged ready to run can lose that verdict: a trigger that
  arrives late puts a completed inbound join back to waiting
  (`VerdictIsRevoked`, a run of every workflow of a simple shape).  Each step
  keeps the verdict exactly if enough of the tasks that gave it are not
  launched again (`RunningVerdictStays`), keeps the verdict that a join must
  fail exactly if enough stays lost to it (`ErrorVerdictStays`), and nothing
  but launching a completed join again takes a verdict back
  (`RevokedOnlyByReopening`).
* A join that a resume creates or puts back to waiting gets no refresh, because
  the search for affected joins ran when its predecessors completed, in the
  pause.  If they give it a verdict at once, it sleeps for good
  (`JoinFallsAsleep`, `AsleepForever`).  Exactly such joins are the wake-ups
  that a resume loses (`ResumeWakesExactly`).
* A resume that finds nothing to dispatch but no-ops does not look for
  completion; if all tasks completed in the pause, the workflow runs on with
  nothing left to do (`CompletionIsMissed`) until it is stopped or paused again
  (`MissedForever`).  The exact condition is in
  `PausedRun.ResumeMissesCompletion`.
* Conditions are evaluated again on resume, so a resume may also leave out what
  a held task stored as its next tasks; it does not if they evaluate as before
  (`AgreeingGrounds`).  A run keeps the invariant of runs without pauses in all
  its states exactly if no resume of it does any of the three
  (`SafeRunsExactly`).
* A join saved in the backlog comes back as a task that does not wait: only
  commands that carry neither wait flag nor key, and do not rerun a task,
  survive the backlog unchanged (`BacklogRoundTrip`).  In every run a started
  join has lost its wait flag exactly if a pause was ahead of it in its pass or
  in the backlog (`JoinsLoseWaitExactly`).
* A task with a timeout computes its next commands twice in some runs exactly
  if it also has wait-before or a positive retry count
  (`ComputesOnceExactly`), because continuing a task does not look whether it
  was completed meanwhile.
* Default requirements of a reverse workflow apply to the tasks they name as
  well.  If a task named there requires anything, there is a cycle and no run
  ever starts a task (`DefaultRequirementStalls`); acyclic requirements stay so
  exactly if the tasks named there require nothing
  (`DefaultsStayAcyclicExactly`).  In general a run can start and cannot stall
  exactly if what the target needs is acyclic (`StallsExactly`).
* Pausing a sub-workflow reaches what lives below the nearest workflow upwards
  that is paused already, itself included (`PauseTree.Store.PauseWorkflow`), so
  it leaves nothing running exactly if all that runs is below that one
  (`PausesAllExactly`); there are pauses that leave a workflow running
  (`PauseTree.Store.PauseLeavesRunning`).  Resuming climbs as long as no other
  paused task holds the workflow above back
  (`PauseTree.Store.ResumeWorkflow`).

## Model

| member | source | states |
|---|---|---|
| States.MovesByTarget | mistral/workflow/states.py:54-90 | from which states a legal move leads to each state: the table of moves, transposed |
| WorkflowSpec.InboundIsEdge | mistral/lang/v2/workflows.py:238-298 | inbound tasks and outbound names are converse to each other |
| WorkflowSpec.MinimalTask | mistral/workflow/direct_workflow.py:516-548 | in an acyclic graph every nonempty set of tasks has one that no other of them leads to; the ground of termination and of deadlock freedom |
| JoinLogic.PossibleRouteIsChain | mistral/workflow/direct_workflow.py:516-548 | the search answers "possible" if and only if a chain of tasks without executions leads from a start task, or from a task that a running or completed execution may still trigger, to the task asked about; the depth given does not matter |
| JoinLogic.VerdictMeans | mistral/workflow/direct_workflow.py:350-514 | a join of a number is RUNNING if and only if that many inbound tasks have triggered it, and ERROR if and only if so many are lost that the others cannot make up the number; a join of all is RUNNING if and only if all have triggered it, and ERROR if and only if one is lost; "lost" is completed without triggering it, or out of reach |
| JoinLogic.TriggersAreExact | mistral/workflow/direct_workflow.py:424-429 | a join that may run names exactly the tasks that triggered it, each with the event of its last stored entry for the join |
| JoinLogic.NothingWaitingDecides | mistral/workflow/direct_workflow.py:350-486 | if no inbound task is still waiting, the verdict is not WAITING, for "all" and for every valid number |
| JoinLogic.VerdictStays | mistral/workflow/direct_workflow.py:350-486 | once some inbound states give a verdict, later states in which only waiting ones changed give the same |
| JoinLogic.VerdictNeedsMover | mistral/workflow/direct_workflow.py:350-486 | a new verdict needs an inbound state that moved |
| JoinLogic.CardinalityIsMeaningful | mistral/workflow/direct_workflow.py:350-486 | a waiting join reports a number of missing preconditions between 1 and the number of inbound tasks, any other verdict reports 0 |
| JoinLogic.CardinalityIsMissing | mistral/workflow/direct_workflow.py:438-486 | a waiting join reports the number asked for, or of all inbound tasks, less those that have triggered it |
| JoinLogic.ErrorNamesFailing | mistral/workflow/direct_workflow.py:424-475 | a join of all that must fail names exactly the inbound tasks that ended without triggering it; a join of a number that must fail names none |
| RouteCache.FindAllParentTaskNames | mistral/workflow/direct_workflow.py:550-566 | the recursive collection returns exactly the tasks with a walk of bounded length to the given one, or that one itself when it has no inbound tasks |
| RouteCache.PrefetchReach | mistral/workflow/direct_workflow.py:550-582 | the prefetched names are exactly those 1 to 4 edges upstream, or the task itself when it is a start task |
| RouteCache.Cache.Prepare | mistral/workflow/direct_workflow.py:568-582 | after preparing, each cached entry is what the table holds, and all direct inbound tasks of the join are cached |
| RouteCache.Cache.Require | mistral/workflow/direct_workflow.py:528-541 | a missing entry is looked up and added; the cache stays faithful to the table |
| RouteCache.Cache.PossibleRoute | mistral/workflow/direct_workflow.py:516-548 | the search that reads and fills the cache returns what the search without a cache returns, flag and depth |
| RouteCache.Cache.GetInducedJoinState | mistral/workflow/direct_workflow.py:488-514 | the cached calculation of an inbound state equals the uncached one |
| RouteCache.GetJoinLogicalState | mistral/workflow/direct_workflow.py:350-486 | the engine's loop over inbound tasks, with cache and counters, returns the verdict, number and triggers of the specification |
| AffectedJoins.FindIndirectlyAffected | mistral/workflow/direct_workflow.py:226-261 | on every graph, cyclic ones included, the work-list search terminates and returns exactly the existing joins that a path from the task reaches without crossing another existing join |
| JoinMoves.AffectedMissesNothing | mistral/workflow/direct_workflow.py:226-261 | if the transaction that completes t gives some existing waiting join a verdict, that join is among those found from t |
| JoinMoves.ImpossibleStays | mistral/workflow/direct_workflow.py:516-548 | a task that cannot be reached any more stays so and is never created, while completed executions stay completed |
| JoinMoves.InducedStays | mistral/workflow/direct_workflow.py:488-514 | an induced state that is not WAITING never changes |
| JoinMoves.VerdictIsFinal | mistral/workflow/direct_workflow.py:350-486 | a verdict RUNNING or ERROR is the verdict in every later table |
| JoinMoves.SomeJoinIsDecided | mistral/workflow/direct_workflow.py:350-548 | in a grounded table where every execution is completed or waiting, some waiting join has a verdict |
| DirectRun.NextTasksMean | mistral/workflow/direct_workflow.py:295-348 | which transitions a completed task takes: those listed for an event its end state raises, under conditions that hold; a skipped task falls back to "on-success" if and only if no "on-skip" entry applies |
| Clauses.FoundInOrder | mistral/workflow/direct_workflow.py:295-348 | the commands found are the targets of exactly the entries taken, one for each: those for the error or the skip, then those for success, then those for completion, each clause in its own order |
| Clauses.LaunchedMeans | mistral/engine/dispatcher.py:132-178 | a task is launched at the end of another if and only if it is the target of an entry taken which no entry taken with a state change is ahead of |
| Clauses.StateAfterMeans | mistral/engine/dispatcher.py:132-178 | the workflow goes to the state that the first entry taken with a state change asks for, and stays where it is without one |
| Clauses.HandlesErrorMeans | mistral/engine/tasks.py:415-418 | a command handles the error if and only if the task has an on-error entry whose condition, if any, holds |
| Ends.EndStores | mistral/engine/tasks.py:401-444 | the end of a task stores its state, its next tasks in the order of the definition without engine commands, and the error as handled if and only if an on-error entry applies; in a completed workflow it stores no next tasks and no handled error; a check is pending if the task leads nowhere, and exactly the affected joins get a refresh unless the workflow is completed |
| Ends.HeldEndStores | mistral/engine/tasks.py:401-424 | the same is stored at an end in a pause |
| Ends.CompletionDecides | mistral/engine/policies.py:227-406 | in which of its possible states a completion leaves a task, by the outcome, what its policies do, and whether it is a join |
| Ends.LateRefreshDoesNothing | mistral/engine/task_handler.py:469-490 | a refresh of a join that runs or is completed, or in a completed workflow, changes nothing |
| Ends.CheckFollowsDefinition | mistral/workflow/direct_workflow.py:263-276 | over every run: a check ends the workflow in SUCCESS if and only if all tasks are completed, none was cancelled and every failed one had an on-error entry to take when it ended, and in ERROR if and only if some failed one had none |
| DirectTheorems.StepKeepsInv | mistral/engine/tasks.py:357-432 | every step keeps: start tasks exist, next tasks of completed tasks have executions, decided waiting joins have a pending refresh, and a check is pending when all is done |
| DirectTheorems.JoinsDoNotDeadlock | mistral/workflow/direct_workflow.py:350-548 | in every reachable state of a running workflow whose executions are all completed or waiting, some waiting join is judged RUNNING or ERROR and its refresh is pending |
| DirectTheorems.NoWakeUpIsLost | mistral/engine/task_handler.py:317-364 | in every reachable state a waiting join that has a verdict has a pending refresh |
| DirectTheorems.CompletionWakesJoin | mistral/engine/task_handler.py:317-364 | the very transaction that gives a join its verdict finds it and schedules its refresh, whatever the policies of the completed task made of its end |
| DirectTheorems.RefreshDecides | mistral/engine/task_handler.py:469-527 | performing the refresh makes the join RUNNING if and only if that is the verdict; on the verdict ERROR it ends in ERROR if and only if no policy delays or retries it, is DELAYED if and only if wait-after delays it, and else waits again with a refresh pending |
| DirectTheorems.CompletionIsNotMissed | mistral/engine/tasks.py:401-444 | a running workflow whose tasks are all completed has a pending check, and that check completes it |
| DirectTheorems.DoneWithoutCheckIsFinal | mistral/engine/workflow_handler.py:91-110 | a started workflow with all tasks completed and no pending check is in a final state |
| DirectTheorems.CheckIsExact | mistral/engine/workflows.py:443-490 | a check completes the workflow if and only if all tasks are completed, with CANCELLED if and only if one was cancelled, and with SUCCESS if and only if none was cancelled and every error was handled |
| DirectTheorems.NeverStuck | mistral/engine/workflows.py:443-490 | in every reachable state of a running workflow a task is active, or a decisive refresh is pending and can be performed (to run always, to fail exactly under the conditions that any failing task meets), or the final check is pending |
| DirectTheorems.DecisiveRefreshIsEnabled | mistral/engine/task_handler.py:469-527 | if what a failed join triggers are joins or engine commands, its refresh can be performed whatever its policies and conditions |
| DirectTheorems.VerdictsAreFinal | mistral/workflow/direct_workflow.py:350-486 | along every run that reopens nothing, a join judged RUNNING or ERROR is judged the same ever after; Reopening has the exact condition for steps that reopen |
| DirectTheorems.InducedStatesAreFinal | mistral/workflow/direct_workflow.py:488-514 | along such a run an induced state leaves WAITING at most once |
| DirectTheorems.ImpossibleIsNeverCreated | mistral/workflow/direct_workflow.py:516-548 | along such a run a task the search rules out is never created |
| Reopening.RunningVerdictStays | mistral/engine/tasks.py:271-286 | after any step a join judged RUNNING is judged so if and only if the step launches none of the tasks that triggered it (join of all), or leaves at least the number asked for, the ended task counted if it triggers the join (join of a number) |
| Reopening.ErrorVerdictStays | mistral/engine/tasks.py:271-286 | after any step a join judged ERROR is judged so if and only if enough is lost to it: what is lost once the ended task counts, without the tasks launched again and those that a chain of missing tasks from a launched one leads to |
| Reopening.EndingLoses | mistral/workflow/direct_workflow.py:488-548 | the end of a task loses to a join nothing but the task itself, if it does not trigger the join, and tasks to which it kept the way open |
| Reopening.LostAfterLaunch | mistral/workflow/direct_workflow.py:488-548 | launching gives back exactly the launched tasks and the missing ones that a chain from them leads to |
| Reopening.ReopeningRevokes | mistral/engine/tasks.py:271-286 | a step that launches again a task that triggered a join of all takes the verdict of that join back |
| Reopening.RevokedOnlyByReopening | mistral/workflow/direct_workflow.py:350-548 | a step that changes a verdict, RUNNING or ERROR, launches again a completed task upstream of the join |
| ReopeningRun.VerdictIsRevoked | mistral/engine/tasks.py:247-286 | every workflow in which two start tasks trigger a join of one, and that a join of all, has a run and a next step that takes back the verdict RUNNING of the second join |
| ReopeningRun.DiamondExists | mistral/engine/tasks.py:247-286 | there is such a workflow, valid and acyclic |
| DirectEngine.EvaluateClause | mistral/workflow/direct_workflow.py:295-348 | the loop over an "on-..." clause keeps the transitions whose condition holds, in order |
| DirectEngine.EvaluateNextTasks | mistral/workflow/direct_workflow.py:295-348 | finds what the specification finds, whose contents and order Clauses.FoundInOrder reads off the definition |
| DirectEngine.SaveNextTasks | mistral/engine/tasks.py:401-418 | engine commands are left out of the stored next tasks |
| DirectEngine.Engine.StartWorkflow | mistral/workflow/direct_workflow.py:110-123 | creates executions of exactly the start tasks |
| DirectEngine.Engine.Defer | mistral/engine/tasks.py:247-286 | a waiting execution is created, found, or put back to waiting |
| DirectEngine.Engine.Dispatch | mistral/engine/dispatcher.py:132-178 | launches the tasks in front of the first command that changes the workflow state, then sets that state |
| DirectEngine.Engine.CompleteTask | mistral/engine/tasks.py:357-432 | ignores completed tasks; else the new tables, state and pending work are those of the completing step of the state machine, policies included, or in a pause of the holding step |
| DirectEngine.Engine.AfterTaskComplete | mistral/engine/policies.py:227-406 | wait-after delays, fail-on fails a success, and retry delays the task or, for a join, makes it wait again with a refresh scheduled, but never a cancelled one |
| DirectEngine.Engine.FinishTask | mistral/engine/tasks.py:374-432 | the post-completion logic: next commands, stored next tasks, handled errors, the check, dispatching and the search for affected joins are those of the state machine; in a pause there is no check and no dispatch, and the task is held |
| DirectEngine.Engine.SaveCompletion | mistral/engine/tasks.py:401-418 | stores state, next tasks and handled error of one task and changes no other; Ends.EndStores says what they are by the definition |
| DirectEngine.Engine.DispatchNext | mistral/engine/tasks.py:426-444 | registers a check if and only if the task leads nowhere, and dispatches |
| DirectEngine.Engine.CheckAffectedTasks | mistral/engine/task_handler.py:317-364 | schedules a refresh of exactly the affected joins, unless the workflow is completed |
| DirectEngine.Engine.RefreshTaskState | mistral/engine/task_handler.py:469-527 | refines the refreshing step, paused or not: nothing if the join or the workflow moved on, else the join runs, or is completed with ERROR under its policies |
| DirectEngine.Engine.CheckAndComplete | mistral/engine/workflows.py:443-490 | refines the checking step |
| DirectEngine.Engine.PauseWorkflow | mistral/engine/workflows.py:178-197 | refines the pausing move, once |
| DirectEngine.Engine.ResumeWorkflow | mistral/engine/workflows.py:199-224 | refines the resuming move of a paused workflow and leaves any other alone |
| DirectEngine.Engine.FindHeldCommands | mistral/workflow/direct_workflow.py:85-108 | the loop evaluates what each unprocessed completed task leads to now, in order |
| DirectEngine.RemovePauses | mistral/engine/workflows.py:308-314 | the loop drops exactly the pause commands |
| DirectEngine.Engine.ContinueWorkflow | mistral/engine/workflows.py:308-327 | marks all tasks processed, and dispatches or else looks for completion |
| PausedRun.ActKeepsPaused | mistral/engine/tasks.py:357-432 | whatever step is taken in a pause, what is not held has led to existing tasks, and a waiting join with a verdict has a pending refresh |
| PausedTheorems.PauseLaunchesNothing | mistral/engine/tasks.py:420-424 | no step in a pause creates an execution, changes a task other than the one it names, or the state of the workflow unless it stops it |
| PausedRun.LaunchAwakeExactly | mistral/engine/task_handler.py:317-364 | if every waiting join with a verdict has a refresh before some tasks are launched, they all have one after it if and only if no launched join without a refresh is decided by what has triggered it or is lost to it |
| PausedRun.ResumeMissesCompletion | mistral/engine/workflows.py:308-327 | a resume leaves a workflow running with all tasks completed and no pending check if and only if all were completed before, no check was pending, and what the held tasks lead to is no-ops alone, at least one, pauses not counted |
| PausedRun.PausingMakesUp | mistral/engine/workflows.py:178-224 | pausing and resuming such a workflow once more completes it |
| PausedTheorems.ResumeIsSafeExactly | mistral/engine/workflows.py:308-327 | a resume keeps the invariant of running workflows if and only if it covers the stored next tasks of held tasks, lets no launched join fall asleep, and does not miss the completion |
| PausedTheorems.ResumeWakesExactly | mistral/engine/task_handler.py:317-364 | after a resume no wake-up is lost if and only if no launched join falls asleep |
| PausedTheorems.AgreeingGrounds | mistral/workflow/direct_workflow.py:81-108 | if the conditions evaluate as they did at completion, a resume covers the stored next tasks |
| PausedTheorems.HeldInOrder | mistral/workflow/direct_workflow.py:100-106 | what held tasks lead to is found task by task, in the order in which they are read |
| PausedTheorems.SafeRunsExactly | mistral/engine/workflows.py:178-224 | the invariant holds in all states of a run with pauses if and only if every resume of it is safe |
| PausedTheorems.PausesLoseNoWakeUp | mistral/engine/task_handler.py:317-364 | along such runs, paused or running, a waiting join with a verdict has a pending refresh |
| PausedTheorems.PausesDoNotDeadlock | mistral/workflow/direct_workflow.py:350-548 | along such runs, with nothing active, some waiting join has a verdict and a pending refresh |
| PausedTheorems.PausesMissNoCompletion | mistral/engine/workflows.py:443-490 | along such runs a running workflow with all tasks completed has a pending check, which completes it |
| PausedTheorems.MissedForever | mistral/engine/workflows.py:308-327 | a workflow that has missed its completion stays running, with the same executions, through all moves until it is stopped or paused |
| PausedTheorems.AsleepForever | mistral/engine/task_handler.py:317-364 | a join left waiting without a refresh when all else is completed stays so, with the same executions, through all steps, checks, pauses and resumes until the workflow is stopped or something acts on the join itself |
| PausedExamples.CompletionIsMissed | mistral/engine/workflows.py:308-327 | every workflow whose start tasks all lead to a no-op has a run in which they are started, succeed in a pause, and the resume misses the completion |
| PausedExamples.JoinFallsAsleep | mistral/engine/workflows.py:308-327 | every workflow whose start tasks all lead to one join that needs no others has a run in which they succeed in a pause, and the resume leaves the join waiting for good, although it may run |
| PausedExamples.QuietExists | mistral/engine/workflows.py:308-327 | there is a valid, acyclic workflow of the former kind |
| PausedExamples.JoinOfAllStartsExists | mistral/engine/workflows.py:308-327 | there is one of the latter kind |
| WithItems.NextIndexesAreSane | mistral/engine/tasks.py:1065-1087 | in every round the chosen items are distinct, ascending, in range, and no more than the free capacity |
| WithItems.NextIndexesAreExact | mistral/engine/tasks.py:1065-1087 | in every round the next items are the first ones, as many as the capacity allows, of: the items with rejected executions only and all behind the last of these, or, without such, all behind as many as are accepted or under way |
| WithItems.CapacityIsConserved | mistral/engine/tasks.py:1089-1112 | over every interleaving of a first round, free capacity plus executions whose handler has not run equals the limit, so no more than the limit run |
| WithItems.UnfinishedIsAttended | mistral/engine/tasks.py:847-884 | an unfinished task always has a running execution or a pending handler |
| WithItems.CompletesWhenAllHandled | mistral/engine/tasks.py:1006-1038 | without a cancelled item a limited task is completed if and only if every item was started and handled |
| WithItems.EndsAsItemsDo | mistral/engine/tasks.py:1006-1038 | with or without a limit a completed task is CANCELLED if and only if an accepted execution was, otherwise ERROR if and only if one failed, and otherwise SUCCESS; without a cancelled item it is completed only when all items are accepted; once all are handled it is completed |
| WithItems.CancelledEndsAtOnce | mistral/engine/tasks.py:1006-1010 | any handler that runs while an accepted execution is cancelled ends the task in CANCELLED at once, whatever is still running |
| WithItems.ItemsStartOnce | mistral/engine/tasks.py:1056-1087 | items are started in order, once each, and at completion all of them |
| WithItems.ReportsAreKept | mistral/workflow/data_flow.py:172-187 | every execution has the outcome and the output that were reported for it, and runs until then |
| WithItems.TaskResult | mistral/workflow/data_flow.py:172-187 | the loop returns the outputs of the accepted executions in item order |
| WithItems.ResultIsAccepted | mistral/workflow/data_flow.py:172-187 | in every round the result has the outputs of exactly the accepted executions, in their order |
| WithItems.ResultsAreInItemOrder | mistral/workflow/data_flow.py:172-187 | whatever the order of completion and of the stored rows, the result has one entry per item and entry i is the output reported for item i |
| WithItems.WithItemsTask.constructor | mistral/engine/tasks.py:1117-1125 | the first round starts as specified |
| WithItems.WithItemsTask.DecreaseCapacity | mistral/engine/tasks.py:1098-1112 | fails if and only if the capacity is exceeded, else takes it |
| WithItems.WithItemsTask.IncreaseCapacity | mistral/engine/tasks.py:1089-1096 | gives back one unit, never beyond the limit |
| WithItems.WithItemsTask.ScheduleActions | mistral/engine/tasks.py:886-918 | starts the chosen items one by one without the capacity error ever being raised |
| WithItems.WithItemsTask.OnActionComplete | mistral/engine/tasks.py:847-884 | refines the handling step of the specification |
| Sorting.SortIsCorrect | mistral/workflow/data_flow.py:180-182 | sorting gives an ordered permutation |
| Sorting.SortedIsUnique | mistral/workflow/data_flow.py:180-182 | with different ranks the sorted order is unique |
| PauseTree.RootDecidesAll | mistral/engine/workflows.py:178-197 | if the root has a state and below each workflow of that state all live ones have it, all live workflows of the tree have it |
| PauseTree.PausedSomeTransitive | mistral/engine/workflow_handler.py:190-206 | partial pausings compose: workflows only move from running to paused, and a task is paused with its sub-workflow |
| PauseTree.ResumedSomeTransitive | mistral/engine/workflow_handler.py:234-253 | partial resumings compose |
| PauseTree.Store.PauseWorkflow | mistral/engine/workflow_handler.py:190-206 | terminates although it recurses down and up, and pauses exactly the live workflows below the nearest paused workflow at or above the given one (of the whole tree, if none is paused); no other workflow moves, and a task is paused exactly if it runs and a sub-workflow of it is paused by the call |
| PauseTree.PausesAllExactly | mistral/engine/workflow_handler.py:190-206 | a pause leaves nothing running if and only if all that runs is below the nearest paused workflow upwards, or there is none |
| PauseTree.Store.PauseLeavesRunning | mistral/engine/workflow_handler.py:190-253 | pausing a running tree, resuming two sub-workflows beside paused tasks, one above the other's workflow, and pausing the lower one leaves the other running |
| PauseTree.RunningTreePauses | mistral/engine/workflow_handler.py:190-206 | in a running tree pausing any live workflow pauses every live one |
| PauseTree.PauseKeepsClosed | mistral/engine/workflow_handler.py:190-206 | pausing never leaves a live workflow paused below a running one, the state in which resuming is understood |
| PauseTree.Store.PauseTasks | mistral/engine/workflow_handler.py:193-202 | the loop over the tasks pauses either just the sub-workflows with all below them, or, because a running one reports upwards, all that pausing the workflow itself reaches |
| PauseTree.Store.PauseSubs | mistral/engine/workflow_handler.py:194-202 | the same for the sub-workflows of one task |
| PauseTree.Store.PauseSub | mistral/engine/workflow_handler.py:194-202 | completed sub-workflows are passed over |
| PauseTree.Store.PauseSelf | mistral/engine/workflows.py:178-197 | a workflow that is already paused reports nothing; otherwise it reports, and all above it up to the nearest paused one are paused with what lives below them |
| PauseTree.Store.OnActionPaused | mistral/engine/task_handler.py:177-204 | the task above follows, and its workflow is paused as far as that reaches |
| PauseTree.Store.UpdateTask | mistral/engine/tasks.py:447-476 | a task moves exactly if it is not completed, the move is legal, and it would not run over a paused sub-workflow |
| PauseTree.Store.ResumeWorkflow | mistral/engine/workflow_handler.py:234-253 | terminates; a workflow that is not paused is left alone, and resuming a paused one resumes exactly the paused workflows below the last one upwards that the resume climbs to: it climbs from a workflow to the one above if that is paused, and no task of it is, not counting the starter unless the starter has another paused sub-workflow |
| PauseTree.Store.ResumeTasks | mistral/engine/workflow_handler.py:236-248 | the loop over the tasks resumes either just the sub-workflows with all below them, or, because one reports upwards, all that resuming the workflow itself reaches |
| PauseTree.Store.ResumeSubs | mistral/engine/workflow_handler.py:240-248 | the same for the sub-workflows of one task |
| PauseTree.Store.ResumeSub | mistral/engine/workflow_handler.py:240-248 | completed sub-workflows are passed over |
| PauseTree.Store.ResumeSelf | mistral/engine/workflows.py:199-224 | sets the workflow running and reports upwards; with all below it running, what changes is exactly what the climb from it reaches |
| PauseTree.Store.OnActionResumed | mistral/engine/task_handler.py:206-215 | the task above follows unless another sub-workflow of it is paused; if then some task of the workflow above is paused nothing else changes, otherwise that workflow runs, with all that resuming it reaches |
| PauseTree.RoundTrip | mistral/engine/workflow_handler.py:190-253 | pausing all and resuming all restores every workflow, and restores all tasks if and only if each task above a live workflow was running |
| PauseTree.Store.PauseAndResume | mistral/engine/workflow_handler.py:190-253 | the same for the two operations called one after the other, from any workflow of the tree |
| PauseTree.Store.PauseOrResume | mistral/engine/workflow_handler.py:190-253 | any sequence of pauses and resumes of any workflows of the tree can be performed and keeps that |
| ContextKeys.KeysAreDistinct | mistral/workflow/context_versioning.py:56-73 | for names that are not empty and have no dot, different paths have different dotted keys |
| ContextKeys.OtherNamesClash | mistral/workflow/context_versioning.py:56-73 | and for no other name: each name that is empty or has a dot is in a path that shares its key with a path without that name, whose other names are proper or shorter |
| ContextKeys.HashedKeysAreDistinct | mistral/workflow/context_versioning.py:64-71 | the same for the hashed keys, given that the hash is injective |
| ContextMerge.MergeCtx | mistral/workflow/context_versioning.py:97-124 | the loop that works right entries into the left dictionary gives the merge of the specification |
| ContextMerge.MergedLeaf | mistral/workflow/context_versioning.py:97-124 | each leaf of a merge comes from the strictly newer side, from the left one on ties, and from the only side that has it |
| ContextMerge.MergedPaths | mistral/workflow/context_versioning.py:97-124 | the merged tree has exactly the paths of either side |
| ContextMerge.MergeVersions | mistral/workflow/context_versioning.py:127-133 | the loop gives the pointwise maximum of the versions |
| ContextMerge.MergeContextByVersion | mistral/workflow/context_versioning.py:76-87 | values and versions of the merged context |
| ContextMerge.InternalIsDropped | mistral/workflow/context_versioning.py:76-87 | a merged context has the entries of both sides except the internal one |
| ContextMerge.MergedContext | mistral/workflow/context_versioning.py:76-133 | value and version of every path of a merged context in terms of the two |
| ContextMerge.MergeIsAssociative | mistral/workflow/context_versioning.py:76-133 | merging is associative for contexts of one shape with versions for leaves present only |
| ContextMerge.EvaluateUpstreamContext | mistral/workflow/data_flow.py:121-161 | the loop folds the merge over the upstream contexts, the last one or the additional one first |
| ContextMerge.MergedUpstream | mistral/workflow/data_flow.py:140-161 | the fold has, for every path, the highest version among the contexts and a value of a context that has it |
| ContextMerge.UpstreamWinner | mistral/workflow/data_flow.py:140-161 | with or without an additional context, a variable comes from the first context in the order of merging among those that have it at the highest version; the additional one, if not empty, is merged first, or else the last upstream one |
| ContextMerge.OrderDoesNotMatter | mistral/workflow/data_flow.py:140-161 | two orders of the same contexts give the same versions, and the same value wherever holders of the highest version agree |
| ContextRuns.KeyHasPath | mistral/workflow/context_versioning.py:56-73 | every published key is the key of a path to a leaf |
| ContextRuns.PathHasKey | mistral/workflow/context_versioning.py:56-73 | every path to a leaf has its key published |
| ContextRuns.GetPublishedKeys | mistral/workflow/context_versioning.py:56-73 | the recursion appends to the list passed in exactly the published keys, each once if names are proper |
| ContextRuns.IncrementAll | mistral/workflow/context_versioning.py:35-45 | each key in the list is incremented, from 0 if it is new |
| ContextRuns.GetInContextWithVersions | mistral/workflow/context_versioning.py:29-47 | the version of exactly the published leaves grows by one |
| ContextRuns.OutboundVariable | mistral/workflow/data_flow.py:240-262 | a published variable leaves the task with its new value and the next version, any other one unchanged |
| ContextRuns.VersionsGrow | mistral/workflow/data_flow.py:240-262 | from a task to the one it triggers versions never decrease, and grow where the task publishes |
| ContextRuns.RepublishingRaises | mistral/workflow/context_versioning.py:29-47 | n publications along a chain raise the version by at least n |
| ContextRuns.InheritingKeeps | mistral/workflow/context_versioning.py:76-133 | on branches that only inherit from the fork the version stays |
| ContextRuns.RepublishedBeatsInherited | mistral/workflow/context_versioning.py:29-133 | at a join the value comes from a branch that republished since the fork, whatever the order, if there is one |
| Scheduler.CapturesAreSpaced | mistral/scheduler/default_scheduler.py:287-316 | over every interleaving of schedulers, stops and crashes two captures of one job are at least the recapture timeout apart |
| Scheduler.EachValueIsWonOnce | mistral/scheduler/default_scheduler.py:303-316 | each value of the captured-at column is replaced by at most one capture |
| Scheduler.NoJobIsLost | mistral/scheduler/default_scheduler.py:259-285 | a job that is gone was captured, then invoked, then deleted, by one scheduler |
| Scheduler.NoJobIsEarly | mistral/scheduler/default_scheduler.py:104-169 | a thread that works on a stored job, from memory or from the store, does so only after the job's time has come |
| Scheduler.DelayIsKept | mistral/scheduler/default_scheduler.py:187-257 | over every continuation of a run in which a job is scheduled with a delay, it is due when the delay is over, and whoever works on it, captures it or has invoked it does so then or later |
| Scheduler.PollingWaitsLonger | mistral/scheduler/default_scheduler.py:130-169 | a scheduler comes to it by polling only after the pick-up delay more |
| Scheduler.ScheduledIsQueued | mistral/scheduler/default_scheduler.py:187-257 | it is stored with that time, not captured, and queued by the scheduler that took it and no other |
| Scheduler.DueIsDispatched | mistral/scheduler/default_scheduler.py:104-128 | the earliest queued job can be taken up from memory if and only if its delay is over |
| Scheduler.FirstComesFirst | mistral/scheduler/default_scheduler.py:104-128 | in every run a scheduler takes the jobs in its memory up by their times, and of two with the same time the one scheduled first |
| Scheduler.AnySchedulerCanFinish | mistral/scheduler/default_scheduler.py:150-169 | whatever crashed, every running scheduler can still bring every stored job to its end |
| Scheduler.StopsKeepJobs | mistral/scheduler/default_scheduler.py:78-102 | stopping drops the queue in memory and nothing else; a crash takes only the scheduler and its threads; no job leaves the store |
| Scheduler.MemoryQueue.ScheduleInMemory | mistral/scheduler/default_scheduler.py:243-257 | the job is queued under the next sequence number and known by its id |
| Scheduler.MemoryQueue.DispatchOne | mistral/scheduler/default_scheduler.py:104-128 | takes out the earliest entry if it is due, and else leaves everything |
| Scheduler.MemoryQueue.Forget | mistral/scheduler/default_scheduler.py:259-285 | the id of a processed job is dropped |
| Scheduler.MemoryQueue.StopQueue | mistral/scheduler/default_scheduler.py:88-102 | queued jobs are dropped from memory only |
| Cron.FiringIsConserved | mistral/services/periodic.py:119-162 | with any number of engines and stale copies, firings made and left add up to the limit, and equal it once the trigger is deleted |
| Cron.NoTimeFiresTwice | mistral/services/periodic.py:119-162 | fired times strictly grow, limited or not |
| Cron.CurrentCopyWins | mistral/services/periodic.py:119-162 | an engine fires if and only if its copy is what is stored; an unlimited trigger is never deleted |
| Cron.AdvanceIsExact | mistral/services/periodic.py:119-162 | an engine with a current copy fires its time and leaves the next time it was given with one execution less, or no trigger after the last one; any other changes nothing |
| Cron.CronStore.AdvanceCronTrigger | mistral/services/periodic.py:119-162 | deletes, updates or leaves the stored row as specified and tells whether it changed it |
| Dispatcher.BacklogRoundTrip | mistral/workflow/commands.py:292-334 | a command survives the backlog unchanged if and only if it does not rerun a task and carries neither wait flag nor key |
| Dispatcher.JoinLosesWaitInBacklog | mistral/workflow/commands.py:317-334 | a join comes back from the backlog as a task that does not wait; BacklogJoins says when that happens in runs |
| BacklogJoins.StartedAsHandedIn | mistral/engine/dispatcher.py:93-178 | in every run a started command is the one handed in if it was ahead of the first state change of its pass and the backlog had not stopped the workflow, and otherwise what saving and restoring leaves of it |
| BacklogJoins.JoinsLoseWaitExactly | mistral/workflow/commands.py:292-334 | a started join still waits if and only if it was started at once in that sense; otherwise it is an ordinary task without a key |
| Dispatcher.RearrangeCommands | mistral/engine/dispatcher.py:44-90 | no-ops go; what is before the first state change is permuted with joins last and ascending; what is behind it is kept only behind a pause |
| Dispatcher.ArrangedKeepsLive | mistral/engine/dispatcher.py:44-90 | every possible rearrangement keeps the tasks with no fail or succeed ahead of them |
| Dispatcher.WorkflowExecution.PollCommandsFromBacklog | mistral/engine/dispatcher.py:102-120 | restores all saved commands in order and empties the backlog |
| Dispatcher.WorkflowExecution.SaveCommandToBacklog | mistral/engine/dispatcher.py:93-100 | appends the saved form of the command and changes nothing else |
| Dispatcher.WorkflowExecution.ProcessCommand | mistral/engine/dispatcher.py:132-178 | one command starts its task, sets the state it asks for, or does nothing, as specified |
| Dispatcher.WorkflowExecution.ProcessCommands | mistral/engine/dispatcher.py:132-178 | the loop with its early exit handles the rearranged commands one by one as specified |
| Dispatcher.WorkflowExecution.DispatchWorkflowCommands | mistral/engine/dispatcher.py:124-129 | the backlog is processed before the new commands |
| Dispatcher.DispatchingConserves | mistral/engine/dispatcher.py:93-178 | one dispatch loses no command and repeats none, whatever state it ends in |
| Dispatcher.StartedOnceOrKept | mistral/engine/dispatcher.py:93-178 | over any rounds of dispatching, pausing and resuming, a command to run a task with no fail or succeed ahead of it is started once or is in the backlog, not both; one behind such a command is never started |
| Dispatcher.PassStartsJoinsInOrder | mistral/engine/dispatcher.py:28-90 | one pass over a running workflow starts its joins in ascending key order behind all other tasks, keeps fewer pauses than it was given, and leaves the workflow in the state that the first state-changing command asks for |
| Dispatcher.ResumeDrains | mistral/engine/workflows.py:308-327 | a resume without new commands drains the backlog or uses up a pause of it |
| Dispatcher.BacklogDrains | mistral/engine/workflows.py:308-327 | with no new commands the backlog is empty, or the workflow over, after at most one resume more than the pauses it held, whatever is paused in between |
| Dispatcher.ResumeStartsNothing | mistral/engine/workflows.py:308-327 | in any run a resume that has something to dispatch leaves the workflow running with nothing started if and only if the backlog is empty and the new commands are no-ops |
| Dispatcher.NothingIsStarted | mistral/engine/workflows.py:308-327 | there is such a run: a task is started, the workflow is paused, and resumed with the no-op that the task leads to |
| Retry.ConstructPoliciesList | mistral/engine/policies.py:57-69 | the list has, in factory order, the task's own policy or else the default |
| Retry.AfterPoliciesInOrder | mistral/engine/policies.py:45-69 | whatever is configured, wait-after acts before fail-on and fail-on before retry |
| Retry.PoliciesDecide | mistral/engine/policies.py:45-69 | the state after the policies of any configuration is the one that the direct-workflow machine takes: delayed by wait-after, else failed by fail-on, else delayed by retry |
| Retry.BeforePoliciesInOrder | mistral/engine/policies.py:45-69 | before a task starts only wait-before and timeout act, in this order |
| Retry.TaskExecution.constructor | mistral/engine/tasks.py:478-489 | a new execution with the policies of its task |
| Retry.TaskExecution.BeforeTaskStart | mistral/engine/tasks.py:478-482 | the loop applies the policies in the order of the list |
| Retry.TaskExecution.AfterTaskComplete | mistral/engine/tasks.py:484-489 | the loop applies the policies in the order of the list |
| Retry.TaskExecution.WaitAfterTask | mistral/engine/policies.py:227-266 | delays a completion once, remembering its state |
| Retry.TaskExecution.RetryTask | mistral/engine/policies.py:289-406 | decides between another attempt and the end as specified; RetryDecisions.TriesAgainExactly says when by the clauses |
| Retry.TaskExecution.Complete | mistral/engine/tasks.py:357-432 | ignores completed tasks, stops at delayed ones, and else computes the next commands and dispatches them unless paused |
| Retry.TaskExecution.Handle | mistral/engine/task_handler.py:260-313 | start requests, action results and scheduled jobs act as specified |
| Retry.RetryEnds | mistral/engine/policies.py:289-406 | unless a timeout clashes, every run with retry count c starts the action at most c + 1 times, takes at most 4c + 7 deliveries, computes the next commands at most once, and exactly once when nothing is under way any more |
| Retry.AttemptsFollowFailures | mistral/engine/policies.py:289-406 | without break-on, continue-on and timeout a task that fails has made all c + 1 attempts, and without fail-on it makes another attempt only after a failed one |
| Retry.ComputedIsDispatched | mistral/engine/tasks.py:420-432 | in a workflow that is not paused what is computed is dispatched |
| Retry.ClashComputesTwice | mistral/engine/task_handler.py:260-286 | for every configuration with a timeout beside wait-before or a positive retry count there is a run that computes the next commands twice |
| Retry.ComputesOnceExactly | mistral/engine/policies.py:165-446 | the next commands are computed at most once in all runs if and only if there is no such clash |
| Retry.ConfigurationComputesOnce | mistral/engine/policies.py:165-446 | the same by what is configured: with a timeout there must be no wait-before and no positive retry count |
| RetryDecisions.ListIsConfigured | mistral/engine/policies.py:45-69 | the list has exactly the configured policies in factory order, where the task's own retry settings count whenever it has any, and the defaults only otherwise |
| RetryDecisions.StartMeans | mistral/engine/policies.py:165-225 | a start runs the action at once or after wait-before, and arms a timeout if and only if there is one |
| RetryDecisions.WaitsOnce | mistral/engine/policies.py:227-266 | the first outcome of a task with wait-after is put off and remembered, and nothing is retried or computed yet |
| RetryDecisions.TriesAgainExactly | mistral/engine/policies.py:285-406 | any other outcome leads to another attempt if and only if retries are left and it is a failure with no break-on that is true and no continue-on that is false, or a success with a continue-on that is true; otherwise the task ends in it, what follows is computed, and dispatched unless the workflow is paused |
| RetryDecisions.AttemptsAreExact | mistral/engine/policies.py:285-406 | the same over every run without a clashing timeout, with the attempts made but one in place of the stored number |
| Reverse.GetDependencyTasks | mistral/workflow/reverse_workflow.py:167-180 | returns exactly the tasks that are required |
| Reverse.BuildGraph | mistral/workflow/reverse_workflow.py:153-165 | has an edge from each required task to each task requiring it, and no other |
| Reverse.IsSatisfiedTask | mistral/workflow/reverse_workflow.py:136-151 | true if and only if the task has no execution and all it requires has succeeded |
| Reverse.FindTaskSpecsWithSatisfiedDependencies | mistral/workflow/reverse_workflow.py:116-134 | an unknown target is an error; else exactly the satisfied tasks the target needs are found, each once |
| Reverse.StartsAreSafe | mistral/workflow/reverse_workflow.py:42-69 | in every run only the target and what it needs is started, each once, only after all it requires succeeded; and a running workflow leaves nothing that could start |
| Reverse.Progress | mistral/workflow/reverse_workflow.py:116-151 | if what the target needs is acyclic and all executions have succeeded, the target has or some task is found |
| Reverse.NeverStalls | mistral/workflow/reverse_workflow.py:42-69 | if what the target needs is acyclic, a running workflow all of whose executions succeeded has reached its target |
| Reverse.CycleIsNeverPassed | mistral/workflow/reverse_workflow.py:136-151 | if what the target needs has a cycle, no run ever executes the target |
| Reverse.StallsExactly | mistral/workflow/reverse_workflow.py:42-151 | no run stalls if and only if what the target needs is acyclic, and then only is there a run that executes the target |
| Reverse.TargetComesLast | mistral/workflow/reverse_workflow.py:116-151 | once the target is started, everything it needs has succeeded |
| Reverse.DefaultClosesCycle | mistral/lang/v2/workflows.py:406-416 | if a task among the default requirements requires something, the requirements are cyclic and every task needs the cycle |
| Reverse.DefaultRequirementStalls | mistral/lang/v2/workflows.py:406-416 | then every run, for any target, has no execution at all |
| Reverse.DefaultsStayAcyclicExactly | mistral/lang/v2/workflows.py:406-416 | the requirements are acyclic if and only if the tasks' own requirements are and each task among the defaults requires nothing |

## Left out

- Multiple executions of one task name, rerunning and skipping tasks, and cyclic graphs in the route search, which has no visited set and need not terminate there.
- Forced failure of a task after an internal error, and a crash of an engine between a transaction and the operations registered to follow it.
- Pause commands inside the direct-workflow state machine, and with them its backlog, which the dispatcher model has; pause requests are in PausedRun.  The commands by which a resume starts idle tasks again change no execution and are left out there.
- DirectTheorems.VerdictsAreFinal: runs in which a late trigger puts a completed join back to waiting are excluded, because the claim fails there (`VerdictIsRevoked`); `RunningVerdictStays` and `ErrorVerdictStays` have the exact condition of each step, and deadlock freedom and completion cover such runs.
- DirectEngine.Engine.Dispatch: the tasks launched are a set, because their order is the subject of the dispatcher model.
- With-items retry and rerun rounds beyond `NextIndexesAreExact` and `ResultIsAccepted`, paused item actions, and the extra completion call of the integrity check; loops that only count are functions.
- PauseTree: the asynchronous update used for with-items tasks, and the commands dispatched on resume.
- PauseTree.Store.PauseWorkflow: calls are synchronous, in the order of one transaction; failures to find a parent are not modelled.
- ContextMerge.EvaluateUpstreamContext: an additional context that is empty counts as none, as in the source; the branch for disabled versioning is left out.
- ContextMerge.MergeCtx: dictionaries are values, so sharing of sub-dictionaries between contexts is not captured; a dictionary and a leaf at one path are excluded by the common shape; keys are taken in any order.
- The `replace` strategy of nested publishes, and the library function behind the `merge` strategy, which is not part of this repository and is taken as a deep overlay.
- Scheduler: clocks are synchronised and monotone; a job is read and captured in two steps and polled one at a time, which allows more interleavings than a batch; the search for existing jobs by filter is not modelled.
- Cron.CronStore.AdvanceCronTrigger: the next time is any later time, the evaluation of the pattern itself being a library's.
- Dispatcher: unique keys are represented by their rank, skipping is left out, and context, trigger and message of a command are not modelled.
- Dispatcher.PassStartsJoinsInOrder: the order among tasks that do not wait is left open, because the comparison calls any two of them "less".
- DirectEngine.Engine.AfterTaskComplete: the delays of wait-after and retry are not counted, and their effects other than the new state and the refresh are in the model of the policies; what a policy decides is a choice.
- PauseTree.Store.UpdateTask: paused plain action executions are not among the children looked at, only sub-workflows.
- PauseTree.Store.ResumeSelf: what a resume dispatches, and the completion of a workflow that a resume without commands finds to be done, are in PausedRun and not in the tree, where the resumed workflow always runs.
- Retry: joins (see the direct-workflow machine), pause-before and concurrency (which only stores a number); delays and counts are constants, a delay of zero being no policy; a job is delivered once; marking results as not accepted.
- Reverse.FindTaskSpecsWithSatisfiedDependencies: the traversal of the graph library is a parameter that lists each needed task once; transactions are serial.
- RPC, queries, expression evaluation, notifications and logging.
