# A verified model of the BPMN workflow engine

The engine runs instances of BPMN process definitions. An instance holds tokens; a token that cannot go on
waits in one of four shared maps: user tasks, service tasks, timers, message catches. Calls from outside take
an entry from a map and let its token run on until every branch waits or ends. This project models that
machinery and the cores around it, and proves what the engine's calls promise over whole runs.

## How the model is built

- `EngineState.dfy` is the state: definitions, instances and the four pending maps, as in the source. Three
  fields are not in the source and change nothing: `fired` and `consumed` record history, and a timer's
  `origin` names the first timer of its chain.
- `Executor.dfy` is the batch executor as a step machine. Which step an element takes depends on scripts,
  conditions and clocks; the model takes that choice from a given list of steps and lets an element take any
  step its handler can produce, so what is proved of a batch holds for every script and every condition. A
  list that ends early stands for a step that failed.
- `Operations.dfy` has one function per call, error paths included. `Engine.dfy` is the engine as the object
  it is in the source; each method updates the fields in place, does what its function says and keeps `Valid`.
  Two fresh ids are never equal; in what order a call draws them is not modelled exactly.
- Hash maps yield their keys in an order given as an argument, so results hold for every order. Time, cron
  and scripts are arguments too.
- `Runs.dfy` makes a run any list of calls with any arguments, failing ones included. `Evolution.dfy` reduces
  every call to a few kinds of steps, so that what the steps preserve holds after every run.
- What each function does is then stated once more on the fields and maps, without naming it: `Parking.dfy`
  and `Endings.dfy` for a token that comes to rest or ends, `Joins.dfy` for forks and joins, `Arrivals.dfy`
  for what each call hands over, `Schedules.dfy` for when timers fire, `Correlation.dfy` and `Lifecycle.dfy`
  for when calls go through and what they leave.
- Beside the engine stand the gateway semantics and the condition language, definition checks, the registry,
  the flattening of sub-processes, the duration grammar, history diffs, the log buffer and the persistence
  retry queue.

## What the proofs found

Where the code does not keep a promise, the code is modelled as it is and a lemma says exactly when it does;
`Witnesses.dfy` has short runs from an empty engine in which the engine breaks it.

- `move_token` with `cancel_current = false` leaves dangling entries exactly when the instance had entries
  bound to tokens (`MoveWithoutCancelling`).
- A refused deletion in the store leaves entries of an instance that is gone (`RefusedDeletion`).
- A recurring timer is scheduled again under its old token, which is gone when the timer interrupts
  (`InterruptingTimerDangles`, `StraightTimerDangles`), and boundary events of call activities name a token that is never stored
  (`CallActivityBoundaries`).
- The engine never sets a limit on repetitions (`RegisteredTimersHaveNoLimit`), so `R3/PT10S` repeats for as
  long as its activity waits (`ChainFiresWithoutEnd`, `ChainBoundedIff`, `ReminderFiresWithoutEnd`).
- A job sent after a shutdown, or queued behind it, is dropped: an entry can be missing in the store with
  nothing queued and no permanent failure counted (`EntryLostAfterShutdown`). What an id ends as depends on
  its last change alone (`StoreConverges`).
- `resolve_incident`, `handle_bpmn_error` and `correlate_message` do not look at suspension
  (`ResolveIgnoresSuspension`, `ErrorIgnoresSuspension`, `MessageRespectsSuspensionIff`).
- `update_instance_variables` removes a variable from the instance but not from its tokens, so the next
  service task to complete brings it back (`RemovedVariableComesBack`).
- A non-interrupting boundary timer clears all waits of its token, so a reminder removes the deadline of
  the same activity (`ReminderCancelsDeadline`).
- Two timers of one token that are overdue together, such as a reminder and a deadline after a pause, make
  every call of `process_timers` fail (`SiblingsFailTheCall`, `OverdueTimersFailTheCall`).
- A task whose token finds no open flow behind it is gone together with the token (`UserTaskStrands`), and an
  error nobody catches leaves a token that nothing takes on (`UncaughtErrorKeepsToken`).
- The rollback of a user task whose end script failed restores the state only in part
  (`RollbackRestoresIff`), and its stored copy is lost (`RolledBackEntryIsLost`).
- Migration maps barrier keys but not the gateway ids inside them (`BarrierNamesStayBehind`), and loses
  barriers whose keys are mapped to one (`NoBarrierLostIffInjective`).
- The documentation of `deploy_definition` promises a fresh key; the code keeps the key it is given
  (`OldDefinitionSurvives`).
- A history diff records removed variables by name only, so it cannot be un-applied when one was removed
  (`UnpatchRestores`).
- The comment at `COMPACT_AFTER` says the log file never gets much longer than 5 500 lines; it grows by 499
  lines with every restart (`RestartsGrowFile`).
- A sub-process without a start event leads to a node that does not exist (`StartExistsIffDeclared`), and a
  gateway default inside a sub-process stays the id of a flow (`DefaultStaysFlowId`), so the token leaves the
  definition when the default is taken (`DefaultDecidesWhereExclusiveGoes`).

## Model

| member | source | states |
|---|---|---|
| Guarantees.EveryRunKeeps | engine-core/src/engine/mod.rs:43-60 | after any run of calls on an engine that started empty, with any definitions: a worker and a lock expiry come together, no service task was consumed twice, each chain of timers has at most one timer pending, and every instance's definition is registered |
| Soundness.CallKeepsSound | engine-core/src/engine/mod.rs:43-60 | every call keeps all of this; the methods of the engine object state it as their invariant |
| Guarantees.DisciplinedRunsKeepReferences | engine-core/src/engine/mod.rs:43-60 | from an empty engine with definitions in which interrupting timers do not recur and call activities have no boundary timers or messages, no run of the calls that promise it leaves a pending entry without its instance or token |
| References.ReferentialIntegrity | engine-core/src/engine/user_task.rs:17-114 | over any run of complete, fail, retry, resolve, bpmnError, extend, fetch, start, timers, messages, updates, suspend, resume, cancelling moves and accepted deletions, every entry names a live instance and a live token that stands where the entry belongs |
| References.CallKeepsIntegrity | engine-core/src/engine/service_task.rs:98-254 | each of these calls alone keeps the invariant, on success and on every error path; only firing timers asks that interrupting timers do not recur |
| Runs.RunInTwo | engine-core/src/engine/mod.rs:43-60 | a run is its first part followed by the rest |
| ExecutorProofs.BatchKeeps | engine-core/src/engine/executor/mod.rs:24-187 | a batch keeps referential integrity and every token outside its queue, whatever steps it takes and however it ends |
| ExecutorProofs.ActGood | engine-core/src/engine/executor/next_action.rs:12-391 | each action of a token keeps integrity, leaves queued tokens without pending work, and queues only old or new tokens |
| ExecutorProofs.RegisterBoundaryKeeps | engine-core/src/engine/boundary.rs:9-70 | registering boundary events of the node a stored token stands on keeps integrity |
| ExecutorFrame.BatchWithin | engine-core/src/engine/executor/mod.rs:24-187 | a batch touches no other instance, changes no old entry (it can only remove its own), adds only fresh ids, unlocked tasks and unlimited timers, and keeps the instance's definition |
| IntegrityProofs.CompleteUserTaskKeeps | engine-core/src/engine/user_task.rs:12-149 | completing a user task keeps integrity, including the suspension and script rollbacks |
| IntegrityProofs.CompleteServiceTaskKeeps | engine-core/src/engine/service_task.rs:98-254 | completing a service task keeps integrity |
| IntegrityProofs.ResolveIncidentKeeps | engine-core/src/engine/service_task.rs:391-512 | resolving an incident keeps integrity |
| IntegrityProofs.HandleBpmnErrorKeeps | engine-core/src/engine/service_task.rs:544-679 | reporting a BPMN error keeps integrity, with and without a boundary event that catches it |
| IntegrityProofs.FireTimerKeeps | engine-core/src/engine/timer_processor.rs:27-258 | firing a timer keeps integrity: cloned, interrupted, scope and recurring cases |
| IntegrityProofs.FireCatchKeeps | engine-core/src/engine/message_processor.rs:34-250 | resuming a message catch keeps integrity |
| IntegrityProofs.CancelDetaches | engine-core/src/engine/mod.rs:195-300 | cancelling an activity's boundary events leaves nothing that refers to the token that leaves it |
| IntegrityProofs.StartInstanceKeeps | engine-core/src/engine/process_start.rs:118-204 | starting an instance keeps integrity, with its scope listeners |
| IntegrityProofs.MoveTokenKeeps | engine-core/src/engine/instance_ops.rs:396-555 | a cancelling move keeps integrity |
| IntegrityProofs.DeleteInstanceKeeps | engine-core/src/engine/instance_ops.rs:776-847 | an accepted deletion keeps integrity |
| IntegrityLimits.MoveWithoutCancelling | engine-core/src/engine/instance_ops.rs:440-555 | a move that does not cancel keeps integrity, and leaves nothing dangling, exactly when no entry of the instance was bound to a token (unless its batch terminates the instance) |
| IntegrityLimits.RefusedDeletion | engine-core/src/engine/instance_ops.rs:776-847 | a deletion the store refuses keeps integrity exactly when the instance had no entries |
| IntegrityLimits.CallActivityBoundaries | engine-core/src/engine/handlers/sub_processes.rs:11-43 | parking a token at a call activity leaves nothing dangling exactly when the activity has no boundary timers or messages |
| IntegrityLimits.InterruptingTimerDangles | engine-core/src/engine/timer_processor.rs:95-258 | an interrupting timer whose batch succeeds, whatever steps that takes, leaves a dangling timer exactly when it repeats and its token is not stored again; integrity holds exactly when it does not repeat, or its token stands outside activities or on the activity the timer belongs to |
| IntegrityLimits.StraightTimerDangles | engine-core/src/engine/timer_processor.rs:95-258 | when an interrupting timer leads its token straight to a node where tokens rest, the call succeeds and leaves a dangling timer exactly when the timer repeats and that node is an end |
| IntegrityLimits.BatchGrown | engine-core/src/engine/executor/mod.rs:24-187 | a batch that terminates nothing keeps every pending entry, and old tokens outside its queue do not come back |
| CallFrames.CompleteUserTaskWithin | engine-core/src/engine/user_task.rs:12-149 | completing a user task touches only its instance; an unknown task changes nothing |
| CallFrames.CompleteServiceTaskFrame | engine-core/src/engine/service_task.rs:98-254 | a completion consumes the task exactly when the worker holds it and the instance is not suspended, and otherwise changes nothing |
| CallFrames.ResolveIncidentFrame | engine-core/src/engine/service_task.rs:391-512 | a resolution consumes the task exactly when it is an incident, and otherwise changes nothing |
| CallFrames.HandleBpmnErrorFrame | engine-core/src/engine/service_task.rs:544-679 | an error report consumes the task exactly when the worker holds it, and otherwise changes nothing |
| CallFrames.ResumeTimerSteps | engine-core/src/engine/timer_processor.rs:27-233 | after a timer and its token's other waits are gone, only its instance and instances it starts change |
| CallFrames.FireCatchSteps | engine-core/src/engine/message_processor.rs:34-250 | the same for a message catch |
| CallFrames.MigrateFrame | engine-core/src/engine/instance_ops.rs:593-750 | migration touches only the migrated instance and its entries |
| Evolution.RunPreserves | engine-core/src/engine/mod.rs:43-60 | what the kinds of steps preserve holds after every run of calls |
| Rollback.RollbackLeaves | engine-core/src/engine/user_task.rs:84-104 | the exact state after the end script of a user task failed |
| Rollback.RollbackRestoresIff | engine-core/src/engine/user_task.rs:84-104 | that rollback restores the state exactly when the call brought no new values, the instance waited for this task alone, and no boundary event of it was pending |
| Witnesses.TaskLeftBehind | engine-core/src/engine/instance_ops.rs:440-555 | start, then move without cancelling, or delete with a store that refuses: a task of a missing token or instance is left |
| Witnesses.RepeatedDeadlineDangles | engine-core/src/engine/timer_processor.rs:95-258 | start with an interrupting timer that repeats, and let it fire: the next timer dangles |
| Witnesses.CallActivityDangles | engine-core/src/engine/handlers/sub_processes.rs:11-43 | start into a call activity with a boundary timer: the timer dangles |
| Witnesses.ReminderRemovesDeadline | engine-core/src/engine/mod.rs:303-371 | start with a reminder and a deadline on one task, and let the reminder fire: the task waits on, the deadline is gone |
| Witnesses.FailedCompletionLeavesVariable | engine-core/src/engine/user_task.rs:84-104 | start, and complete the task with a failing end script: the state is not what it was |
| Witnesses.SuspendedInstanceChanges | engine-core/src/engine/service_task.rs:391-679 | start, fetch, suspend: an error report changes the suspended instance, and so does a resolution after a failure |
| Witnesses.MessageReachesSuspendedInstance | engine-core/src/engine/message_processor.rs:34-46 | start, suspend, and send the message waited for: the suspended instance changes |
| Witnesses.RemovedVariableIsBack | engine-core/src/engine/instance_ops.rs:205-256 | start, fetch, remove a variable, complete: the completion succeeds and the variable is back |
| Witnesses.StartedInstanceCompletes | engine-core/src/engine/executor/next_action.rs:219-247 | start a process that leads straight to its end: the instance is completed |
| Witnesses.CompletedTaskCompletesInstance | engine-core/src/engine/user_task.rs:12-149 | start, and complete the one user task: the instance is completed, and has no token and no task |
| Arrivals.ResolvesToFirstOpen | engine-core/src/engine/executor/helpers.rs:6-23 | a token leaves over the first open flow, and finds no way exactly when no flow is open |
| Arrivals.FoundCatches | engine-core/src/engine/executor/helpers.rs:25-45 | an error goes to the first boundary event that catches it, and is lost exactly when none does |
| Arrivals.UserTaskHandsOver | engine-core/src/engine/user_task.rs:39-149 | what a completed user task hands to its batch, whatever steps that takes, field by field: the task and its boundary timers and messages are gone, the token is out of the instance, which runs with the script's variables, and goes on at the first open flow; nothing else of the engine has changed |
| Arrivals.ServiceTaskHandsOver | engine-core/src/engine/service_task.rs:144-254 | the same, field by field, for a completed service task |
| Arrivals.IncidentHandsOver | engine-core/src/engine/service_task.rs:391-512 | the same, field by field, for a resolved incident |
| Arrivals.ErrorHandsOver | engine-core/src/engine/service_task.rs:571-679 | after a BPMN error the token leaves over the first boundary event that catches it, with the variables it had; the instance keeps its own, and the task and its boundary events are gone |
| Arrivals.TimerHandsOver | engine-core/src/engine/timer_processor.rs:95-258 | a fired timer hands over its token and removes the tasks it waited in, and no other; a non-interrupting one hands over a copy with a new id as a branch of its own, and the token and its tasks stay; all waits of the token go |
| Arrivals.ReminderCancelsDeadline | engine-core/src/engine/mod.rs:303-371 | a timer that fires removes all timers and message catches of its token, even when it does not interrupt |
| Arrivals.MessageHandsOver | engine-core/src/engine/message_processor.rs:34-250 | the same for a message, with its variables over the token's |
| Arrivals.MoveHandsOver | engine-core/src/engine/instance_ops.rs:440-555 | a move hands over one fresh token at the target with the updated variables, and no other token, branch or join of the instance; a cancelling one drops all its pending work, the other drops none |
| Arrivals.StartHandsOver | engine-core/src/engine/process_start.rs:64-204 | a start hands over one token at the start event, with all variables but the business key, which the instance gets; its scope listeners wait, each timer due as its definition says |
| Arrivals.HandedOverRests | engine-core/src/engine/executor/next_action.rs:12-150 | when the token then comes to a task, a catch event, an event-based gateway or an end, the instance has exactly this token more, or ended with it, shows its node and names the work it waits in; the work handed over is all there, and new work is for this token alone |
| Parking.StepRests | engine-core/src/engine/executor/next_action.rs:12-150 | a token that rests is stored and gets the work of its node: its task with all boundary events, its timer, its message, or all alternatives, each timer due after its duration or interval, at its date or when cron says; the instance waits for that work unless it runs in parallel |
| Endings.EndingEnds | engine-core/src/engine/executor/next_action.rs:219-309 | when a token ends, it is out of the token map and its branch is completed; the instance is completed, with the error code at an error end, exactly when no token is stored and every branch is completed, and otherwise its state is what it was; nothing else changes |
| Endings.SoleTokenCompletes | engine-core/src/engine/executor/completion.rs:29-45 | the end of the only token of an instance without branches completes it |
| Endings.TerminationEnds | engine-core/src/engine/executor/next_action.rs:316-348 | a terminate end completes the instance whatever else is active: the queue is dropped, every branch completed, and exactly its pending work goes |
| Endings.PathEnds | engine-core/src/engine/executor/mod.rs:24-187 | a batch whose steps lead its only token to an end succeeds, and the token ends there |
| Endings.RunawayIsStopped | engine-core/src/engine/executor/mod.rs:43-66 | a token that is passed on ten thousand times is stopped: the batch fails and the instance is completed with `EXECUTION_LIMIT_EXCEEDED` |
| Arrivals.HandedOverEnds | engine-core/src/engine/executor/next_action.rs:219-309 | when the batch leads the token a call took on straight to an end, the token ends there, with its instance if it was the last one, and no pending work is touched |
| Arrivals.StartToEndCompletes | engine-core/src/engine/process_start.rs:118-204 | an instance whose steps lead from its start event to an end is completed, with the error code at an error end, when the call that started it returns |
| Arrivals.StartsAtFirst | engine-core/src/engine/process_start.rs:64-87 | instances start at the first start event, and at none exactly when there is none |
| Arrivals.UserTaskStrands | engine-core/src/engine/user_task.rs:40-131 | when no flow behind a user task is open, the call fails, and the task and its token are gone |
| Arrivals.ServiceTaskStrands | engine-core/src/engine/service_task.rs:144-226 | the same for a completed service task |
| Arrivals.IncidentStrands | engine-core/src/engine/service_task.rs:413-490 | the same for a resolved incident |
| Arrivals.TimerStrands | engine-core/src/engine/timer_processor.rs:95-232 | when no flow behind a timer event is open, the call fails, the timer is used up with all waits of its token, and is not scheduled again |
| Arrivals.MessageStrands | engine-core/src/engine/message_processor.rs:34-250 | when no flow behind a message event is open, the call fails |
| Arrivals.UncaughtErrorKeepsToken | engine-core/src/engine/service_task.rs:571-679 | an error that no boundary event catches is accepted: the task and its boundary events are gone and the token stays, with no work left that takes it on |
| Joins.ForkSendsOut | engine-core/src/engine/executor/next_action.rs:24-60 | a fork completes its token's branch, registers and queues one fresh token for each target in order, and the join it announces expects as many |
| Joins.GatewayStepsAreTaken | engine-core/src/engine/handlers/gateways.rs:15-130 | what an exclusive, inclusive, parallel or complex gateway decides is a step the executor can take, and it queues exactly the tokens the gateway sent out |
| Joins.TokensTakeTurns | engine-core/src/engine/executor/mod.rs:29-33 | the tokens of a queue take their steps in turn: after a round each is one node on, in the same order |
| Joins.OthersStayQueued | engine-core/src/engine/executor/next_action.rs:77-309 | a token that waits or ends leaves the rest of its batch queued, and does what it would do alone |
| Joins.EveryElementAnswers | engine-core/src/engine/executor/mod.rs:189-374 | every element has an answer, and all but the forking gateways and escalations have one kind of answer |
| Joins.JoinOpens | engine-core/src/engine/executor/parallel.rs:97-110 | the first token at a join that no fork announced opens it for as many as the join expects |
| Joins.JoinCollects | engine-core/src/engine/executor/parallel.rs:97-188 | while tokens are missing, a join only collects those that come |
| Joins.JoinCompletes | engine-core/src/engine/executor/parallel.rs:139-184 | with the last expected token the barrier goes, the branches of all arrived tokens are completed, and one merged token goes on, each variable with the value of the last token that has it |
| Joins.JoinEndsEarly | engine-core/src/engine/executor/parallel.rs:117-184 | a token that ends a join early goes on at once, with what came before it |
| Joins.ForkJoinReturns | engine-core/src/engine/executor/parallel.rs:11-188 | a fork and its join: when all branches come back the instance is where it was before the fork, all branches completed, and a token that was the last one of its instance is the last one again |
| Updates.UpdateReachesTokens | engine-core/src/engine/instance_ops.rs:186-275 | a task completed after an update goes on with the caller's values, then the updated instance's, then its token's |
| Updates.RemovedVariableComesBack | engine-core/src/engine/instance_ops.rs:205-256 | a removed variable is back when a service task completes, whatever its batch does, exactly when the task's token had it, unless a script takes it out or puts it in |
| Updates.UpdatesCompose | engine-core/src/engine/instance_ops.rs:205-256 | two updates equal one with their union on the instance's variables, and on its tokens exactly when none kept a variable the second removed |
| Updates.BatchKeepsIdentity | engine-core/src/engine/executor/mod.rs:24-187 | no batch changes the definition or the business key of an instance |
| Leases.LeasesNeverOverlap | engine-core/src/engine/service_task.rs:43-93 | over any run with a clock that does not run backwards, a lease that was not given up by failure or incident retry ends before the next lease on the task begins, and the task shows the last lease |
| Leases.StaleWorkerIsFenced | engine-core/src/engine/service_task.rs:22-36 | a worker whose task was granted again is turned away by complete, fail, extend and bpmnError with the new holder's name, and nothing changes |
| Leases.NonHolderIsFenced | engine-core/src/engine/service_task.rs:98-136 | a worker that does not hold the task gets the error that says why from all four calls, and nothing changes |
| Leases.LeasesStayPaired | engine-core/src/engine/service_task.rs:259-385 | worker and lock expiry are both set or both empty after every run |
| Leases.FetchHandsOut | engine-core/src/engine/service_task.rs:43-93 | a fetch hands out at most `max` distinct tasks, each with a topic asked for and no lock or one that has run out by then, and locks them to the caller until `duration` from now; when it hands out fewer, no such task is left; all others are untouched |
| Leases.GrantedAsLocked | engine-core/src/engine/service_task.rs:76-83 | the tasks a fetch answers with are those it stored |
| Leases.GrantsLock | engine-core/src/engine/service_task.rs:56-86 | a granted task was lockable and is locked for the worker; every other task is untouched |
| Leases.IncidentsCanBeFetched | engine-core/src/engine/service_task.rs:56-86 | an incident with no retries left can be fetched |
| Leases.ExpiredLeaseCanBeExtended | engine-core/src/engine/service_task.rs:516-542 | the holder of an expired lease can extend it as long as nobody fetched the task |
| Witnesses.AbandonedTaskIsHandedOut | engine-core/src/engine/service_task.rs:43-93 | start, fetch, and fetch again with another worker after the lock ran out: the second worker gets the task |
| Lifecycle.FailureTakesRetry | engine-core/src/engine/service_task.rs:259-328 | a failure reported by the holder sets the retries given, or one less than there were, with its report, and frees the task; any other report is refused and changes nothing |
| Lifecycle.RetryRevivesIncident | engine-core/src/engine/service_task.rs:330-385 | a task without retries gets the retries given, or three, and is free; one that has retries is refused |
| Lifecycle.IncidentAfterLastRetry | engine-core/src/engine/service_task.rs:259-328 | over any sequence of workers that fetch a task and report a failure, it is an incident exactly after as many failures as it had retries |
| Lifecycle.ExtensionMovesExpiry | engine-core/src/engine/service_task.rs:516-542 | the holder can move the expiry to `duration` from now, and nobody else can |
| Consumption.ConsumedAtMostOnce | engine-core/src/engine/service_task.rs:106-136 | no service task is consumed twice over any run, and consumed tasks do not come back |
| Consumption.OneCallConsumes | engine-core/src/engine/service_task.rs:396-411 | of completion, resolution and error reports at most one call of a run consumes a task |
| Consumption.TakenIsRecorded | engine-core/src/engine/service_task.rs:550-569 | a call that gets past its guard consumes its task |
| ConsumeRace.AtMostOneGoesThrough | engine-core/src/engine/service_task.rs:106-136 | under any interleaving of the atomic `remove_if`, re-insert and in-place steps, at most one caller gets through with a task |
| ConsumeRace.StepKeepsOnePlace | engine-core/src/engine/service_task.rs:106-146 | a task is in the map, or with one caller, or gone |
| ConsumeRace.PutBackRestores | engine-core/src/engine/service_task.rs:138-146 | whatever other callers do while a task is in flight, when it is put back the map has it as it was taken, and everything the others did |
| ConsumeRace.InFlightLooksGone | engine-core/src/engine/service_task.rs:112-127 | while a task is in flight, another caller of it is turned away |
| Suspension.SuspensionFreezes | engine-core/src/engine/instance_ops.rs:283-335 | while suspended, any run of task completions, timers, moves, migrations, starts and repeated suspensions leaves the instance, its tokens and its entries exactly as they were |
| Suspension.SuspendThenResumeRestores | engine-core/src/engine/instance_ops.rs:337-384 | suspending, any such run and resuming bring back the exact prior state |
| Suspension.ResolveIgnoresSuspension | engine-core/src/engine/service_task.rs:391-512 | resolving changes a suspended instance exactly when the task is an incident of it |
| Suspension.ErrorIgnoresSuspension | engine-core/src/engine/service_task.rs:544-679 | a BPMN error changes a suspended instance exactly when the caller holds a task of it |
| Suspension.UnmatchedMessageFreezes | engine-core/src/engine/message_processor.rs:16-32 | a message that matches no catch of a suspended instance leaves it alone |
| Suspension.MatchedMessageFreezesIff | engine-core/src/engine/message_processor.rs:34-46 | for a given order of the catches, a message with a match in a suspended instance leaves the instance alone exactly when a catch it comes to earlier fails to resume |
| Suspension.MessageRespectsSuspensionIff | engine-core/src/engine/message_processor.rs:16-46 | suspension protects an instance from a message in every order exactly when no catch of the instance matches it |
| Waits.OneEventPerWait | engine-core/src/engine/mod.rs:303-371 | of the timers and catches pending together for one token, at most one ever fires, over any run and within any batch |
| Waits.ChainFiresAsOftenAsItRepeats | engine-core/src/engine/timer_processor.rs:234-258 | a timer with `n` repetitions left starts a chain that fires at most `n + 1` times over any run, and one that cannot be scheduled again fires once at most |
| Waits.ChainFiresOncePerCall | engine-core/src/engine/timer_processor.rs:10-38 | one call of `process_timers` fires each chain at most once |
| Waits.ChainsStaySingle | engine-core/src/engine/timer_processor.rs:234-258 | each chain has at most one timer pending after any run |
| Waits.RegisteredTimersHaveNoLimit | engine-core/src/engine/boundary.rs:45-58 | timers the engine registers have no limit on repetitions, after any run |
| Chains.ChainFiresWithoutEnd | engine-core/src/engine/timer_processor.rs:234-258 | for every `k` and every time the run may start at there is a run, whose clock does not run backwards and in which each call comes when the timer is due, in which the chain of a non-interrupting recurring timer without a limit fires `k` times, whatever count its definition states |
| Chains.ChainBoundedIff | engine-core/src/engine/timer_processor.rs:234-258 | the chain of a non-interrupting timer whose token waits is bounded over all runs with a clock that does not run backwards exactly when the timer has a limit or cannot be scheduled again |
| Witnesses.ReminderFiresWithoutEnd | engine-core/src/engine/boundary.rs:9-70 | from an empty engine an instance with a reminder `R3/PT10S` is started, and for every `k` a run with such a clock follows in which the reminder fires `k` times |
| Schedules.NotBeforeDue | engine-core/src/domain/timer.rs:38-60 | no call of `process_timers` fires a timer before its time, or one of a suspended instance |
| Schedules.NeverEarly | engine-core/src/engine/timer_processor.rs:6-38 | over any run of calls a timer does not fire before the first `process_timers` at or after the time it is due |
| Schedules.OnlyTimersFire | engine-core/src/engine/timer_processor.rs:6-38 | no other call fires a timer |
| Schedules.FiresWhenDue | engine-core/src/engine/timer_processor.rs:6-38 | a call at or after that time fires it when its instance is not suspended, unless a timer before it in the call fails or waits for the same token |
| Schedules.RescheduledIs | engine-core/src/engine/timer_processor.rs:234-258 | a fired timer is scheduled again exactly when it recurs, has repetitions left and has a next time: one interval or cron step from now, under the same token and node, with one repetition less |
| Lifecycle.AnswersWithNumberFired | engine-core/src/engine/timer_processor.rs:6-38 | a call that succeeds answers with the number of timers it fired: exactly those that were due |
| Lifecycle.SiblingsFailTheCall | engine-core/src/engine/timer_processor.rs:24-38 | two due timers of one token make the call fail: the first clears the second, which the call then misses |
| Witnesses.OverdueTimersFailTheCall | engine-core/src/engine/timer_processor.rs:24-38 | start with a reminder and a deadline on one task: once both are overdue every call of `process_timers` fails, in every order |
| Migration.MigrationIsAllOrNothing | engine-core/src/engine/instance_ops.rs:593-665 | a migration goes through exactly when the instance is live, not suspended, and every mapped node exists in the target; otherwise nothing changes |
| Migration.MigrationFollowsMapping | engine-core/src/engine/instance_ops.rs:593-772 | a migration goes through exactly when the instance is live, not suspended, and for every node stood on the mapped node, or the node itself where the mapping has none, is in the target; then the current node, tokens, branches, entries and table keys are those nodes, and variables, business key and state are as before |
| Migration.MigratedIsWellPlaced | engine-core/src/engine/instance_ops.rs:667-695 | afterwards the current node, every token and every active token stand on nodes of the target |
| Migration.MigrationKeepsAgreement | engine-core/src/engine/instance_ops.rs:720-750 | a task that agreed with its token's node still does, and service tasks get the new definition key |
| Migration.MigrationKeepsReferences | engine-core/src/engine/instance_ops.rs:720-750 | no entry loses its instance or token |
| Migration.NoBarrierLostIffInjective | engine-core/src/engine/instance_ops.rs:697-703 | no join barrier is lost exactly when the mapping is injective on barrier keys |
| Migration.BarriersKept | engine-core/src/engine/instance_ops.rs:697-711 | with an injective mapping each table entry is found under its mapped key |
| Migration.BarrierNamesStayBehind | engine-core/src/engine/instance_ops.rs:697-703 | a barrier still names its own gateway exactly when the mapping leaves that gateway where it is; arrived tokens are not mapped |
| Migration.ParkedTokenIsNotMapped | engine-core/src/engine/instance_ops.rs:667-715 | the token inside `WaitingOnCallActivity` is not mapped: it stands on a node of the target exactly when its old node exists there, and where the mapping puts that node exactly when it leaves it alone |
| Migration.MigrationsCompose | engine-core/src/engine/instance_ops.rs:667-750 | migrating by `m1` then `m2` equals one migration by their composition, up to the tables of joins and multi-instances |
| Migration.TablesCompose | engine-core/src/engine/instance_ops.rs:697-711 | these tables agree too when neither step merges keys |
| Engine.WorkflowEngine.constructor | engine-core/src/engine/mod.rs:62-87 | an engine starts empty |
| Engine.WorkflowEngine.RunInstanceBatch | engine-core/src/engine/executor/mod.rs:24-187 | the queue loop does what the step machine says |
| Engine.WorkflowEngine.HandleNextAction | engine-core/src/engine/executor/next_action.rs:12-348 | each action's effect on the fields |
| Engine.WorkflowEngine.SetupBoundaryEvents | engine-core/src/engine/boundary.rs:9-70 | registers the timers and catches attached to a node |
| Engine.WorkflowEngine.ArriveAtJoin | engine-core/src/engine/executor/parallel.rs:73-188 | collects arrived tokens and merges them when the join is complete |
| Engine.WorkflowEngine.CancelBoundaryEvents | engine-core/src/engine/mod.rs:195-300 | removes the boundary timers and catches of a node |
| Engine.WorkflowEngine.ClearWaitStates | engine-core/src/engine/mod.rs:303-371 | removes a token's timers and catches |
| Engine.WorkflowEngine.ResolveNextTarget | engine-core/src/engine/executor/helpers.rs:6-23 | the first flow without a condition or whose condition holds |
| Engine.WorkflowEngine.FindErrorBoundary | engine-core/src/engine/executor/helpers.rs:25-45 | the first boundary error event that catches the code |
| Engine.WorkflowEngine.CompleteTask | engine-core/src/engine/user_task.rs:12-149 | the new state and answer of completing a user task |
| Engine.WorkflowEngine.FetchAndLockServiceTasks | engine-core/src/engine/service_task.rs:43-93 | the loop over the tasks and the tasks it grants |
| Engine.WorkflowEngine.TakeHeldTask | engine-core/src/engine/service_task.rs:106-136 | takes the task from its holder, and says why not from anyone else |
| Engine.WorkflowEngine.CompleteService | engine-core/src/engine/service_task.rs:98-254 | the new state and answer of completing a service task |
| Engine.WorkflowEngine.FailService | engine-core/src/engine/service_task.rs:259-328 | releases the lock and counts down the retries |
| Engine.WorkflowEngine.RetryServiceIncident | engine-core/src/engine/service_task.rs:330-385 | gives an incident new retries and releases it |
| Engine.WorkflowEngine.ResolveServiceIncident | engine-core/src/engine/service_task.rs:391-512 | the new state and answer of resolving an incident |
| Engine.WorkflowEngine.ExtendServiceLock | engine-core/src/engine/service_task.rs:516-542 | moves the expiry of a held lock |
| Engine.WorkflowEngine.ReportBpmnError | engine-core/src/engine/service_task.rs:544-679 | the new state and answer of a BPMN error |
| Engine.WorkflowEngine.StartNewInstance | engine-core/src/engine/process_start.rs:64-204 | refuses unknown definitions and timer starts, and otherwise starts an instance |
| Engine.WorkflowEngine.RegisterScopeListeners | engine-core/src/engine/process_start.rs:157-197 | registers event sub-process triggers under the nil token |
| Engine.WorkflowEngine.ProcessDueTimers | engine-core/src/engine/timer_processor.rs:6-262 | collects due timers of instances that are not suspended and fires them until one fails |
| Engine.WorkflowEngine.ResumeAfterTimer | engine-core/src/engine/timer_processor.rs:27-233 | takes a timer, clears its token's waits and resumes |
| Engine.WorkflowEngine.RescheduleTimer | engine-core/src/engine/timer_processor.rs:234-258 | schedules a recurring timer again |
| Engine.WorkflowEngine.Correlate | engine-core/src/engine/message_processor.rs:10-283 | resumes every match, starts every definition the message starts, and answers with the instances reached |
| Engine.WorkflowEngine.UpdateInstanceVariables | engine-core/src/engine/instance_ops.rs:186-275 | updates the instance's variables and hands them on to its tokens |
| Engine.WorkflowEngine.SuspendInstance | engine-core/src/engine/instance_ops.rs:283-335 | wraps the state, unless it is terminal or suspended already |
| Engine.WorkflowEngine.ResumeInstance | engine-core/src/engine/instance_ops.rs:337-384 | unwraps the state of a suspended instance |
| Engine.WorkflowEngine.MoveInstanceToken | engine-core/src/engine/instance_ops.rs:396-555 | checks, cancels when asked to, and runs a fresh token from the target |
| Engine.WorkflowEngine.MigrateInstance | engine-core/src/engine/instance_ops.rs:593-772 | checks first, then maps the instance and its entries |
| Engine.WorkflowEngine.RemoveInstance | engine-core/src/engine/instance_ops.rs:776-847 | removes the instance, and its entries unless the store refuses |
| Lifecycle.SuspendsLiveInstances | engine-core/src/engine/instance_ops.rs:283-384 | exactly live instances can be suspended and exactly suspended ones resumed, into the state they were suspended in; a refused call changes nothing |
| Lifecycle.MovesLiveInstances | engine-core/src/engine/instance_ops.rs:396-438 | exactly live instances can be moved, to nodes of their definition; a refused move changes nothing |
| Lifecycle.StartsWhatCanStart | engine-core/src/engine/process_start.rs:64-204 | a start is refused, and changes nothing, exactly when the definition is unknown, has no start event or starts by timer; otherwise there is a new instance of it, even when its first batch fails |
| Lifecycle.UserTaskRefusals | engine-core/src/engine/user_task.rs:17-104 | why completing a user task fails before its token moves on, and what is left: unknown tasks and suspended instances change nothing, a missing instance or token costs the task |
| Lifecycle.ServiceTaskRefusals | engine-core/src/engine/service_task.rs:98-208 | the same for a service task its worker holds, whose failed end script is not rolled back |
| Lifecycle.IncidentRefusals | engine-core/src/engine/service_task.rs:391-470 | the same for an incident |
| Lifecycle.ErrorRefusals | engine-core/src/engine/service_task.rs:544-640 | the same for a reported error, which is accepted when the definition is missing |
| Lifecycle.TimerRefusals | engine-core/src/engine/timer_processor.rs:27-130 | a timer that is gone, or whose instance, definition or token is missing, fails with the error that says which |
| Lifecycle.CatchRefusals | engine-core/src/engine/message_processor.rs:34-120 | the same for a message catch |
| Lifecycle.UnknownInstances | engine-core/src/engine/instance_ops.rs:776-847 | an update or deletion of an unknown instance is refused; a refused deletion in the store removes the instance alone, an accepted one exactly its work as well |
| Lifecycle.LatestIsNewest | engine-core/src/engine/registry.rs:95-113 | the latest definition of a process is one with the highest version, and there is none exactly when none is registered |
| Lifecycle.ListenerStartsNewest | engine-core/src/engine/timer_processor.rs:45-94 | a scope listener that fires starts an instance of the newest version of its process, with the variables of its instance and the message's over them |
| Lifecycle.ScopeTimersFireOnce | engine-core/src/engine/timer_processor.rs:64-106 | the timer of a scope listener is not scheduled again, however often it is meant to repeat |
| Lifecycle.CallActivityParks | engine-core/src/engine/executor/next_action.rs:151-218 | a call activity parks its token in the state of its instance, unless that runs in parallel, and stores it nowhere else |
| Lifecycle.SendsOn | engine-core/src/engine/executor/next_action.rs:310-315 | an escalation that does not interrupt sends its token on and one fresh token to each handler |
| Correlation.StartsOnIs | engine-core/src/engine/message_processor.rs:254-267 | a message starts exactly the definitions whose first start event is a message start event of its name |
| Correlation.CorrelationReaches | engine-core/src/engine/message_processor.rs:10-283 | a call that succeeds resumed every catch with the message's name whose instance has the business key, if one is given, started every definition the message starts, and answers with their instances; the new ones have the message's business key |
| Condition.ConditionsMeanWhatTheyPrint | engine-core/src/condition.rs:19-61 | evaluating the printed `name op literal` equals the direct comparison, for all six operators |
| Condition.ParseRhsUndoesPrint | engine-core/src/condition.rs:63-104 | parsing a printed literal gives the literal |
| Condition.IntegerComparisons | engine-core/src/condition.rs:106-126 | on integers a double holds exactly the operators are the integer comparisons |
| Condition.LessAndGreaterEqualComplementary | engine-core/src/condition.rs:117-126 | `<` and `>=` are complementary on numbers, and both false on anything else |
| Condition.SearchInComparison | engine-core/src/condition.rs:27-50 | in a printed comparison only its own operator is found, where it stands |
| Condition.ComparisonsMean | engine-core/src/condition.rs:106-126 | numbers are equal when less than 2^-52 apart and ordered as numbers; other values are equal when they are the same, and never ordered |
| Condition.BareNameIsTruthy | engine-core/src/condition.rs:51-61 | a condition that is a bare name holds exactly when the variable is there and is not null, false, zero or the empty text |
| Condition.BlankFails | engine-core/src/condition.rs:19-26 | a blank condition never holds |
| Condition.QuotesStandForText | engine-core/src/condition.rs:63-75 | text in single or double quotes stands for itself, a lone quote for the empty text |
| Condition.IntegersParse | engine-core/src/condition.rs:88-104 | digits with or without a sign are an integer when it fits 64 bits, and a floating-point number beyond that |
| Condition.DecimalsParse | engine-core/src/condition.rs:88-104 | a decimal number is its digits with the point shifted back |
| Gateway.ExecuteParallelGateway | engine-core/src/engine/gateway.rs:6-35 | parallel routing |
| Gateway.ExecuteExclusiveGateway | engine-core/src/engine/gateway.rs:37-68 | exclusive routing: first match, then default |
| Gateway.ExecuteInclusiveGateway | engine-core/src/engine/gateway.rs:70-118 | inclusive routing |
| Gateway.ExecuteComplexGateway | engine-core/src/engine/gateway.rs:120-180 | complex routing |
| Gateway.ComplexWithoutDefaultIsInclusive | engine-core/src/engine/gateway.rs:120-180 | the complex gateway without a default is the inclusive one on every input |
| Gateway.ParallelIsInclusiveWhenUnconditional | engine-core/src/engine/gateway.rs:6-35 | on unconditional flows the parallel gateway equals the inclusive one exactly when it joins or has a flow |
| Gateway.ParallelIsInclusiveInValidDefinition | engine-core/src/engine/gateway.rs:6-35 | so always in a valid definition |
| Gateway.ExclusiveMatchIsInclusive | engine-core/src/engine/gateway.rs:37-68 | the exclusive match is among the inclusive targets |
| Gateway.MatchedIff | engine-core/src/engine/gateway.rs:82-95 | the inclusive targets are exactly those of unconditional flows and of flows whose condition holds |
| Gateway.ForksStayInDefinition | engine-core/src/engine/gateway.rs:120-180 | parallel and complex gateways of a valid definition send tokens to existing nodes when the default exists |
| Gateway.ChoicesStayInDefinition | engine-core/src/engine/gateway.rs:37-118 | the same for exclusive and inclusive gateways |
| Gateway.DefaultDecidesWhereExclusiveGoes | engine-core/src/engine/gateway.rs:55-66 | with no match, the token stays in the definition exactly when the default is one of its nodes |
| Gateway.TwoWayGuardRoutesNumbers | engine-core/src/engine/gateway.rs:37-68 | a gateway guarded by `name < n` and `name >= n` routes exactly the tokens whose variable is a number, and numbers a double holds to their side |
| Gateway.ExclusiveTakesFirst | engine-core/src/engine/gateway.rs:37-68 | the exclusive gateway takes the first flow whose condition holds; when none does, the default, or it fails when it has none |
| Gateway.GatewaysSend | engine-core/src/engine/gateway.rs:6-180 | parallel, inclusive and complex gateways wait exactly when two flows or more lead to them and the token is not merged; otherwise they send one token over each flow they keep, the token itself when it is one flow and fresh ones when there are more |
| Gateway.MatchedInOrder | engine-core/src/engine/gateway.rs:82-95 | kept flows stay in order: unconditional ones, but not to the complex default, and those whose condition holds |
| Definition.IncomingFlowCount | engine-core/src/domain/definition.rs:245-251 | counts the flows that lead to a node |
| Definition.IncomingCountsSumToFlows | engine-core/src/domain/definition.rs:245-251 | incoming counts summed over all nodes give the number of flows |
| Validation.Validate | engine-core/src/domain/definition.rs:36-200 | a definition is accepted exactly when it satisfies all checks, and a reported missing node is missing |
| Validation.FindStarts | engine-core/src/domain/definition.rs:47-68 | exactly one start event |
| Validation.CheckGateways | engine-core/src/domain/definition.rs:142-188 | gateways branch or join, and event-based gateways lead to catch events |
| Validation.AcceptedDefinitions | engine-core/src/domain/definition.rs:36-200 | what acceptance means, spelled out for every node and flow of the definition |
| Registry.NoOrphanInstances | engine-core/src/engine/definition_ops.rs:76-112 | over any run of deployments, deletions and all other calls, every live instance's definition is registered |
| Registry.VersionsOrderedAsDeployed | engine-core/src/engine/definition_ops.rs:34-72 | with new keys, live versions of one BPMN id are distinct and ordered as deployed, and the latest is the most recent survivor, over any run |
| Registry.DeployKeeps | engine-core/src/engine/definition_ops.rs:34-62 | a deployment with all its nested sub-processes keeps that order and enters the keys in order |
| Registry.LatestIsMostRecent | engine-core/src/engine/registry.rs:95-113 | the definition with the highest version is the most recent survivor, whatever the order of the map |
| Registry.AllVersionsInDeploymentOrder | engine-core/src/engine/registry.rs:116-133 | sorting by version gives deployment order |
| Registry.OldDefinitionSurvives | engine-core/src/engine/definition_ops.rs:64-72 | a deployed definition survives a deployment exactly when neither the new definition nor a sub-process of it, at any depth, comes with its key |
| Registry.DeploysNextVersion | engine-core/src/engine/definition_ops.rs:34-72 | a deployed definition gets the version right above all registered ones of its process, or the declared one when it is the first, and its sub-processes follow |
| Registry.DeletionSparesInstances | engine-core/src/engine/definition_ops.rs:76-100 | a deletion without cascade goes through exactly when no instance runs on the definition and the store accepts; while instances run it answers with their number and changes nothing |
| Registry.CascadeDeletesInstances | engine-core/src/engine/definition_ops.rs:76-112 | a cascade with a store that accepts deletes exactly the instances of the definition with all their work, and no other instance changes |
| Registry.CascadeStopsAtRefusal | engine-core/src/engine/definition_ops.rs:97-104 | a cascade stops at the first instance the store refuses: that one and those before it are gone, all others and the definition stay |
| Registry.DefinitionRegistry.HighestVersion | engine-core/src/engine/registry.rs:78-92 | the highest version of a BPMN id, if it has one |
| Registry.DefinitionRegistry.DeployDefinition | engine-core/src/engine/definition_ops.rs:34-62 | the recursion over nested sub-processes enters what the specification enters |
| Registry.DefinitionRegistry.RemoveDefinition | engine-core/src/engine/definition_ops.rs:76-112 | refuses, cascades, stops at the first refusal, or deletes |
| Registry.DefinitionRegistry.constructor | engine-core/src/engine/registry.rs:15-17 | a registry starts empty |
| Flatten.FlattenSubprocess | bpmn-parser/src/parser.rs:691-902 | flattening adds exactly all nodes and all flows of every depth |
| Flatten.FlowsKeptInOrder | bpmn-parser/src/parser.rs:874-885 | every flow of every level is added once, at its source, after the flows that were there and in source order, with its target and its trimmed condition |
| Flatten.StructureKept | bpmn-parser/src/parser.rs:691-824 | with distinct ids, at every depth: a sub-process is a node that leads to its first start event or to `<id>_start`, its start events are `noop` tasks, its end events name it, its flows are kept, and its gateways keep their defaults and join conditions |
| Flatten.TasksKept | bpmn-parser/src/parser.rs:731-790 | at every depth, every task is a node: a service task under its topic, handler or id, a script task with its script, a user task for its assignee or `unassigned`, a call activity of the called element, any other task a service task under its name |
| Flatten.BoundaryEventsKept | bpmn-parser/src/parser.rs:826-884 | at every depth, every boundary event with a usable event definition is a node with what it is attached to, whether it interrupts, and the timer, message, error or escalation its reference stands for |
| Flatten.TimerIsRead | bpmn-parser/src/parser.rs:148-186 | a timer is its duration when it has one, else its date, else its repeating interval; one that says nothing is due at once |
| Flatten.CronIsRead | bpmn-parser/src/parser.rs:148-186 | a cycle that does not start with `R` is a cron expression, or fails |
| Flatten.DefaultStaysFlowId | bpmn-parser/src/parser.rs:793-815 | a default that is the id of a flow is not turned into its target, and names a node exactly when some node has the flow's id |
| Flatten.StartExistsIffDeclared | bpmn-parser/src/parser.rs:702-711 | the start a sub-process leads to exists exactly when it declares a start event |
| Flatten.AddBoundaries | bpmn-parser/src/parser.rs:810-872 | boundary events become nodes, except those without a usable event definition |
| Iso8601.ParsingIsExact | bpmn-parser/src/parser.rs:59-146 | parsing succeeds exactly on texts of the component grammar whose unbounded sum fits 64 bits, and answers that sum |
| Iso8601.Parse | bpmn-parser/src/parser.rs:59-146 | the loop does what the grammar's scanner says |
| Iso8601.PrintParse | bpmn-parser/src/parser.rs:59-146 | printing any number of seconds of 64 bits and parsing gives it back |
| Iso8601.SlashAndCompactAgree | bpmn-parser/src/parser.rs:188-220 | the form with a slash and the compact form parse to the same |
| Iso8601.IntervalRoundTrip | bpmn-parser/src/parser.rs:188-220 | printing a repeating interval in either form and parsing gives it back |
| Iso8601.MarksMayRepeat | bpmn-parser/src/parser.rs:86-96 | the time mark may be repeated |
| Iso8601.UnitsInSeconds | bpmn-parser/src/parser.rs:97-140 | one component of each unit, `Y`, `M`, `W`, `D` and `H`, `M`, `S` after the mark, is that many seconds |
| Iso8601.OtherUnitsFail | bpmn-parser/src/parser.rs:97-140 | no other letter is a unit |
| Iso8601.CountsFit | bpmn-parser/src/parser.rs:188-220 | a count of repetitions is digits, perhaps after a plus sign, that fit 32 bits |
| Utf8.TruncationRespectsCharacters | engine-core/src/history/mod.rs:196-210 | truncation keeps a prefix of whole characters that ends 1021 to 1024 bytes in, the longest that fits, and reports how many were cut |
| Utf8.FindBoundary | engine-core/src/history/mod.rs:199-202 | the loop stops at the nearest character boundary |
| Utf8.BoundariesAreCharacters | engine-core/src/history/mod.rs:200-202 | the boundaries of an encoded text are the ends of its characters |
| Utf8.ShortValuesAreKept | engine-core/src/history/mod.rs:196-217 | values within the limits are not truncated |
| History.CalculateDiff | engine-core/src/history/mod.rs:245-336 | the loops compute the diff |
| History.DiffShowsBeforeAndAfter | engine-core/src/history/mod.rs:245-271 | a diff shows the status and the node before and after, in that order, exactly when they differ |
| History.PatchReplays | engine-core/src/history/mod.rs:272-325 | patching the old variables gives the new ones exactly when no added or changed value was truncated |
| History.UnpatchRestores | engine-core/src/history/mod.rs:69-74 | un-applying gives the old ones back exactly when none was removed and no changed value was truncated |
| History.DiffPartsDisjoint | engine-core/src/history/mod.rs:272-325 | added, removed and changed variables are disjoint, and are what they say |
| History.DiffAbsentIffEqual | engine-core/src/history/mod.rs:327-329 | the variable diff is absent exactly when the variables are equal |
| History.EmptyIffUnchanged | engine-core/src/history/mod.rs:85-92 | the diff is empty exactly when nothing it looks at changed |
| History.ReplayReachesTheLast | engine-core/src/history/mod.rs:245-336 | folding the diffs of a run of states over the first reaches the last, when no value that was added or changed on the way was truncated |
| LogBuffer.FileRefinesBuffer | engine-server/src/log_buffer.rs:210-259 | after any run of pushes, compactions and restarts, loading the file yields the entries in memory, the last 5000 of all |
| LogBuffer.FileStaysShort | engine-server/src/log_buffer.rs:226-240 | the file has at most max(L, 5000) + 499 lines, and 499 more for every restart |
| LogBuffer.RestartsGrowFile | engine-server/src/log_buffer.rs:118-131 | that bound is reached: restarts let the file grow without end |
| LogBuffer.UnreadableLineHidesPushes | engine-server/src/log_buffer.rs:267-289 | behind an unreadable line all pushes stay invisible to a reader, until the push that compacts the file |
| LogBuffer.LoadEntries | engine-server/src/log_buffer.rs:267-289 | loads the last entries of the readable part |
| LogBuffer.RollingLog.constructor | engine-server/src/log_buffer.rs:118-131 | opens the log on a file |
| LogBuffer.RollingLog.PushEntry | engine-server/src/log_buffer.rs:210-259 | rolls the buffer, appends to the file, compacts after 500 writes |
| LogBuffer.RollingLog.Populate | engine-server/src/log_buffer.rs:168-177 | replaces the entries by the last 5000 given |
| LogBuffer.RollingLog.CompactFile | engine-server/src/log_buffer.rs:302-314 | rewrites the file from the entries |
| Persistence.DisagreementIsAccountedFor | engine-core/src/engine/persistence_ops.rs:6-61 | over any run, at every moment every id on which store and memory disagree has a job the worker will come to or a counted permanent failure, exactly when no change after a shutdown request misses the store unnoticed |
| Persistence.EntryLostAfterShutdown | engine-core/src/engine/persistence_ops.rs:54-61 | a run that loses an entry: after the worker stopped, three inline writes fail and the job is dropped; nothing is queued, no permanent failure is counted, and the store lacks the entry |
| Persistence.StoreConverges | engine-core/src/engine/retry_queue.rs:101-168 | from empty, with nothing queued and no permanent failure, store and memory agree on an id exactly when the last step that changed it came before any shutdown request, reached the store inline, or had its repair queued before; they are equal exactly when this holds of every id, always without a shutdown |
| Persistence.ShutdownFlushes | engine-core/src/engine/retry_queue.rs:115-121 | when the worker has exited on a shutdown, every job sent before it succeeded or was counted, in order, and every job sent after it was dropped |
| Persistence.RetryWorker.RetryJob | engine-core/src/engine/retry_queue.rs:123-167 | at most 50 attempts and 2 643 000 ms of sleep, each attempt with the memory of its time; the result, the counter and the store |
| Persistence.LongestWait | engine-core/src/engine/retry_queue.rs:17-24 | the longest total sleep is exactly 2 643 000 ms |
| Persistence.GivenUpWithTheFiftieth | engine-core/src/engine/retry_queue.rs:123-167 | a job that fails stays at the head of the queue for 49 attempts and is given up, and counted, with the fiftieth |
| Persistence.RetryWorker.ReceiveJobs | engine-core/src/engine/retry_queue.rs:115-168 | the worker loop handles every job before the first shutdown request, in order; it gives a job up only after all 50 attempts failed, and counts it |
| Persistence.RetryWorker.constructor | engine-core/src/engine/retry_queue.rs:101-113 | a worker starts with no failures |
| Persistence.PersistedMap.constructor | engine-core/src/engine/persistence_ops.rs:46-60 | memory, store and queue start empty |
| Persistence.PersistedMap.WriteInline | engine-core/src/engine/persistence_ops.rs:6-61 | up to three inline attempts, then a counted error and a job that is queued, or dropped when the worker has stopped |
| Persistence.PersistedMap.Put | engine-core/src/engine/persistence_ops.rs:266-277 | sets an entry and persists it |
| Persistence.PersistedMap.Remove | engine-core/src/engine/persistence_ops.rs:280-289 | takes an entry and deletes it from the store |
| Persistence.UnpersistedEntryIsLost | engine-core/src/engine/process_start.rs:165-177 | an entry put into memory without a persist call is accounted for exactly when the worker will come to a save job of it or gave one up |
| Persistence.RolledBackEntryIsLost | engine-core/src/engine/user_task.rs:54-104 | when an entry is removed and put back, the store has it in the end exactly when a save was queued and no deletion behind it, or when no attempt at the deletion reached the store and a shutdown lost its job |

## Left out

- Call activities: a call parks its token and draws the child's id; the child instance, the failure of a call whose element is not deployed, and resuming the parent are not part of this model.
- ExecutorFrame.BatchWithin: leaves out the child instance that a batch starts at a call activity.
- CallFrames.CompleteUserTaskWithin: leaves out the child instance that its batch starts at a call activity.
- Engine.WorkflowEngine.HandleNextAction: leaves out the start of children, multi-instance and compensation.
- Multi-instance tasks, compensation handlers and their nested batches, escalation boundaries inside a batch: a batch takes steps, not these loops.
- Which step an element takes: any its handler can produce. Which join a fork announces (`find_downstream_join`), how many tokens an unannounced join expects, and whether a complex join ends early come with the steps.
- Timer start events: `trigger_timer_start` and `start_timer_instance` are not part of this model.
- Rhai scripts: an end script is an arbitrary function of the token's variables that may fail; start scripts are part of a step's outcome.
- Audit logs, history recording and persist calls inside engine calls: persistence is modelled on one pending map by itself.
- Payload size guards and audit-log trimming in `persist_instance`.
- Concurrency: an engine call is one atomic step, except for the races on the service-task map in `ConsumeRace`.
- Validation error texts and the payload of `InvalidDefinition`.
- Condition numbers: reals without rounding, so results on integers are stated within 2^53; infinities and NaN, which JSON cannot hold, count as text.
- Version numbers, retry counts and times are unbounded integers.
- The status text of a history diff is compared as the state itself, and human-readable texts are not modelled.
- Filtering of log entries by level and text, NATS, and concurrent pushes.
- XML reading, dates and cron: parsed structures are the input, and the libraries are functions.
- Top-level parsing of a process outside its sub-processes.
- Registry.AllVersionsInDeploymentOrder: takes the sorted list as given, because sorting is a library call.
- Guarantees.DisciplinedRunsKeepReferences: asks that recurring timers do not interrupt and call activities have no boundary timers or messages, because the code breaks the promise there; `IntegrityLimits` says when.
