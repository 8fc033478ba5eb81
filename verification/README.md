# RelayFold orchestrator: model and proofs

RelayFold runs workflows whose tasks are dispatched to workers, whose history is an event log, and whose
verifier tasks may send a part of the workflow (a *slice*) round again until a verdict settles it. This project
models the parts of the orchestrator in which state changes across several actors, and one scanner of the
worker, and proves what holds of every input, every run and every interleaving.

## How it is built

- **Engine and reducer.** `Model`, `Reducer`, `LoopSlices` and `Engine` hold the data, the fold of events into a
  snapshot, the slices and the event batches the engine builds. `EngineEffects` gives every batch a closed form,
  `EngineInvariants`, `EngineSteps` and `OpeningAndRecovery` show that every batch is accepted by the reducer and keeps
  nine invariants. The dispatcher is an arbitrary source of answers (success, input needed, failure, error).
- **In plain fields.** `FieldReadings` (what the engine reads off a snapshot), `ResultFields` (what an answer does),
  `EntryInputs` (who is given the trigger) and `RequestFields` (what everyone else may write) say the same of the
  fields of attempts, states, outputs and bindings, without the functions of the engine, as if-and-only-ifs.
- **Runs.** `WorkflowRuns` is a state machine: an engine that loads, decides and commits by compare-and-set, and
  everyone else (pause, resume, lost host, human input, retry, forced retry, startup recovery, a crash) writing in
  between, in any order. `RunTheorems`, `RunHistory`, `RunAttempts`, `RunTermination`, `RunRaces`, `RunFailures` and
  `RunInputs` (on top of `WholeGenerations`) state what holds of all runs; `RunExamples` gives runs from creation that
  reach the states they are about, and so does `EntryExample`. `WorkflowEngine.Session` is `run_workflow_instance`
  itself, as a method with loops over a stored instance that others write before each of its accesses; each of its
  calls is shown to take steps of the state machine, so that everything proved of runs holds of it, and it terminates.
- **Around the engine.** `StateManager` (many writers on one log), `Storage` (the three maps of the memory store,
  the tables of the SQLite store, one meaning for both), `StoreWriters` (those writers over that store), `Paging`
  (cursors), `TaskDispatcher` (one step per lock-held region), `WorkflowQueue` (queue, active set and the scheduler's
  permits), `StartupRecovery`, `Registration` (the checks a definition passes, which are the assumptions of the
  engine's theorems) and `CredentialResolver`.

Code that changes things in place is a method or a class proved against a specification function; the properties
are then lemmas about the specification. `Registered(def)` is what `validate_and_normalize_workflow_def` accepts:
unique ids, bindings between defined tasks, no binding cycle, rerun starts upstream of their verifier, slices
that do not overlap. `Registration.Validate` decides it, together with the rules on schemas.

## What the proofs found

- **A pause survives a result only if the pass would go on and work is left.** The engine recommits a result onto a
  paused snapshot. `RunTheorems.ResultUnderPause` shows that attempts and verifier states come out as on the engine's
  own base, and that the batch keeps Paused exactly when it carries no workflow status, which can be told from the
  answer, the definition and the snapshot. The pause boundary comes after it: the workflow stays Paused exactly if the
  pass would go on and not all is done, is Completed exactly if the pass would go on and all is done, and otherwise
  is Failed or waits for input (`RunRaces.PausedResultSettles`; `RunExamples.PausedWorkflowCompletes` and
  `RunExamples.PausedWorkflowFails` are runs in which the pause is not kept).
- **Inputs are resolved twice.** A dispatched attempt resolves its inputs again after it has become Running, and
  takes none if that fails. Without human input this never happens (`RunInputs.DispatchedInputsResolve`): loops
  iterate as a whole, a verifier runs after the rest of its generation, and the generation it accepts is complete
  (`RunInputs.AcceptedGenerationsAreWhole`). A continuation inside a slice takes the number of the next generation
  and puts the tasks of the slice out of step; then an attempt is dispatched with no inputs exactly if a result of
  the same pass has put a new attempt in front of a source in its own slice (`RunInputs.PlanSurvivesExactlyWhen`,
  `RunInputs.DispatchResolvesExactlyWhen`).
- **Only the first attempt of an entry task has input.** A task no binding ends at is given the trigger with its first
  attempt. A new generation of its loop, or the continuation after a human input, holds no input, and nothing else is
  looked up for it. If the task has an input schema such an attempt fails the workflow when it is dispatched
  (`EntryInputs.LaterEntryAttemptFails`): its inputs are accepted exactly if it takes none, or it is the first attempt
  and the trigger meets its one schema (`EntryInputs.EntryIsHandedTheTrigger`). `EntryExample.ContinuationOfEntryFails`
  is a run in which a human's answer is lost that way.
- **When a result is recorded.** The engine looks at the stored snapshot and then commits. The result is stored
  exactly if nobody had written up to the look, or the workflow was paused at it, and nobody wrote between the look
  and the commit (`RunRaces.ResultLandsExactlyWhen`). So a pause followed by a resume during a dispatch loses the
  result, and so does a single pause between the look and the commit; both leave the attempt Running
  (`RunRaces.ResumeDuringDispatchLosesResult`, `RunRaces.PauseBeforeCommitLosesResult`). Nothing but a startup
  recovery can run it again (`RunAttempts.OrphansNeedRecovery`), and a recovery skips paused workflows.
- **A workflow failed because its host was lost is final.** It holds no failed attempt, so neither retry is ever
  accepted (`RunTheorems.LostHostIsFinal`). Every other failure leaves a failed attempt: a failed workflow can be
  retried exactly if it was not the loss of its host that failed it (`RunFailures.RetryPossibleExactlyWhen`).
- **The first ending counts.** A workflow that failed, was retried and completed keeps the completion time of its
  first failure in its summary (`Storage.SummaryTimes`).
- **Startup enqueueing needs room.** The queue's consumer starts after `enqueue_active_workflow_instances`, so the
  call returns exactly if the runnable instances fit the queue (`StartupRecovery.EnqueueActive`).
- **The two stores page alike except for a foreign cursor.** With a namespace given, the SQLite predicate ignores
  the cursor's namespace; it selects the same summaries as `is_after_cursor` if and only if the namespace asked
  for is not before the cursor's (`Paging.SqlCursorAgrees`). The service layer refuses cursors of another namespace.
- **Leases and waiters part company.** The two are inserted under different locks. After a claim the waiter is
  there exactly if the claim got to register it and nobody took it, the lease exactly until it is released
  (`TaskDispatcher.LeaseHasWaiterExactlyWhen`). A claim given up in between leaves a lease without a waiter; until
  its release no claim by its worker and none for its instance succeeds (`TaskDispatcher.LeaseBlocks`). The other
  way round, a timeout that comes before the registration leaves a waiter without a lease, which no timeout will
  ever resolve (`TaskDispatcher.WaiterWithoutLeaseExactlyWhen`, `TaskDispatcher.TimeoutBeforeRegistration`).
- **A `$` in front of a placeholder swallows it.** `$` and `${credentials.x}` read together as an escape: the
  credential is fetched and inserted exactly when the text in front does not end in `$`
  (`CredentialResolver.PlaceholderIsVerbatim`).

## Model

| member | source | states |
|---|---|---|
| RunTheorems.GenerationsBounded | orchestrator/src/core/engine.rs:1353-1394 | over every run a verifier state belongs to a verifier and its latest generation lies between 1 and max(1, `max_iterations`) |
| RunTheorems.SatisfiedMeansSelected | orchestrator/src/core/engine.rs:1260-1284 | over every run an attempt of a slice is Satisfied only if its verifier is Accepted or ExhaustedAccepted and selected exactly that generation |
| RunTheorems.ConsumersReadTheAcceptedGeneration | orchestrator/src/core/engine.rs:1004-1064 | each input an attempt has recorded is, for the rest of the run, the output of the completed attempt its mapping names; where it leaves a slice that is the generation the verdict selected |
| RunTheorems.HistoryStands | orchestrator/src/core/engine.rs:580-596 | over every continuation of a run no attempt disappears, completed attempts keep everything but their satisfaction, Skipped stays Skipped, a settled verdict never changes and feedback histories only grow |
| RunTheorems.CompletedMeansDone | orchestrator/src/core/engine.rs:784-805 | in a completed workflow each task has an attempt that is Completed or Skipped and no attempt of a higher generation, and each loop has accepted a generation or runs on over an attempt of its slice that was skipped or left early |
| FieldReadings.DoneExactlyWhen | orchestrator/src/core/engine.rs:784-805 | the completion test holds if and only if the newest attempt of every task is Completed or Skipped and every verifier state is Accepted, ExhaustedAccepted, or Running over a slice with a skipped or early-exit attempt |
| FieldReadings.RunnableExactlyWhen | orchestrator/src/core/engine.rs:1004-1127 | an attempt is runnable if and only if it is pending and each source its task is bound to has an attempt that feeds it: inside one slice the newest, if completed, from elsewhere the newest that is completed and satisfied |
| FieldReadings.ResolvedByFields | orchestrator/src/core/engine.rs:1004-1064 | the inputs are one value per inbound binding, in the order of the definition, each the output of the attempt that feeds it or null, with its generation in the mapping; a task without bindings gets what its attempt holds |
| FieldReadings.InboundInOrder | orchestrator/src/core/engine.rs:1024-1031 | the inbound bindings of a task are those that end at it, in the order of the definition |
| FieldReadings.EligibleExactlyWhen | orchestrator/src/core/engine.rs:874-961 | a loop may open if and only if it has no state, nothing in its slice was skipped or left early, and every source outside the slice that its start is bound to has a completed and satisfied attempt |
| FieldReadings.OpeningByFields | orchestrator/src/core/engine.rs:874-940 | after the opening commit a loop has a state if and only if it had one or might open; a new state runs generation 1 from its rerun start, has selected none and holds no feedback |
| EntryInputs.TriggerGoesToEntries | orchestrator/src/core/engine.rs:168-189 | the first commit makes exactly the first attempts; one holds the trigger if and only if there is a trigger, its task has an input schema and no binding ends at the task, and otherwise it holds no input |
| EntryInputs.EntryAttemptsHold | orchestrator/src/core/engine.rs:963-1000 | over every run, human input included, the first attempt of a task no binding ends at holds exactly that input, and every later attempt of it holds none |
| EntryInputs.EntryIsHandedTheTrigger | orchestrator/src/core/engine.rs:281-293 | over every run such a task is handed exactly that at a dispatch; it is accepted if and only if the task takes no input, or this is its first attempt and the trigger meets its one schema |
| EntryInputs.RejectsExactlyWhen | orchestrator/src/core/engine.rs:291-321 | before a dispatch attempt and workflow are failed, with the inputs recorded, if and only if for some input schema there is no input or one it refuses |
| EntryInputs.LaterEntryAttemptFails | orchestrator/src/core/engine.rs:963-1000 | over every run a later attempt of such a task that takes input fails the workflow at its dispatch and reaches no worker |
| EntryExample.ContinuationOfEntryFails | orchestrator/src/core/workflow/events.rs:197-237 | a run from creation in which such a task is given the trigger, asks a human, is answered, and fails at the dispatch of the continuation |
| RunTheorems.NeverStartsWhilePaused | orchestrator/src/core/engine.rs:241-267 | no step by anyone turns an attempt Running unless the stored workflow is Running, whatever the engine believes |
| RunTheorems.ResultUnderPause | orchestrator/src/core/engine.rs:736-756 | a result batch committed on a paused snapshot is accepted and gives the same attempts, verifier states and pin as on the engine's base; it leaves the workflow Paused exactly if the answer lets the pass go on (a success its schema accepts, a valid exit request, a valid verdict that does not give the loop up), which is exactly if the batch carries no workflow status; what follows the commit is the next row |
| RunRaces.PausedResultSettles | orchestrator/src/core/engine.rs:736-782 | the same result with its pause boundary, on a snapshot still current: the workflow stays Paused if and only if the pass would go on and some task or loop is not done, it is Completed if and only if the pass would go on and all are, and otherwise it has the status of the batch, Failed or InputNeeded |
| RunExamples.PausedWorkflowCompletes | orchestrator/src/core/engine.rs:758-782 | a run from creation: the result of the only task arrives while the workflow is paused, the pass would go on, and the boundary completes the workflow |
| RunExamples.PausedWorkflowFails | orchestrator/src/core/engine.rs:736-756 | a run from creation: the dispatch fails while the workflow is paused, and the workflow is Failed |
| RunRaces.ResultLandsExactlyWhen | orchestrator/src/core/engine.rs:736-756 | for all steps others take before the engine looks at the store and between that look and its commit: the batch is stored if and only if nobody had written up to the look, or the workflow was paused at it, and nobody wrote after it; otherwise the run ends, nothing is stored and the attempt stays Running |
| RunRaces.RecordLandsExactlyWhen | orchestrator/src/core/workflow/state_manager.rs:46-80 | a result lands if and only if the snapshot it is committed on is still the stored one |
| RunRaces.OthersOvertake | orchestrator/src/core/engine.rs:736-756 | whatever others do, the engine stands where it stood and the store is either as it was or newer by the events appended |
| RunRaces.ResumeDuringDispatchLosesResult | orchestrator/src/core/engine.rs:744-755 | a pause and a resume during a dispatch lose its result and leave the attempt Running in a Pending workflow |
| RunRaces.PauseBeforeCommitLosesResult | orchestrator/src/core/engine.rs:744-755 | one pause alone does, if it falls between the look and the commit: the workflow is Paused and the attempt stays Running |
| RunExamples.WaitingIsReached | orchestrator/src/core/engine.rs:121-348 | a run from creation that comes to dispatch an attempt with accepted inputs on a current snapshot, so the results about waiting engines are about reachable states |
| RunTheorems.LostHostIsFinal | orchestrator/src/core/orchestrator.rs:374-423 | once a workflow is failed for its lost host, no sequence of steps by anyone changes the snapshot or the log again |
| RunExamples.HostIsLost | orchestrator/src/core/orchestrator.rs:374-423 | a run from creation whose host is lost during the dispatch: it is failed, and no further steps change it |
| RunFailures.RetryPossibleExactlyWhen | orchestrator/src/core/workflow/workflow_service.rs:558-586 | in every reachable failed state some retry, forced or not, is accepted if and only if an attempt is Failed, and there is none if and only if the step that failed the workflow was the loss of its host |
| RunFailures.RetryAcceptedExactlyWhen | orchestrator/src/core/workflow/events.rs:351-374 | in a failed workflow a retry is accepted for exactly the failed attempts |
| RunFailures.FailingStep | orchestrator/src/core/engine.rs:350-710 | a step fails the workflow without a failed attempt exactly if it is the loss of the host |
| RunFailures.FailedStays | orchestrator/src/core/engine.rs:121-143 | nothing but a retry changes the snapshot of a failed workflow |
| RunTheorems.CommitsAccepted | orchestrator/src/core/engine.rs:121-718 | in every reachable state the reducer accepts whatever the engine is about to commit; a commit can fail only by version |
| RunTheorems.StopsOnlyWhenQuiescent | orchestrator/src/core/engine.rs:197-243 | a pass without progress ends with no pending attempt whose sources are all there and no loop that might open, said of attempts and bindings; the workflow is then Completed exactly if every task and loop is done, and if somebody wrote meanwhile the stored snapshot and log stay as they are |
| RunTheorems.SnapshotIsReplay | orchestrator/src/core/workflow/state_manager.rs:46-80 | over every run the stored snapshot is the replay of the stored log and its version is the length of the log |
| RunSafety.StepIsGood | orchestrator/src/core/engine.rs:121-718 | every step by the engine or anyone else keeps the nine invariants, the replay property, and what the engine's stage relies on |
| RunSafety.RunIsGood | orchestrator/src/core/engine.rs:121-718 | so every state of every run is good |
| RunSafety.RunnableMayMove | orchestrator/src/core/engine.rs:202-238 | after the opening commit every attempt found runnable belongs to a loop whose verifier state exists, or to none |
| RunSafety.ResultOnto | orchestrator/src/core/engine.rs:736-756 | a result batch computed on the engine's base is accepted on that base and on the same snapshot paused, and keeps the invariants on either |
| RunHistory.StepFollows | orchestrator/src/core/engine.rs:241-267 | one step keeps history and starts attempts only in a running workflow |
| RunHistory.RunEvolves | orchestrator/src/core/engine.rs:580-596 | history is kept over any number of steps |
| RunHistory.RunThenRun | orchestrator/src/core/engine.rs:121-718 | running a list of steps and then another is running their concatenation |
| RunAttempts.ClosedSliceNeverGrows | orchestrator/src/core/engine.rs:807-812 | over every run without human input, a slice that holds a skipped attempt or one completed with an early exit never gains an attempt |
| RunAttempts.InterruptedSliceStaysClosed | orchestrator/src/core/engine.rs:807-812 | no engine step adds an attempt to a slice that holds a skipped or exiting attempt afterwards, a verdict and an exit in the same batch included |
| RunAttempts.OrphansNeedRecovery | orchestrator/src/core/orchestrator.rs:313-353 | an attempt that is Running while no engine attends to it stays Running through every run without a startup recovery |
| RunAttempts.RecoveryClears | orchestrator/src/core/workflow/events.rs:117-127 | a recovery leaves nothing Running, resets exactly the running attempts, keeps pin and verifier states, and a second one does nothing |
| RunInputs.DispatchedInputsResolve | orchestrator/src/core/engine.rs:281-289 | over every run without human input a dispatched attempt is given the inputs its bindings resolve to; the empty default is never used |
| RunInputs.DispatchResolvesExactlyWhen | orchestrator/src/core/engine.rs:257-289 | human input or not, what is started resolves again if and only if it was still runnable on the snapshot it was started from |
| RunInputs.PlanSurvivesExactlyWhen | orchestrator/src/core/engine.rs:241-289 | human input or not, an attempt runnable before a result and still pending after it is runnable if and only if the result has created no attempt that is now the latest of a source in its own slice |
| RunInputs.AcceptedGenerationsAreWhole | orchestrator/src/core/engine.rs:1260-1284 | over every run without human input every task of the slice has completed the generation a settled verifier selected |
| WholeGenerations.VerifierRunsLast | orchestrator/src/core/engine.rs:1004-1064 | once a verifier attempt has started, every other task of its slice has completed that generation, as long as each started attempt was fed from its own generation |
| WholeGenerations.ResultKeepsInStep | orchestrator/src/core/engine.rs:1353-1394 | a result keeps the slices in step: the same generations for every task of a slice, each followed by the next only when it is done, each started attempt fed from its own generation |
| RunTermination.EngineProgresses | orchestrator/src/core/engine.rs:197-267 | every step of the engine lowers a measure over verifiers without state, attempts still creatable and pending attempts, for all answers |
| RunTermination.EngineCanMove | orchestrator/src/core/engine.rs:121-718 | an engine that is not idle always has a step to take |
| RunTermination.ResultKeepsWork | orchestrator/src/core/engine.rs:1353-1394 | a result creates attempts only out of generations the iteration budget leaves free |
| RunTermination.StartLowersWork | orchestrator/src/core/engine.rs:257-267 | starting an attempt uses up work |
| RunTermination.OpeningLowersWork | orchestrator/src/core/engine.rs:202-212 | opening loops uses up work |
| WorkflowEngine.Session.RunWorkflowInstance | orchestrator/src/core/engine.rs:121-718 | terminates for every dispatcher and every interference and takes only steps of the run; it reports the closing state exactly if its last step closes a pass without progress, and then the snapshot it held had no pending attempt with all its sources and no loop that might open |
| WorkflowEngine.Session.TurnOfLoop | orchestrator/src/core/engine.rs:199-243 | one iteration of the main loop lowers the measure and ends at the top again exactly if it made progress |
| WorkflowEngine.Session.OpenPass | orchestrator/src/core/engine.rs:202-239 | opens what can open and collects the sorted runnable attempts of the committed snapshot |
| WorkflowEngine.Session.RunPass | orchestrator/src/core/engine.rs:241-267 | works through the attempts found at the start of the pass, skipping those no longer pending |
| WorkflowEngine.Session.StartAttempt | orchestrator/src/core/engine.rs:250-267 | stops cleanly at a stored pause, else makes the attempt Running by compare-and-set |
| WorkflowEngine.Session.Dispatch | orchestrator/src/core/engine.rs:269-415 | an attempt with inputs its schema refuses fails at once; otherwise the answer becomes the batch of the specification, based on the stored snapshot if that is paused |
| WorkflowEngine.Session.RecordResult | orchestrator/src/core/engine.rs:598-642 | commits the batch; goes on only if it proceeds and the workflow is not paused |
| WorkflowEngine.Session.Commit | orchestrator/src/core/workflow/state_manager.rs:46-80 | stores the reduced base and appends the batch exactly if the batch is accepted and the base is current; otherwise nothing changes |
| EngineLoops.InitialiseTasks | orchestrator/src/core/engine.rs:168-189 | the loop yields one fresh first attempt per task, in definition order, which is the batch of `EntryInputs.TriggerGoesToEntries` |
| EngineLoops.OpenLoops | orchestrator/src/core/engine.rs:874-940 | the loop over the slices, sharing the planned ids, builds the specified batch in any iteration order |
| EngineLoops.MaterializeGeneration | orchestrator/src/core/engine.rs:963-1000 | the loop plans each missing attempt of a generation once, and nothing for an interrupted slice |
| EngineLoops.TasksToRun | orchestrator/src/core/engine.rs:214-239 | scanning the attempts in any order and sorting gives exactly the sorted runnable attempts |
| EngineLoops.ResolveAll | orchestrator/src/core/engine.rs:1004-1064 | the loop over inbound bindings returns all inputs with their mapping, or nothing at the first source not ready |
| EngineLoops.SkipPending | orchestrator/src/core/engine.rs:467-497 | the loop emits a skip and an Unsatisfied for each pending attempt |
| EngineLoops.JudgeSlice | orchestrator/src/core/engine.rs:1129-1148 | the loop judges exactly the attempts of the slice that exist in that generation |
| EngineLoops.VerifierResultTransition | orchestrator/src/core/engine.rs:1225-1508 | the procedure with its early returns computes the specified transition or the specified error |
| EngineLoops.OnContinue | orchestrator/src/core/engine.rs:1285-1394 | the Continue arm: blank feedback, interrupted slice, next generation, or exhausted |
| EngineLoops.OnSuccess | orchestrator/src/core/engine.rs:417-673 | the success arm, event by event, computes the batch whose effect `ResultFields.PlainSuccess`, `VerifierAnswers` and `OtherwiseVerifierFails` tell by the fields of the output |
| EngineSteps.ResultAccepted | orchestrator/src/core/engine.rs:350-710 | whatever the dispatcher answers, the batch is accepted and changes only what a result may: the attempt, skips, the verifier's own state, new attempts of the next generation |
| EngineSteps.ResultReducesOnAnySlices | orchestrator/src/core/engine.rs:350-710 | every result batch is accepted even if slices overlap; there is none exactly for the verdict of a verifier without a state |
| EngineSteps.DispatchedVerifierHasState | orchestrator/src/core/engine.rs:1254-1257 | a verifier that was dispatched has a state and has not settled: "verifier state missing" cannot happen |
| EngineSteps.RunnableMakesEligible | orchestrator/src/core/engine.rs:874-961 | a runnable attempt in a slice without verifier state makes that slice eligible to open, so it never runs first |
| EngineSteps.ResolvedSources | orchestrator/src/core/engine.rs:1080-1127 | every resolved input comes from a completed attempt; across a loop boundary from the selected generation |
| EngineSteps.ResolvesWhenReady | orchestrator/src/core/engine.rs:1004-1064 | inputs resolve if and only if the source of every inbound binding is ready |
| EngineSteps.LatestAttemptIsLatest | orchestrator/src/core/engine.rs:1099-1127 | the attempt found is a candidate with the highest generation, and none is found only if there is none |
| EngineSteps.VerdictOutcome | orchestrator/src/core/engine.rs:1225-1508 | the transition reports an error exactly when it fails the attempt |
| EngineEffects.TransitionReduce | orchestrator/src/core/engine.rs:1225-1508 | reducing a verdict's events gives the closed form of the decision table: own attempt, verifier state, workflow status, judged slice, next generation |
| EngineEffects.SuccessEventsReduce | orchestrator/src/core/engine.rs:428-498 | reducing a success gives the attempt Completed with its inputs and output, Satisfied outside loops, and with an exit all pending attempts Skipped |
| EngineEffects.GenerationTasksReduce | orchestrator/src/core/engine.rs:963-1000 | reducing a materialisation adds exactly the missing attempts, also with ids planned earlier in the batch |
| EngineEffects.RetrySteps | orchestrator/src/core/engine.rs:1321-1377 | the Recorded and the Upserted event together add the feedback once |
| EngineVerdicts.FeedbackRecordedOnce | orchestrator/src/core/engine.rs:1321-1408 | an accepted Continue extends the feedback history by exactly its entry in the retry, exhausted and interrupted branches; Complete leaves it |
| EngineVerdicts.VerdictEnds | orchestrator/src/core/engine.rs:1260-1500 | a verdict ends in one of five ways, told by decision, generation, policy and exits: what is selected, what is satisfied, what is created and what fails in each |
| ResultFields.VerifierAnswers | orchestrator/src/core/engine.rs:1577-1606 | the verdict told by the output alone: an object with "decision": "complete" settles the loop on this generation; one with "continue" and feedback that is not blank records that feedback once and then stands still, goes on, accepts or gives up by exits, budget and policy |
| ResultFields.OtherwiseVerifierFails | orchestrator/src/core/engine.rs:540-578 | every other output of a verifier fails attempt and workflow and leaves every verifier state as it was |
| ResultFields.PlainSuccess | orchestrator/src/core/engine.rs:417-498 | an accepted success of any other task completes the attempt with its inputs and, with a schema, its output, satisfied outside slices; if it leaves early every pending attempt is skipped |
| ResultFields.RefusedSuccess | orchestrator/src/core/engine.rs:417-673 | a success its schema refuses, or with an exit reason that is neither null nor a text that is not blank, fails attempt and workflow and touches no other attempt |
| ResultFields.NoSuccess | orchestrator/src/core/engine.rs:350-415 | the exact snapshot after a request for input, with the text of the request, after a failure and after a dispatch error |
| ResultFields.VerdictByFields | orchestrator/src/core/engine.rs:1577-1606 | which outputs give which verdict, and that no other output gives one |
| ResultFields.ExitByFields | orchestrator/src/core/task.rs:55-61 | which outputs ask for an early exit and which do so badly |
| ResultFields.GoesOnByFields | orchestrator/src/core/engine.rs:350-710 | whether the pass goes on, told by the fields of the answer, the definition and the snapshot |
| EngineInvariants.ResultKeepsInv | orchestrator/src/core/engine.rs:350-710 | a result keeps all nine invariants and the history |
| EngineInvariants.LiveVerifierUnsettled | orchestrator/src/core/engine.rs:1353-1394 | while an attempt of a verifier is unfinished the verifier has not settled and has no later attempt |
| OpeningAndRecovery.OpeningReduces | orchestrator/src/core/engine.rs:874-940 | the opening batch is accepted in every iteration order, overlapping slices included, and opens exactly the eligible slices |
| OpeningAndRecovery.OpeningKeepsInv | orchestrator/src/core/engine.rs:874-940 | opening loops keeps the invariants and, once tasks exist, adds no attempt |
| OpeningAndRecovery.NothingLeftToOpen | orchestrator/src/core/engine.rs:874-940 | after the opening batch no slice is eligible |
| OpeningAndRecovery.OpeningEmpty | orchestrator/src/core/engine.rs:207-212 | the batch is empty exactly if no slice is eligible |
| OpeningAndRecovery.InitialKeepsInv | orchestrator/src/core/engine.rs:168-195 | the first commit is accepted, keeps the invariants and gives every task its attempt |
| OpeningAndRecovery.StartKeepsInv | orchestrator/src/core/engine.rs:257-267 | starting an attempt keeps the invariants |
| OpeningAndRecovery.RecoveryKeepsInv | orchestrator/src/core/workflow/events.rs:117-127 | startup recovery keeps the invariants and the history |
| OpeningAndRecovery.RetryKeepsInv | orchestrator/src/core/workflow/events.rs:351-374 | resetting a failed attempt keeps the invariants and the history |
| OpeningAndRecovery.RetryClearsFailure | orchestrator/src/core/workflow/events.rs:351-374 | a failed workflow has one failed attempt at most, so after a retry none is left |
| OpeningAndRecovery.HumanKeepsInv | orchestrator/src/core/workflow/events.rs:197-237 | a human-input continuation is the next generation of the waiting attempt and keeps the invariants and the history |
| PauseRebase.ReduceCommutes | orchestrator/src/core/engine.rs:736-756 | reducing an engine batch commutes with a change of status and version made behind its back |
| PauseRebase.BatchIgnoresStatus | orchestrator/src/core/engine.rs:350-710 | the batch for a result does not depend on status or version |
| PauseRebase.RebasePreservesPause | orchestrator/src/core/engine.rs:736-756 | rebased onto the paused snapshot a batch gives the same attempts and states, and Paused if and only if the batch carries no workflow status, which is if and only if the answer lets the pass go on |
| PauseRebase.GoesOnExactlyWhen | orchestrator/src/core/engine.rs:350-710 | the engine goes on with its pass if and only if the answer is a success its schema accepts, with a valid exit request and, for a verifier, a valid verdict that does not give up; all of it can be read off the answer, the definition and the snapshot |
| RunSafety.ForceRetryExactlyWhen | orchestrator/src/core/workflow/events.rs:241-257 | a forced retry is accepted if and only if workflow and attempt have failed, it names the current pin, and it flags a loss of context exactly if the host changes; it is then the plain retry with the new pin |
| RequestFields.PausedExactlyWhen | orchestrator/src/core/workflow/workflow_service.rs:218-247 | a pause is written if and only if the workflow is Pending or Running, and changes its status alone |
| RequestFields.ResumedExactlyWhen | orchestrator/src/core/workflow/workflow_service.rs:249-275 | a resume is written if and only if the workflow is Paused, and makes it Pending |
| RequestFields.FailedWithHostExactlyWhen | orchestrator/src/core/orchestrator.rs:374-423 | the loss of a host fails a workflow if and only if it is pinned to that host and has not ended, and fails no attempt |
| RequestFields.RetriedExactlyWhen | orchestrator/src/core/workflow/events.rs:351-374 | a retry is written if and only if workflow and attempt are Failed; the attempt keeps its inputs and human input and loses status, judgement, output, exit flag and verdict |
| RequestFields.ForceRetriedExactlyWhen | orchestrator/src/core/workflow/workflow_service.rs:449-476 | a forced retry is written for the same attempts, pins the workflow to the host named and tells that context may be lost if and only if that is not the host it was pinned to |
| RequestFields.ContinuedExactlyWhen | orchestrator/src/core/workflow/workflow_service.rs:344-412 | human input is written if and only if workflow and attempt wait for it and the next generation does not exist; it makes that attempt, pending, with the human input and no other |
| RequestFields.RecoveredExactlyWhen | orchestrator/src/core/orchestrator.rs:313-353 | a startup recovery is written if and only if no engine holds a Pending or Running instance that is Running or has running attempts, and it names each of these once; it makes them and the workflow Pending and changes nothing else |
| RequestFields.TakenUpExactlyWhen | orchestrator/src/core/engine.rs:121-160 | an engine takes up an instance if and only if it is Pending or Running |
| Reducer.ReduceEventsAppend | orchestrator/src/core/workflow/events.rs:320-339 | reducing two batches in turn is reducing their concatenation |
| Reducer.ReduceAppendFailure | orchestrator/src/core/workflow/events.rs:320-339 | a batch rejected halfway is rejected whatever follows |
| Reducer.ReduceIgnoresVersion | orchestrator/src/core/workflow/events.rs:320-339 | reduction neither reads nor changes the version |
| Reducer.ChangedIdsFrame | orchestrator/src/core/workflow/events.rs:263-318 | no accepted batch removes an attempt, the ids it names are in the result, and every attempt not named is untouched |
| Reducer.ChangedTaskAttemptIds | orchestrator/src/core/workflow/events.rs:263-318 | the loop collects exactly the ids the events name |
| Reducer.ChangedExactlyWhen | orchestrator/src/core/workflow/events.rs:263-318 | an attempt is reported as changed if and only if some event of the batch writes it: all attempts of a new instance, those a recovery lists, a continuation, or the one attempt the event names |
| Reducer.InstanceCell.Apply | orchestrator/src/core/workflow/events.rs:100-261 | updating the fields in place is the specified event, with the same errors |
| Reducer.ReduceInPlace | orchestrator/src/core/workflow/events.rs:320-339 | the fold over a mutable snapshot, creation first, equals the specification |
| Reducer.RecoverAttemptsFrame | orchestrator/src/core/workflow/events.rs:117-127 | recovery needs every named attempt and changes exactly those |
| LoopSlices.WalkGraph | orchestrator/src/core/engine.rs:860-872 | the stack walk stops on every graph, cycles included, with exactly the reachable nodes |
| LoopSlices.BuildAdjacency | orchestrator/src/core/engine.rs:838-859 | the adjacency lists hold exactly the bindings, forward or backward |
| LoopSlices.SliceIsThePaths | orchestrator/src/core/engine.rs:814-836 | a slice is exactly the defined tasks on some binding path from the rerun start to the verifier |
| LoopSlices.ComputeSlice | orchestrator/src/core/engine.rs:814-836 | forward reachability met with backward reachability, in definition order |
| LoopSlices.ComputeLoopSlices | orchestrator/src/core/engine.rs:814-836 | one slice for each verifier and no other |
| LoopSlices.RegisteredSlices | orchestrator/src/core/engine.rs:814-836 | on a registered definition slices are disjoint, hold their verifier and start, and feed every later task from inside |
| AttemptIds.RenderInjective | orchestrator/src/core/task.rs:231-233 | the printed attempt id determines task and generation |
| AttemptIds.PrintedForm | orchestrator/src/core/task.rs:231-233 | the printed form is the task and, in brackets, its generation in decimal digits without leading zeros |
| Registration.Validate | orchestrator/src/core/workflow/workflow_service.rs:800-886 | a definition is accepted if and only if it is Registered, no verifier brings a schema of its own and every effective schema can be worked out; each task is stored as it was, with the verdict schema at every verifier and the effective schema worked out from that |
| Registration.PreparedRegistered | orchestrator/src/core/workflow/workflow_service.rs:838-861 | storing the schemas changes nothing of what Registered is about |
| Registration.HasDataBindingCycle | orchestrator/src/core/workflow/workflow_service.rs:913-954 | the counting procedure reports a cycle if and only if some binding path returns to its start |
| Registration.EndOfPass | orchestrator/src/core/workflow/workflow_service.rs:947-954 | when the queue is empty, fewer tasks than defined were released if and only if the bindings are cyclic |
| Registration.IsUpstreamAncestor | orchestrator/src/core/workflow/workflow_service.rs:956-982 | the backward walk finds the ancestor if and only if a path of at least one binding leads from it to the task |
| Registration.SlicesOverlap | orchestrator/src/core/workflow/workflow_service.rs:984-1005 | claiming tasks slice by slice finds an overlap if and only if two slices share a task |
| Registration.FinishingReleases | orchestrator/src/core/workflow/workflow_service.rs:935-950 | finishing a task lowers the in-degrees by exactly its bindings |
| StateManager.StepKeepsConsistent | orchestrator/src/core/workflow/state_manager.rs:46-80 | one read or write by any writer keeps every held snapshot a replay of a prefix of the log; a write lands exactly if its batch is accepted and its base is current |
| StateManager.SnapshotIsReplayOfLog | orchestrator/src/ports/storage.rs:377-395 | under any interleaving of writers the stored snapshot replays the stored log and counts its events |
| StateManager.CommitsAreNeverLost | orchestrator/src/ports/storage.rs:377-395 | the events of a successful commit stay where they were appended for good |
| StateManager.SecondWriterLoses | orchestrator/src/core/workflow/state_manager.rs:36-80 | of two writers holding the same version only the first is stored; the other changes nothing |
| StoreWriters.EveryAcceptedSaveKeepsContract | orchestrator/src/ports/storage.rs:377-395 | over every interleaving of writers on one instance, each save the store accepts brings the reduction of what is stored under the key by its events, which is the contract the stores assume |
| Storage.MemoryStorage.Save | orchestrator/src/adapters/memory_storage.rs:242-303 | either the version conflict is reported and nothing changed, or snapshot, log and summary are those of the commit, timestamps included |
| Storage.MemoryStorage.Get | orchestrator/src/adapters/memory_storage.rs:154-162 | returns the last snapshot committed under the key |
| Storage.SavedExactlyWhen | orchestrator/src/adapters/memory_storage.rs:242-303 | a save is refused if and only if the version expected is not the stored one, with both versions in the error; else snapshot and summary are replaced, totals counted anew, the events appended, and every other instance stays |
| Storage.SummaryTimes | orchestrator/src/adapters/memory_storage.rs:269-292 | over every commit and all later ones: modification is the time of the last event, creation that of the first and never changes again, completion is set exactly at the first snapshot that has ended and never changes again |
| Storage.SqliteStorage.Save | orchestrator/src/adapters/sqlite_storage.rs:535-609 | the same commit on tables: for batches that keep the commit contract it means what the memory store does, and a conflict leaves every row unchanged |
| Storage.SqliteStorage.Get | orchestrator/src/adapters/sqlite_storage.rs:269-349 | the rows read back as the snapshot that was saved |
| Storage.SqliteStorage.InsertEvents | orchestrator/src/adapters/sqlite_storage.rs:611-634 | numbers continue after the expected version, never meet a taken one, and other instances' rows stay |
| Storage.SqliteStorage.PersistTaskChanges | orchestrator/src/adapters/sqlite_storage.rs:680-703 | writing only the attempts the batch names leaves the table equal to the whole snapshot; the "missing" error cannot occur |
| Storage.SqliteStorage.ReplaceVerifierStates | orchestrator/src/adapters/sqlite_storage.rs:751-780 | afterwards the rows of the instance are exactly its verifier states |
| Storage.SqliteStorage.UpsertInstance | orchestrator/src/adapters/sqlite_storage.rs:636-678 | the instance row and its summary columns are those of the commit |
| Storage.TaskChangesAreNamed | orchestrator/src/adapters/sqlite_storage.rs:680-703 | the difference between two snapshots is confined to the attempts the batch names |
| Storage.CommitKeepsContract | orchestrator/src/ports/storage.rs:377-395 | what the state manager commits on a current base keeps the storage contract |
| Paging.ListWorkflowInfo | orchestrator/src/adapters/memory_storage.rs:198-240 | collect, sort, retain and truncate give the page of the sorted selection after the cursor |
| Paging.ListedExactlyWhen | orchestrator/src/adapters/memory_storage.rs:198-240 | a summary is listed if and only if it is stored, of the namespace asked for, and meets every status and definition filter; the order is by modification time, id and namespace, downwards |
| Paging.ScanExactlyWhen | orchestrator/src/core/orchestrator.rs:454-502 | the scan finds the Pending and Running instances on one side, the Paused and those waiting for input on the other, and none that has ended |
| Prelude.LessExactlyWhen | orchestrator/src/adapters/memory_storage.rs:319-333 | the order on ids: a proper prefix, or the smaller character where the two part |
| Paging.FollowingCursorsListsAll | orchestrator/src/adapters/memory_storage.rs:198-240 | following cursors with any limit of at least 1 yields every selected summary once, in order |
| Paging.PagesCoverRest | orchestrator/src/adapters/memory_storage.rs:198-240 | such a chain of pages exists from every position |
| Paging.ChainUnique | orchestrator/src/adapters/memory_storage.rs:198-240 | and it is the only one |
| Paging.AfterItem | orchestrator/src/adapters/memory_storage.rs:319-333 | what comes after the cursor of an item is the rest of the list |
| Paging.SortedUnique | orchestrator/src/adapters/memory_storage.rs:198-240 | the order decides every pair, so the sorted listing is unique |
| Paging.SqlCursorAgrees | orchestrator/src/adapters/sqlite_storage.rs:433-449 | the SQL predicate with a namespace agrees with `is_after_cursor` if and only if the namespace is not before the cursor's; without one always |
| Paging.SqlitePagesAgree | orchestrator/src/adapters/sqlite_storage.rs:399-533 | under that condition both stores return the same page for every filter and limit |
| Paging.FollowingEventsReadsTheLog | orchestrator/src/adapters/memory_storage.rs:164-196 | following event cursors reads the log from the cursor to its end, each event once |
| Paging.ListEvents | orchestrator/src/adapters/sqlite_storage.rs:351-397 | the numbered rows give the same event pages as the list of the memory store |
| Paging.ListNonterminal | orchestrator/src/core/orchestrator.rs:454-502 | the scan ends and splits the nonterminal summaries into runnable and blocked, in order and without loss |
| TaskDispatcher.ReachableSound | orchestrator/src/adapters/task_dispatcher.rs:124-198 | whatever regions run from a sound state on, each worker and each workflow instance has one lease at most and every lease's host satisfies its pin |
| TaskDispatcher.DispatcherStaysSound | orchestrator/src/adapters/task_dispatcher.rs:50-62 | and the start is sound, so this holds over every run of the dispatcher |
| TaskDispatcher.NeverPendingAgain | orchestrator/src/adapters/task_dispatcher.rs:78-121 | a dispatch is never both pending and leased, and never returns to the queue |
| TaskDispatcher.ResolvedAtMostOnce | orchestrator/src/adapters/task_dispatcher.rs:200-216 | over every interleaving a dispatch's waiter is resolved at most once |
| TaskDispatcher.SecondTakeFindsNothing | orchestrator/src/adapters/task_dispatcher.rs:257-287 | of a result and a timeout racing for a dispatch the second finds no waiter |
| TaskDispatcher.LeaseNeverRenewed | orchestrator/src/adapters/task_dispatcher.rs:257-287 | a lease seen again is the same lease, so the monitor releases only what it saw expire |
| TaskDispatcher.LeaseHasWaiterExactlyWhen | orchestrator/src/adapters/task_dispatcher.rs:134-187 | over every interleaving after a claim: the waiter is there if and only if the claim registered it, was not given up before, and nobody has taken it since; the lease if and only if nobody has released it |
| TaskDispatcher.ClaimGivesLease | orchestrator/src/adapters/task_dispatcher.rs:134-187 | a claim that leases a task leaves it with the claimer, leased to the claiming worker and without a waiter |
| TaskDispatcher.LeaseWithoutWaiter | orchestrator/src/adapters/task_dispatcher.rs:134-187 | from the empty dispatcher: pushed, claimed and given up, a dispatch has a lease and no waiter |
| TaskDispatcher.GivenUpClaimKeepsLease | orchestrator/src/adapters/task_dispatcher.rs:134-198 | a claim given up between its locks never has a waiter, and its lease stays until it is released |
| TaskDispatcher.LeaseBlocks | orchestrator/src/adapters/task_dispatcher.rs:301-313 | until a lease is released no claim by its worker takes anything and no claim takes a task of its workflow instance |
| TaskDispatcher.WaiterWithoutLeaseExactlyWhen | orchestrator/src/adapters/task_dispatcher.rs:166-187 | a waiter without a lease exists if and only if the waiter is registered and not taken and the lease was released; no timeout ever sees that dispatch again |
| TaskDispatcher.TimeoutBeforeRegistration | orchestrator/src/adapters/task_dispatcher.rs:273-287 | the race that leaves it: the monitor releases the lease and finds no waiter, then the claim registers one |
| TaskDispatcher.LeaseLastsUntilReleased | orchestrator/src/adapters/task_dispatcher.rs:200-216 | a lease lasts until it is released, unchanged, and never comes back |
| TaskDispatcher.RunForward | orchestrator/src/adapters/task_dispatcher.rs:68-313 | over any steps a dispatch only moves forward through its places and no id is forgotten |
| TaskDispatcher.MakeIdInjective | orchestrator/src/adapters/task_dispatcher.rs:78-90 | task and counter can be read back from a dispatch id, so ids of one dispatcher never repeat |
| TaskDispatcher.IdReads | orchestrator/src/adapters/task_dispatcher.rs:78-90 | a dispatch id is the task, the dispatcher and the number in decimal digits |
| TaskDispatcher.DispatcherService.NextDispatchId | orchestrator/src/adapters/task_dispatcher.rs:78-90 | the counter gives an id no earlier call was given |
| TaskDispatcher.DispatcherService.Push | orchestrator/src/adapters/task_dispatcher.rs:91-107 | the task goes to the back of the queue |
| TaskDispatcher.DispatcherService.Claim | orchestrator/src/adapters/task_dispatcher.rs:124-187 | in the fields of leases and tasks: HasLease if and only if a lease has this worker's id; NoTask if and only if none has and every pending task is pinned to another host or has a lease with its namespace and instance id; else the first task for which neither holds is leased, with all its fields |
| TaskDispatcher.ClaimExactlyWhen | orchestrator/src/adapters/task_dispatcher.rs:134-187 | the same as a lemma over every state, with the new state written out: the task leaves the queue and is leased to the worker for its own timeout from now on |
| TaskDispatcher.CancelExactlyWhen | orchestrator/src/adapters/task_dispatcher.rs:226-255 | lost hosts take exactly the pending tasks pinned to them out of the queue and drop their channels; everything else stays |
| TaskDispatcher.DispatcherService.RegisterWaiter | orchestrator/src/adapters/task_dispatcher.rs:166-187 | the waiter of a claimed task is inserted under its own lock |
| TaskDispatcher.DispatcherService.TakeWaiter | orchestrator/src/adapters/task_dispatcher.rs:200-216 | the waiter is handed to whoever comes first |
| TaskDispatcher.DispatcherService.ExpiredIds | orchestrator/src/adapters/task_dispatcher.rs:257-272 | exactly the leases whose expiry time is not after now |
| TaskDispatcher.DispatcherService.CancelPending | orchestrator/src/adapters/task_dispatcher.rs:226-255 | exactly the pending tasks pinned to a lost host are dropped, with their channels; the rest keeps its order |
| TaskDispatcher.DispatcherService.RemovePendingTask | orchestrator/src/adapters/task_dispatcher.rs:289-299 | the pending task with that id is removed and its channel dropped |
| WorkflowQueue.MemoryWorkflowQueue.TryEnqueue | orchestrator/src/adapters/memory_workflow_queue.rs:35-65 | a duplicate is ignored, a full queue refuses, anything else goes to the back; the id set stays the set of the queue |
| WorkflowQueue.MemoryWorkflowQueue.TryDequeue | orchestrator/src/adapters/memory_workflow_queue.rs:67-88 | the oldest item not active is handed out and becomes active |
| WorkflowQueue.MemoryWorkflowQueue.Complete | orchestrator/src/adapters/memory_workflow_queue.rs:90-106 | the item is no longer active |
| WorkflowQueue.MemoryWorkflowQueue.Remove | orchestrator/src/adapters/memory_workflow_queue.rs:118-138 | reports and removes a pending item |
| WorkflowQueue.MemoryWorkflowQueue.Purge | orchestrator/src/adapters/memory_workflow_queue.rs:140-155 | removes and returns a namespace's items in queue order, keeps the others in order |
| WorkflowQueue.EnginesNeverShareAnInstance | orchestrator/src/core/orchestrator.rs:258-307 | whatever the scheduler does from an exclusive state on, no two engine runs share an instance and there are never more than the permits; the queue keeps its invariant and its capacity |
| WorkflowQueue.SchedulerStaysExclusive | orchestrator/src/core/orchestrator.rs:258-307 | over every run from a new queue with no engine running: the instances run are distinct and exactly the active ones, at most as many as permits, and the queue holds at most its capacity; both are the configured numbers, but at least one |
| WorkflowQueue.NoSecondHandOut | orchestrator/src/adapters/memory_workflow_queue.rs:67-106 | an item handed out twice was completed in between |
| WorkflowQueue.HandOutIsOldestIdle | orchestrator/src/adapters/memory_workflow_queue.rs:67-88 | everything older than the item handed out is active, and only that item leaves |
| WorkflowQueue.QueueConserves | orchestrator/src/adapters/memory_workflow_queue.rs:35-155 | what was accepted is still waiting or left once, counted as multisets |
| StartupRecovery.SynchronizeStartupTasks | orchestrator/src/core/orchestrator.rs:313-353 | afterwards every instance is its recovered self, and the count is the number that needed it |
| StartupRecovery.RecoverOne | orchestrator/src/core/orchestrator.rs:320-350 | one instance: recovered by one committed event if it needs it, all others untouched |
| StartupRecovery.RecoveryLeavesNothingRunning | orchestrator/src/core/workflow/events.rs:117-127 | a recovered instance needs no recovery; blocked and terminal ones are unchanged, and so are pin, verifier states and every attempt not Running |
| StartupRecovery.RecoveryEventRecovers | orchestrator/src/core/workflow/events.rs:117-127 | the committed event does exactly that in whatever order the ids are listed |
| StartupRecovery.SecondRecoveryFindsNothing | orchestrator/src/core/orchestrator.rs:313-353 | a second call recovers zero |
| StartupRecovery.ScanIsComplete | orchestrator/src/core/orchestrator.rs:454-502 | the scan names every runnable instance once |
| StartupRecovery.EnqueueActive | orchestrator/src/core/orchestrator.rs:355-367 | on an empty queue the call returns if and only if the runnable instances fit; then each is queued once, in scan order |
| CredentialResolver.Resolver.ResolveString | worker/src/core/CredentialResolver.ts:28-53 | one pass over the value returns what its tokens mean and fetches exactly what they name, in order, up to the first error |
| CredentialResolver.Resolver.ResolveOne | worker/src/core/CredentialResolver.ts:55-84 | with the characters written out: succeeds if and only if the expression is "credentials." and a name of letters a to z and A to Z, digits and underscores, not starting with a digit, that is declared and stored; the exact condition of each of the five errors; nothing undeclared is fetched |
| CredentialResolver.ExpressionExactlyWhen | worker/src/core/CredentialResolver.ts:55-84 | the same of the specification, over every expression, declaration and store |
| CredentialResolver.Resolver.ResolveHeaders | worker/src/core/CredentialResolver.ts:12-23 | succeeds exactly if every header does, with each value under its own name |
| CredentialResolver.EscapeRoundTrip | worker/src/core/CredentialResolver.ts:28-53 | replacing each `${` by `$${` and resolving gives the text back and fetches nothing |
| CredentialResolver.PlaceholderIsVerbatim | worker/src/core/CredentialResolver.ts:28-53 | a placeholder between two escaped texts is fetched and inserted unread exactly if the text in front does not end in `$`; otherwise it stays in the text |
| CredentialResolver.TokensSpellTheValue | worker/src/core/CredentialResolver.ts:34-51 | no text is lost in reading: the tokens spell the value |
| CredentialResolver.OnlyDeclaredAreFetched | worker/src/core/CredentialResolver.ts:72-78 | every name fetched is declared, well-formed and written in the value |
| CredentialResolver.OnlyFetchedMatter | worker/src/core/CredentialResolver.ts:78-83 | the store matters only through the names fetched |
| CredentialResolver.ResolvesWhenEveryTokenDoes | worker/src/core/CredentialResolver.ts:34-51 | a value resolves exactly if each of its tokens does |

## Left out

- The HTTP interface, routers, configuration files, the command line, the user interface and the website.
- Worker executors, session files, workspaces and environment variables. Of the worker only the credential scanner is modelled.
- YAML and JSON parsing, and the lower-casing and character checks of identifiers in `validate_and_normalize_workflow_def`: ids are taken as normalised.
- JSON Schema: validity is an arbitrary predicate, and working out an effective output schema is an arbitrary function that may fail.
- Resolving a task's function reference and computing its effective output schema: an error in the first is the answer `DispatchError`; one in the second ends the run like `Crash`.
- Execution metadata, loop context and log output: they do not feed back into the snapshot.
- Machine integers: versions, generations, cursors and counters are unbounded naturals, so wrap-around of 32-bit and 64-bit values is not modelled.
- The wall clock: times are parameters of the operations that read it.
- Blocking and wake-ups (Tokio notifications, oneshot channels, semaphores as waits): a call that would wait reports that it must, and no claim is made that a waiter is ever woken.
- The JSON encoding of rows: what is written to a table is taken to read back the same. One value does not: an optional JSON value that is present and null, as in the event `TaskOutputRecorded` with `Some(Null)`, is written as null and read back as absent, so the event pages of the SQLite store differ from those of the memory store there.
- MySQL, SQL text and migrations: a transaction is one atomic step on tables, and a query is a comprehension over rows.
- The worker registry and the cron scheduler. That every lost host is reconciled is not claimed.
- Changing a definition under a live instance: `create_workflow_def` allows it with its overwrite flag (orchestrator/src/core/workflow/workflow_service.rs:36-72); the runs here keep one definition.
- RequestFields.ContinuedExactlyWhen: says when input for a given attempt is written. The service also accepts a task id and takes its latest attempt, and refuses tasks that are not agent tasks; kinds of tasks are not modelled.
- Progress through human input: a continuation inside a slice takes the generation number the next iteration would have, so the verdict may then judge other attempts. The safety results cover it; no claim of completion does.
- Hash-map iteration order is an arbitrary order of the slices; sorting of ids and summaries is the unique sorted sequence, not a sorting algorithm.
- Strings in the scanner are sequences of UTF-16 code units; no surrogate handling.
- Two engines on one instance are not part of `WorkflowRuns`; the queue excludes them (`WorkflowQueue.EnginesNeverShareAnInstance`), and `StateManager` covers any number of writers on one log.
- StartupRecovery.SynchronizeStartupTasks: stated over the memory store; a commit refused because someone else wrote first is not modelled, since nothing else runs during startup.
- StartupRecovery.EnqueueActive: reports whether the call would return instead of waiting on a full queue.
- RunAttempts.InterruptedSliceStaysClosed: covers the steps of the engine, and `RunAttempts.ClosedSliceNeverGrows` every run without human input; a human-input continuation may still add an attempt to an interrupted slice.
- RunTermination.EngineProgresses: bounds the steps of one engine between load and stop; how often others make a new run necessary is not bounded.
