/**
 What one engine pass decides: which attempts are runnable, which generations to materialise, and the
 event batch a task result turns into. `valid(schema, value)` stands for JSON Schema validation.
 */
module Engine {
  import opened Prelude
  import opened JsonValues
  import opened AttemptIds
  import opened Model
  import opened Reducer
  import opened LoopSlices

  // ---------------------------------------------------------------------------
  // Reading the snapshot

  predicate SliceInterruptedByExit(tasks: map<AttemptId, TaskInstance>, slice: seq<TaskId>) {
    exists id :: id in tasks && tasks[id].taskDefId in slice && (tasks[id].status.Skipped? || tasks[id].earlyExit)
  }

  predicate IsTaskInLoopSlice(loops: Loops, t: TaskId) {
    exists v :: v in loops.body && t in loops.body[v]
  }

  function Candidates(tasks: map<AttemptId, TaskInstance>, t: TaskId, satisfiedOnly: bool): set<AttemptId> {
    set id | id in tasks && tasks[id].taskDefId == t
             && (satisfiedOnly ==> tasks[id].status.Completed? && tasks[id].satisfaction.Satisfied?)
  }

  /** `latest_materialized_attempt_id` and, with `satisfiedOnly`, `latest_satisfied_attempt_id`. */
  function LatestAttempt(tasks: map<AttemptId, TaskInstance>, t: TaskId, satisfiedOnly: bool): Option<AttemptId> {
    var candidates := Candidates(tasks, t, satisfiedOnly);
    if candidates == {} then None
    else
      var first := First(candidates);
      var generations := set id | id in candidates :: tasks[id].generationIndex;
      assert tasks[first].generationIndex in generations;
      Some(AttemptId(t, Max(generations)))
  }

  /** `loop_slices.iter().find(|(_, slice)| slice.contains(target))` */
  function FirstSliceWith(loops: Loops, order: seq<TaskId>, t: TaskId): Option<TaskId> {
    if order == [] then None
    else if order[0] in loops.body && t in loops.body[order[0]] then Some(order[0])
    else FirstSliceWith(loops, order[1..], t)
  }

  /** `resolve_source_attempt_id`; `target` is None when no target attempt exists yet. */
  function ResolveSource(tasks: map<AttemptId, TaskInstance>, loops: Loops, target: Option<TaskId>, source: TaskId)
    : Option<AttemptId>
  {
    var owner := if target.Some? then FirstSliceWith(loops, loops.order, target.value) else None;
    LatestAttempt(tasks, source, !(owner.Some? && owner.value in loops.body && source in loops.body[owner.value]))
  }

  function Inbound(bindings: seq<DataBinding>, t: TaskId): seq<DataBinding> {
    if bindings == [] then []
    else (if bindings[0].target == t then [bindings[0]] else []) + Inbound(bindings[1..], t)
  }

  datatype ResolvedInputs = ResolvedInputs(values: seq<Json>, mapping: seq<TaskInputMapping>)

  function ResolveBindings(tasks: map<AttemptId, TaskInstance>, loops: Loops, target: TaskId, inbound: seq<DataBinding>)
    : Option<ResolvedInputs>
  {
    if inbound == [] then Some(ResolvedInputs([], []))
    else
      var source := ResolveSource(tasks, loops, Some(target), inbound[0].source);
      if source.None? || source.value !in tasks || !tasks[source.value].status.Completed? then None
      else
        match ResolveBindings(tasks, loops, target, inbound[1..])
        case None => None
        case Some(rest) =>
          var task := tasks[source.value];
          Some(ResolvedInputs([task.outputData.GetOr(JNull)] + rest.values,
                              [TaskInputMapping(inbound[0].source, task.generationIndex)] + rest.mapping))
  }

  /** `resolve_inputs`: Some exactly when the attempt may run. */
  function ResolveInputs(tasks: map<AttemptId, TaskInstance>, def: WorkflowDef, loops: Loops, task: TaskInstance)
    : Option<ResolvedInputs>
  {
    var inbound := Inbound(def.dataBindings, task.taskDefId);
    if inbound == [] && task.inputData != [] then Some(ResolvedInputs(task.inputData, task.inputMapping))
    else ResolveBindings(tasks, loops, task.taskDefId, inbound)
  }

  predicate Runnable(tasks: map<AttemptId, TaskInstance>, def: WorkflowDef, loops: Loops, id: AttemptId) {
    id in tasks && tasks[id].status.Pending? && ResolveInputs(tasks, def, loops, tasks[id]).Some?
  }

  /** `validate_inputs` */
  predicate InputsValid(valid: (Json, Json) -> bool, schemas: seq<Json>, inputs: seq<Json>) {
    |schemas| <= |inputs| && forall k :: 0 <= k < |schemas| ==> valid(schemas[k], inputs[k])
  }

  predicate FinishedTask(tasks: map<AttemptId, TaskInstance>, t: TaskId) {
    var latest := LatestAttempt(tasks, t, false);
    latest.Some? && latest.value in tasks
      && (tasks[latest.value].status.Completed? || tasks[latest.value].status.Skipped?)
  }

  /** `workflow_all_completed` */
  predicate WorkflowAllCompleted(i: WorkflowInstance, def: WorkflowDef, loops: Loops) {
    && (forall task :: task in def.tasks ==> FinishedTask(i.tasks, task.id))
    && (forall v :: v in i.verifierStates ==>
          i.verifierStates[v].Settled()
          || (i.verifierStates[v].status.Running? && v in loops.body && SliceInterruptedByExit(i.tasks, loops.body[v])))
  }

  // ---------------------------------------------------------------------------
  // Materialisation

  /** `initial_task_input_data` */
  function InitialInput(i: WorkflowInstance, def: WorkflowDef, task: TaskDef): seq<Json> {
    if i.triggerInput.None? || task.inputSchemas == [] || Inbound(def.dataBindings, task.id) != [] then []
    else [i.triggerInput.value]
  }

  /** First pass over an instance without attempts: every task at generation 1. */
  function InitialTaskEvents(i: WorkflowInstance, def: WorkflowDef, tasks: seq<TaskDef>): seq<Event> {
    if tasks == [] then []
    else [TaskMaterialized(AttemptId(tasks[0].id, 1), FreshTask(tasks[0].id, 1, None, InitialInput(i, def, tasks[0])))]
         + InitialTaskEvents(i, def, tasks[1..])
  }

  /** `logical_task_ready_outside_slice` */
  predicate ReadyOutsideSlice(tasks: map<AttemptId, TaskInstance>, def: WorkflowDef, loops: Loops, start: TaskId,
      slice: seq<TaskId>)
  {
    forall b :: b in def.dataBindings && b.target == start && b.source !in slice ==>
      var source := ResolveSource(tasks, loops, None, b.source);
      source.Some? && source.value in tasks && tasks[source.value].status.Completed?
  }

  /** The loop of `materialize_generation_events`; `planned` holds the ids already planned in this batch. */
  function GenerationTasks(tasks: map<AttemptId, TaskInstance>, slice: seq<TaskId>, generation: nat,
      planned: set<AttemptId>) : (seq<Event>, set<AttemptId>)
  {
    if slice == [] then ([], planned)
    else
      var id := AttemptId(slice[0], generation);
      if id in tasks || id in planned then GenerationTasks(tasks, slice[1..], generation, planned)
      else
        var (rest, all) := GenerationTasks(tasks, slice[1..], generation, planned + {id});
        ([TaskMaterialized(id, FreshTask(slice[0], generation, None, []))] + rest, all)
  }

  /** `materialize_generation_events` */
  function GenerationEvents(tasks: map<AttemptId, TaskInstance>, slice: seq<TaskId>, generation: nat,
      planned: set<AttemptId>) : (seq<Event>, set<AttemptId>)
  {
    if SliceInterruptedByExit(tasks, slice) then ([], planned) else GenerationTasks(tasks, slice, generation, planned)
  }

  /** The verifier's first generation may start now. */
  predicate Eligible(i: WorkflowInstance, def: WorkflowDef, loops: Loops, v: TaskId) {
    && v in loops.body
    && !SliceInterruptedByExit(i.tasks, loops.body[v])
    && v !in i.verifierStates
    && VerifierOf(def, v).Some?
    && FindTask(def.tasks, StartOf(def, v)).Some?
    && ReadyOutsideSlice(i.tasks, def, loops, StartOf(def, v), loops.body[v])
  }

  function FirstState(def: WorkflowDef, v: TaskId): VerifierState {
    VerifierState(v, StartOf(def, v), 1, None, [], VerifierStateStatus.Running, None)
  }

  /** `materialize_eligible_initial_generation_events` over the slices in iteration order. */
  function InitialGenerationEvents(i: WorkflowInstance, def: WorkflowDef, loops: Loops, order: seq<TaskId>,
      planned: set<AttemptId>) : seq<Event>
  {
    if order == [] then []
    else if !Eligible(i, def, loops, order[0]) then InitialGenerationEvents(i, def, loops, order[1..], planned)
    else
      var (events, all) := GenerationEvents(i.tasks, loops.body[order[0]], 1, planned);
      [VerifierStateUpserted(order[0], FirstState(def, order[0]))] + events
      + InitialGenerationEvents(i, def, loops, order[1..], all)
  }

  // ---------------------------------------------------------------------------
  // Task results

  datatype DispatchAnswer = Success(output: Json) | InputNeeded(request: string) | Failure(reason: string)
    | DispatchError

  datatype Outcome = Proceed | StopOk | StopError

  /** A batch to commit and what the pass does afterwards, or an error returned before any commit. */
  datatype ResultBatch = Batch(events: seq<Event>, outcome: Outcome) | NoCommit

  datatype Verdict = Verdict(decision: VerifierDecision, feedback: Option<string>, output: Json)

  const ExitField := "_workflow_exit_reason"

  /** `workflow_exit_reason` */
  function ExitReason(output: Json): Result<Option<string>, string> {
    match Field(output, ExitField)
    case None => Result.Success(None)
    case Some(JNull) => Result.Success(None)
    case Some(JString(reason)) =>
      if IsBlank(reason) then Result.Failure("_workflow_exit_reason must be null or a nonempty string")
      else Result.Success(Some(reason))
    case Some(_) => Result.Failure("_workflow_exit_reason must be null or a nonempty string")
  }

  /** `verifier_result_from_output` */
  function VerdictOf(output: Json): Result<Verdict, string> {
    if !output.JObject? then Result.Failure("Verifier task output must be an object")
    else
      var decision := StringField(output, "decision");
      var feedback := StringField(output, "feedback");
      if decision == Some("complete") then Result.Success(Verdict(Complete, feedback, output))
      else if decision != Some("continue") then
        Result.Failure("Verifier task decision must be \"continue\" or \"complete\"")
      else if feedback.None? || IsBlank(feedback.value) then
        Result.Failure("Verifier continue decision requires non-empty feedback")
      else Result.Success(Verdict(Continue, feedback, output))
  }

  function InputEvents(id: AttemptId, r: ResolvedInputs): seq<Event> {
    [TaskInputDataSet(id, r.values), TaskInputMappingSet(id, r.mapping)]
  }

  function FailTask(id: AttemptId): seq<Event> {
    [TaskStatusChanged(id, TaskStatus.Failed), TaskSatisfactionChanged(id, Unsatisfied)]
  }

  const FailWorkflow: seq<Event> := [WorkflowStatusChanged(WorkflowStatus.Failed)]

  function PendingIds(tasks: map<AttemptId, TaskInstance>): set<AttemptId> {
    set id | id in tasks && tasks[id].status.Pending?
  }

  /** Early exit skips every attempt still pending. */
  function SkipEvents(ids: seq<AttemptId>): seq<Event> {
    if ids == [] then []
    else [TaskStatusChanged(ids[0], Skipped), TaskSatisfactionChanged(ids[0], Unsatisfied)] + SkipEvents(ids[1..])
  }

  /** `slice_satisfaction_events` */
  function SatisfactionEvents(tasks: map<AttemptId, TaskInstance>, slice: seq<TaskId>, generation: nat,
      satisfaction: Satisfaction) : seq<Event>
  {
    if slice == [] then []
    else
      var id := AttemptId(slice[0], generation);
      (if id in tasks then [TaskSatisfactionChanged(id, satisfaction)] else [])
      + SatisfactionEvents(tasks, slice[1..], generation, satisfaction)
  }

  datatype Transition = Transition(events: seq<Event>, error: Option<string>)

  datatype TransitionError = AttemptNotFound | DefinitionMissing | NotAVerifier | StateMissing

  function Metadata(id: AttemptId, status: VerifierAttemptStatus, verdict: Verdict, feedback: Option<string>,
      reason: Option<string>): Event
  {
    TaskVerifierMetadataSet(id,
      Some(VerifierMetadata(status, Some(verdict.decision), feedback, Some(verdict.output), reason)))
  }

  /** `verifier_result_transition`: accept, retry, exhaust or fail. */
  function VerifierTransition(i: WorkflowInstance, def: WorkflowDef, loops: Loops, id: AttemptId, output: Json,
      verdict: Verdict) : Result<Transition, TransitionError>
  {
    if id !in i.tasks then Result.Failure(AttemptNotFound)
    else
      var generation, v := i.tasks[id].generationIndex, i.tasks[id].taskDefId;
      var task := FindTask(def.tasks, v);
      if task.None? then Result.Failure(DefinitionMissing)
      else if task.value.verifier.None? then Result.Failure(NotAVerifier)
      else if v !in i.verifierStates then Result.Failure(StateMissing)
      else
        var slice := if v in loops.body then loops.body[v] else [v];
        Result.Success(
          match verdict.decision
          case Complete => Accepting(i, v, slice, id, generation, verdict)
          case Continue => Continuing(i, task.value, slice, id, generation, output, verdict))
  }

  function Accepting(i: WorkflowInstance, v: TaskId, slice: seq<TaskId>, id: AttemptId, generation: nat,
      verdict: Verdict): Transition
  {
    Transition(
      [VerifierStateStatusChanged(v, VerifierStateStatus.Accepted, Some(generation), Some("complete")),
       Metadata(id, VerifierAttemptStatus.Accepted, verdict, verdict.feedback, Some("complete"))]
      + SatisfactionEvents(i.tasks, slice, generation, Satisfied), None)
  }

  function Continuing(i: WorkflowInstance, task: TaskDef, slice: seq<TaskId>, id: AttemptId, generation: nat,
      output: Json, verdict: Verdict) : Transition
    requires task.verifier.Some? && task.id in i.verifierStates
  {
    var feedback := verdict.feedback.GetOr("");
    if IsBlank(feedback) then
      Transition(
        [WorkflowStatusChanged(WorkflowStatus.Failed)] + FailTask(id)
        + [Metadata(id, Invalid, verdict, verdict.feedback, Some("continue decision requires non-empty feedback"))],
        Some("Verifier continue decision requires non-empty feedback"))
    else
      var entry := FeedbackEntry(generation, feedback, verdict.output);
      var recorded := [VerifierFeedbackRecorded(task.id, entry)];
      if SliceInterruptedByExit(i.tasks, slice) then
        Transition(
          recorded + [Metadata(id, Rejected, verdict, Some(feedback), Some("slice_interrupted_by_early_exit"))]
          + SatisfactionEvents(i.tasks, slice, generation, Unsatisfied), None)
      else if generation < task.verifier.value.maxIterations then
        Transition(recorded + Retrying(i, task.id, slice, id, generation, entry, verdict), None)
      else
        var exhausted := Exhausting(i, task, slice, id, generation, output, verdict, feedback);
        Transition(recorded + exhausted.events, exhausted.error)
  }

  function NextState(state: VerifierState, generation: nat, entry: FeedbackEntry): VerifierState {
    state.(feedbackHistory := state.feedbackHistory + [entry], latestGeneration := generation + 1,
           status := VerifierStateStatus.Running, selectedGeneration := None, exitReason := None)
  }

  function Retrying(i: WorkflowInstance, v: TaskId, slice: seq<TaskId>, id: AttemptId, generation: nat,
      entry: FeedbackEntry, verdict: Verdict) : seq<Event>
    requires v in i.verifierStates
  {
    [VerifierStateUpserted(v, NextState(i.verifierStates[v], generation, entry)),
     Metadata(id, Rejected, verdict, Some(entry.feedback), None)]
    + SatisfactionEvents(i.tasks, slice, generation, Unsatisfied)
    + GenerationEvents(i.tasks, slice, generation + 1, {}).0
  }

  function Exhausting(i: WorkflowInstance, task: TaskDef, slice: seq<TaskId>, id: AttemptId, generation: nat,
      output: Json, verdict: Verdict, feedback: string) : Transition
    requires task.verifier.Some? && task.id in i.verifierStates
  {
    var selected := i.verifierStates[task.id].selectedGeneration;
    var exhausted := Some("max_iterations_exhausted");
    if !task.verifier.value.onExhaustedContinue then
      Transition(
        [VerifierStateStatusChanged(task.id, VerifierStateStatus.ExhaustedFailed, selected, exhausted),
         WorkflowStatusChanged(WorkflowStatus.Failed)] + FailTask(id)
        + [Metadata(id, VerifierAttemptStatus.ExhaustedFailed, verdict, Some(feedback), exhausted)]
        + SatisfactionEvents(i.tasks, slice, generation, Unsatisfied),
        Some("Verifier exhausted iteration budget"))
    else if output.JNull? && task.outputSchema.None? then
      Transition(
        [VerifierStateStatusChanged(task.id, VerifierStateStatus.Failed, selected, exhausted),
         WorkflowStatusChanged(WorkflowStatus.Failed)] + FailTask(id)
        + [Metadata(id, VerifierAttemptStatus.ExhaustedFailed, verdict, Some(feedback),
          Some("no schema-valid latest generation output"))],
        Some("Verifier exhausted with continue policy but no schema-valid output"))
    else
      Transition(
        [VerifierStateStatusChanged(task.id, VerifierStateStatus.ExhaustedAccepted, Some(generation), exhausted),
         Metadata(id, VerifierAttemptStatus.ExhaustedAccepted, verdict, Some(feedback), exhausted)]
        + SatisfactionEvents(i.tasks, slice, generation, Satisfied), None)
  }

  /** The events recorded for every schema-valid success. */
  function CompletedEvents(loops: Loops, task: TaskDef, id: AttemptId, r: ResolvedInputs, output: Json): seq<Event> {
    InputEvents(id, r) + [TaskStatusChanged(id, TaskStatus.Completed)]
    + (if IsTaskInLoopSlice(loops, task.id) then [] else [TaskSatisfactionChanged(id, Satisfied)])
    + (if task.effectiveOutputSchema.Some? then [TaskOutputRecorded(id, Some(output))] else [])
  }

  function ExitEvents(tasks: map<AttemptId, TaskInstance>, id: AttemptId, reason: Option<string>): seq<Event> {
    if reason.None? then [] else [TaskEarlyExitSet(id, true)] + SkipEvents(SortIds(PendingIds(tasks)))
  }

  function SchemaAccepts(valid: (Json, Json) -> bool, task: TaskDef, output: Json): bool {
    task.effectiveOutputSchema.Some? ==> valid(task.effectiveOutputSchema.value, output)
  }

  function ExitRequest(task: TaskDef, output: Json): Result<Option<string>, string> {
    if task.allowEarlyExit then ExitReason(output) else Result.Success(None)
  }

  function SuccessBatch(valid: (Json, Json) -> bool, i: WorkflowInstance, def: WorkflowDef, loops: Loops, task: TaskDef,
    id: AttemptId, r: ResolvedInputs, output: Json): ResultBatch
  {
    if !SchemaAccepts(valid, task, output) then Batch(InputEvents(id, r) + FailTask(id) + FailWorkflow, StopError)
    else
      var completed := CompletedEvents(loops, task, id, r, output);
      match ExitRequest(task, output)
      case Failure(_) => Batch(completed + FailTask(id) + FailWorkflow, StopError)
      case Success(reason) =>
        var events := completed + ExitEvents(i.tasks, id, reason);
        if task.verifier.None? then Batch(events, Proceed)
        else
          match VerdictOf(output)
          case Failure(error) =>
            Batch(events + FailTask(id)
                  + [TaskVerifierMetadataSet(id,
                    Some(VerifierMetadata(Invalid, None, None, Some(output), Some(error))))]
                  + FailWorkflow, StopError)
          case Success(verdict) => VerdictBatch(i, def, loops, id, output, events, verdict)
  }

  /** The transition is decided on the snapshot that already includes this result's exit flag and skips. */
  function VerdictBatch(i: WorkflowInstance, def: WorkflowDef, loops: Loops, id: AttemptId, output: Json,
      events: seq<Event>, verdict: Verdict) : ResultBatch
  {
    match Reduce(i, events)
    case Failure(_) => NoCommit
    case Success(j) =>
      match VerifierTransition(j, def, loops, id, output, verdict)
      case Failure(_) => NoCommit
      case Success(t) => Batch(events + t.events, if t.error.Some? then StopError else Proceed)
  }

  /** The batch for the answer to a dispatch of attempt `id`, computed on the snapshot that made it Running. */
  function ResultEvents(valid: (Json, Json) -> bool, i: WorkflowInstance, def: WorkflowDef, loops: Loops, task: TaskDef,
    id: AttemptId, r: ResolvedInputs, answer: DispatchAnswer): ResultBatch
  {
    match answer
    case InputNeeded(request) =>
      Batch(InputEvents(id, r) + [TaskStatusChanged(id, TaskStatus.InputNeeded(request)),
                                  WorkflowStatusChanged(WorkflowStatus.InputNeeded)], StopOk)
    case Failure(_) => Batch(InputEvents(id, r) + FailTask(id) + FailWorkflow, StopError)
    case DispatchError => Batch(InputEvents(id, r) + [TaskStatusChanged(id, TaskStatus.Failed)]
      + FailWorkflow, StopError)
    case Success(output) => SuccessBatch(valid, i, def, loops, task, id, r, output)
  }

  /** The answer is a verdict to be decided on; every other answer is settled at once. */
  predicate GivesVerdict(valid: (Json, Json) -> bool, task: TaskDef, answer: DispatchAnswer) {
    && answer.Success? && SchemaAccepts(valid, task, answer.output) && ExitRequest(task, answer.output).Success?
    && task.verifier.Some? && VerdictOf(answer.output).Success?
  }
}
