/** The engine's event-building loops, each proved to produce the batch its specification names. */
module EngineLoops {
  import opened Prelude
  import opened JsonValues
  import opened AttemptIds
  import opened Model
  import opened Reducer
  import opened LoopSlices
  import opened Engine
  import opened EngineEffects
  import opened WorkflowRuns

  /** The task initialisation of `run_workflow_instance`. */
  method InitialiseTasks(i: WorkflowInstance, def: WorkflowDef) returns (events: seq<Event>)
    ensures events == InitialTaskEvents(i, def, def.tasks)
  {
    events := [];
    for k := 0 to |def.tasks|
      invariant events + InitialTaskEvents(i, def, def.tasks[k..]) == InitialTaskEvents(i, def, def.tasks)
    {
      var task := def.tasks[k];
      events := events + [TaskMaterialized(AttemptId(task.id, 1),
        FreshTask(task.id, 1, None, InitialInput(i, def, task)))];
      assert def.tasks[k..][1..] == def.tasks[k + 1..];
    }
  }

  /** `materialize_generation_events`, with the set of planned ids threaded through. */
  method MaterializeGeneration(tasks: Tasks, slice: seq<TaskId>, generation: nat, planned: set<AttemptId>)
    returns (events: seq<Event>, all: set<AttemptId>)
    ensures events == GenerationEvents(tasks, slice, generation, planned).0
    ensures all == GenerationEvents(tasks, slice, generation, planned).1
  {
    events, all := [], planned;
    if SliceInterruptedByExit(tasks, slice) { return; }
    for k := 0 to |slice|
      invariant events + GenerationTasks(tasks, slice[k..], generation, all).0
        == GenerationTasks(tasks, slice, generation, planned).0
      invariant GenerationTasks(tasks, slice[k..], generation, all).1
        == GenerationTasks(tasks, slice, generation, planned).1
    {
      var id := AttemptId(slice[k], generation);
      assert slice[k..][1..] == slice[k + 1..];
      if id in tasks || id in all { continue; }
      all := all + {id};
      events := events + [TaskMaterialized(id, FreshTask(slice[k], generation, None, []))];
    }
  }

  /** `materialize_eligible_initial_generation_events` */
  method OpenLoops(i: WorkflowInstance, def: WorkflowDef, loops: Loops) returns (events: seq<Event>)
    requires forall v :: v in loops.order ==> v in loops.body
    ensures events == InitialGenerationEvents(i, def, loops, loops.order, {})
  {
    events := [];
    var planned: set<AttemptId> := {};
    for k := 0 to |loops.order|
      invariant events + InitialGenerationEvents(i, def, loops, loops.order[k..], planned)
        == InitialGenerationEvents(i, def, loops, loops.order, {})
    {
      var v := loops.order[k];
      var slice := loops.body[v];
      assert loops.order[k..][1..] == loops.order[k + 1..];
      if SliceInterruptedByExit(i.tasks, slice) || v in i.verifierStates { continue; }
      var verifier := VerifierOf(def, v);
      if verifier.None? { continue; }
      var start := verifier.value.rerunFromTaskId.GetOr(v);
      if FindTask(def.tasks, start).None? { continue; }
      if !ReadyOutsideSlice(i.tasks, def, loops, start, slice) { continue; }
      var generation, all := MaterializeGeneration(i.tasks, slice, 1, planned);
      events := events + ([VerifierStateUpserted(v,
        VerifierState(v, start, 1, None, [], VerifierStateStatus.Running, None))] + generation);
      planned := all;
    }
  }

  /** The attempts of a pass: the runnable ones, found in any order and then sorted. */
  method TasksToRun(tasks: Tasks, def: WorkflowDef, loops: Loops) returns (todo: seq<AttemptId>)
    ensures todo == SortIds(RunnableIds(tasks, def, loops))
  {
    var found: set<AttemptId> := {};
    var remaining := tasks.Keys;
    while remaining != {}
      invariant remaining <= tasks.Keys
      invariant found == set id | id in tasks && id !in remaining && Runnable(tasks, def, loops, id)
      decreases remaining
    {
      var id :| id in remaining;
      remaining := remaining - {id};
      if tasks[id].status.Pending? && ResolveInputs(tasks, def, loops, tasks[id]).Some? {
        found := found + {id};
      }
    }
    assert found == RunnableIds(tasks, def, loops);
    return SortIds(found);
  }

  /** The bindings resolved so far, in front of what the rest resolves to. */
  function Prepend(values: seq<Json>, mapping: seq<TaskInputMapping>,
      rest: Option<ResolvedInputs>): Option<ResolvedInputs>
  {
    match rest
    case None => None
    case Some(r) => Some(ResolvedInputs(values + r.values, mapping + r.mapping))
  }

  lemma PrependHead(values: seq<Json>, mapping: seq<TaskInputMapping>, value: Json, m: TaskInputMapping,
      rest: ResolvedInputs)
    ensures Prepend(values, mapping, Some(ResolvedInputs([value] + rest.values, [m] + rest.mapping)))
      == Prepend(values + [value], mapping + [m], Some(rest))
  {
    assert values + ([value] + rest.values) == (values + [value]) + rest.values;
    assert mapping + ([m] + rest.mapping) == (mapping + [m]) + rest.mapping;
  }

  lemma PrependNothing(rest: Option<ResolvedInputs>)
    ensures Prepend([], [], rest) == rest
  {
    if rest.Some? {
      assert [] + rest.value.values == rest.value.values && [] + rest.value.mapping == rest.value.mapping;
    }
  }

  lemma PrependToNothing(values: seq<Json>, mapping: seq<TaskInputMapping>)
    ensures Prepend(values, mapping, Some(ResolvedInputs([], []))) == Some(ResolvedInputs(values, mapping))
  {
    assert values + [] == values && mapping + [] == mapping;
  }

  /** `resolve_inputs` over the inbound bindings, in definition order. */
  method ResolveAll(tasks: Tasks, loops: Loops, target: TaskId, inbound: seq<DataBinding>)
      returns (r: Option<ResolvedInputs>)
    ensures r == ResolveBindings(tasks, loops, target, inbound)
  {
    var values: seq<Json>, mapping: seq<TaskInputMapping> := [], [];
    ghost var all := ResolveBindings(tasks, loops, target, inbound);
    PrependNothing(all);
    assert inbound[0..] == inbound;
    for k := 0 to |inbound|
      invariant all == Prepend(values, mapping, ResolveBindings(tasks, loops, target, inbound[k..]))
    {
      assert inbound[k..][1..] == inbound[k + 1..];
      ghost var rest := ResolveBindings(tasks, loops, target, inbound[k + 1..]);
      var source := ResolveSource(tasks, loops, Some(target), inbound[k].source);
      if source.None? || source.value !in tasks || !tasks[source.value].status.Completed? { return None; }
      var task := tasks[source.value];
      var value, m := task.outputData.GetOr(JNull), TaskInputMapping(inbound[k].source, task.generationIndex);
      if rest.Some? { PrependHead(values, mapping, value, m, rest.value); }
      values, mapping := values + [value], mapping + [m];
    }
    assert inbound[|inbound|..] == [];
    PrependToNothing(values, mapping);
    return Some(ResolvedInputs(values, mapping));
  }

  /** The skips of an early exit. */
  method SkipPending(ids: seq<AttemptId>) returns (events: seq<Event>)
    ensures events == SkipEvents(ids)
  {
    events := [];
    for k := 0 to |ids|
      invariant events + SkipEvents(ids[k..]) == SkipEvents(ids)
    {
      assert ids[k..][1..] == ids[k + 1..];
      events := events + [TaskStatusChanged(ids[k], Skipped), TaskSatisfactionChanged(ids[k], Unsatisfied)];
    }
  }

  /** `slice_satisfaction_events` */
  method JudgeSlice(tasks: Tasks, slice: seq<TaskId>, generation: nat, satisfaction: Satisfaction)
      returns (events: seq<Event>)
    ensures events == SatisfactionEvents(tasks, slice, generation, satisfaction)
  {
    events := [];
    for k := 0 to |slice|
      invariant events + SatisfactionEvents(tasks, slice[k..], generation, satisfaction)
        == SatisfactionEvents(tasks, slice, generation, satisfaction)
    {
      assert slice[k..][1..] == slice[k + 1..];
      var id := AttemptId(slice[k], generation);
      if id in tasks { events := events + [TaskSatisfactionChanged(id, satisfaction)]; }
    }
  }

  /** `verifier_result_transition`, with its event list and early returns. */
  method VerifierResultTransition(i: WorkflowInstance, def: WorkflowDef, loops: Loops, id: AttemptId, output: Json,
      verdict: Verdict) returns (result: Result<Transition, TransitionError>)
    ensures result == VerifierTransition(i, def, loops, id, output, verdict)
  {
    if id !in i.tasks { return Result.Failure(AttemptNotFound); }
    var generation, v := i.tasks[id].generationIndex, i.tasks[id].taskDefId;
    var found := FindTask(def.tasks, v);
    if found.None? { return Result.Failure(DefinitionMissing); }
    var task := found.value;
    if task.verifier.None? { return Result.Failure(NotAVerifier); }
    if v !in i.verifierStates { return Result.Failure(StateMissing); }
    var slice := if v in loops.body then loops.body[v] else [v];
    if verdict.decision.Complete? {
      var judged := JudgeSlice(i.tasks, slice, generation, Satisfied);
      var events := [VerifierStateStatusChanged(v, VerifierStateStatus.Accepted, Some(generation), Some("complete")),
                     Metadata(id, VerifierAttemptStatus.Accepted, verdict, verdict.feedback, Some("complete"))];
      return Result.Success(Transition(events + judged, None));
    }
    var transition := OnContinue(i, task, slice, id, generation, output, verdict);
    return Result.Success(transition);
  }

  /** The Continue arm: invalid, interrupted, retried or exhausted. */
  method OnContinue(i: WorkflowInstance, task: TaskDef, slice: seq<TaskId>, id: AttemptId, generation: nat,
      output: Json, verdict: Verdict) returns (transition: Transition)
    requires task.verifier.Some? && task.id in i.verifierStates
    ensures transition == Continuing(i, task, slice, id, generation, output, verdict)
  {
    var feedback := verdict.feedback.GetOr("");
    if IsBlank(feedback) {
      var reason := Some("continue decision requires non-empty feedback");
      return Transition(
        [WorkflowStatusChanged(WorkflowStatus.Failed)] + FailTask(id)
          + [Metadata(id, Invalid, verdict, verdict.feedback, reason)],
        Some("Verifier continue decision requires non-empty feedback"));
    }
    var entry := FeedbackEntry(generation, feedback, verdict.output);
    var events := [VerifierFeedbackRecorded(task.id, entry)];
    var rejected := JudgeSlice(i.tasks, slice, generation, Unsatisfied);
    if SliceInterruptedByExit(i.tasks, slice) {
      events := events + [Metadata(id, Rejected, verdict, Some(feedback), Some("slice_interrupted_by_early_exit"))];
      return Transition(events + rejected, None);
    }
    if generation < task.verifier.value.maxIterations {
      var state := i.verifierStates[task.id];
      state := state.(feedbackHistory := state.feedbackHistory + [entry], latestGeneration := generation + 1,
                      status := VerifierStateStatus.Running, selectedGeneration := None, exitReason := None);
      var next, planned := MaterializeGeneration(i.tasks, slice, generation + 1, {});
      var retry := [VerifierStateUpserted(task.id, state), Metadata(id, Rejected, verdict, Some(feedback), None)];
      return Transition(events + (retry + rejected + next), None);
    }
    var exhausted := OnExhausted(i, task, slice, id, generation, output, verdict, feedback);
    return Transition(events + exhausted.events, exhausted.error);
  }

  method OnExhausted(i: WorkflowInstance, task: TaskDef, slice: seq<TaskId>, id: AttemptId, generation: nat,
      output: Json, verdict: Verdict, feedback: string) returns (transition: Transition)
    requires task.verifier.Some? && task.id in i.verifierStates
    ensures transition == Exhausting(i, task, slice, id, generation, output, verdict, feedback)
  {
    var selected, reason := i.verifierStates[task.id].selectedGeneration, Some("max_iterations_exhausted");
    if task.verifier.value.onExhaustedContinue {
      if output.JNull? && task.outputSchema.None? {
        var events := [VerifierStateStatusChanged(task.id, VerifierStateStatus.Failed, selected, reason),
                       WorkflowStatusChanged(WorkflowStatus.Failed)] + FailTask(id);
        events := events + [Metadata(id, VerifierAttemptStatus.ExhaustedFailed, verdict, Some(feedback),
          Some("no schema-valid latest generation output"))];
        return Transition(events, Some("Verifier exhausted with continue policy but no schema-valid output"));
      }
      var accepted := JudgeSlice(i.tasks, slice, generation, Satisfied);
      var events := [VerifierStateStatusChanged(task.id, VerifierStateStatus.ExhaustedAccepted, Some(generation),
        reason),
                     Metadata(id, VerifierAttemptStatus.ExhaustedAccepted, verdict, Some(feedback), reason)];
      return Transition(events + accepted, None);
    }
    var rejected := JudgeSlice(i.tasks, slice, generation, Unsatisfied);
    var events := [VerifierStateStatusChanged(task.id, VerifierStateStatus.ExhaustedFailed, selected, reason),
                   WorkflowStatusChanged(WorkflowStatus.Failed)] + FailTask(id);
    events := events + [Metadata(id, VerifierAttemptStatus.ExhaustedFailed, verdict, Some(feedback), reason)];
    return Transition(events + rejected, Some("Verifier exhausted iteration budget"));
  }

  /** The success branch of the result match: events are pushed as the checks go. */
  method OnSuccess(setup: Setup, i: WorkflowInstance, loops: Loops, task: TaskDef, id: AttemptId, r: ResolvedInputs,
      output: Json) returns (batch: ResultBatch)
    ensures batch == SuccessBatch(setup.valid, i, setup.def, loops, task, id, r, output)
  {
    var events := [TaskInputDataSet(id, r.values), TaskInputMappingSet(id, r.mapping)];
    if task.effectiveOutputSchema.Some? && !setup.valid(task.effectiveOutputSchema.value, output) {
      events := events + [TaskStatusChanged(id, TaskStatus.Failed), TaskSatisfactionChanged(id, Unsatisfied)];
      return Batch(events + [WorkflowStatusChanged(WorkflowStatus.Failed)], StopError);
    }
    events := events + [TaskStatusChanged(id, TaskStatus.Completed)];
    if !IsTaskInLoopSlice(loops, task.id) { events := events + [TaskSatisfactionChanged(id, Satisfied)]; }
    if task.effectiveOutputSchema.Some? { events := events + [TaskOutputRecorded(id, Some(output))]; }
    assert events == CompletedEvents(loops, task, id, r, output);
    var exit := ExitRequest(task, output);
    if exit.Failure? {
      events := events + [TaskStatusChanged(id, TaskStatus.Failed), TaskSatisfactionChanged(id, Unsatisfied)];
      return Batch(events + [WorkflowStatusChanged(WorkflowStatus.Failed)], StopError);
    }
    if exit.value.Some? {
      var skips := SkipPending(SortIds(PendingIds(i.tasks)));
      events := events + ([TaskEarlyExitSet(id, true)] + skips);
    }
    assert events == CompletedEvents(loops, task, id, r, output) + ExitEvents(i.tasks, id, exit.value);
    if task.verifier.None? { return Batch(events, Proceed); }
    match VerdictOf(output) {
      case Failure(error) =>
        events := events + [TaskStatusChanged(id, TaskStatus.Failed), TaskSatisfactionChanged(id, Unsatisfied)];
        events := events + [TaskVerifierMetadataSet(id,
          Some(VerifierMetadata(Invalid, None, None, Some(output), Some(error))))];
        return Batch(events + [WorkflowStatusChanged(WorkflowStatus.Failed)], StopError);
      case Success(verdict) =>
        var reduced := ReduceInPlace(Some(i), events);
        if reduced.Failure? { return NoCommit; }
        var transition := VerifierResultTransition(reduced.value, setup.def, loops, id, output, verdict);
        if transition.Failure? { return NoCommit; }
        return Batch(events + transition.value.events, if transition.value.error.Some? then StopError else Proceed);
    }
  }
}
