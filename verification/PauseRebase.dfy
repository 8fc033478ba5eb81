/**
 Committing a result on a paused snapshot instead of the snapshot it was computed on gives the same
 attempts and verifier states, and the pause survives unless the batch itself ends the workflow.
 */
module PauseRebase {
  import opened Prelude
  import opened JsonValues
  import opened AttemptIds
  import opened Model
  import opened Reducer
  import opened LoopSlices
  import opened Engine
  import opened EngineEffects
  import opened EngineInvariants
  import opened EngineSteps
  import opened EngineVerdicts

  /** Events whose effect on attempts and verifier states does not depend on the workflow status. */
  predicate StatusBlind(event: Event) {
    UpdatesTask(event) || event.TaskMaterialized? || event.WorkflowStatusChanged?
    || event.VerifierStateUpserted? || event.VerifierFeedbackRecorded? || event.VerifierStateStatusChanged?
  }

  ghost predicate AllBlind(events: seq<Event>) {
    forall k :: 0 <= k < |events| ==> StatusBlind(events[k])
  }

  /** The workflow status a batch leaves behind. */
  function FinalStatus(events: seq<Event>, status: WorkflowStatus): WorkflowStatus {
    if events == [] then status
    else FinalStatus(events[1..], if events[0].WorkflowStatusChanged? then events[0].workflowStatus else status)
  }

  /** Reduction commutes with a change of status made behind the batch's back. */
  lemma {:induction false} ReduceCommutes(i: WorkflowInstance, events: seq<Event>, status: WorkflowStatus, version: nat)
    requires AllBlind(events) && Reduce(i, events).Success?
    ensures Reduce(i.(status := status, version := version), events)
      == Result.Success(Reduce(i, events).value.(status := FinalStatus(events, status), version := version))
    ensures Reduce(i, events).value.status == FinalStatus(events, i.status)
    decreases |events|
  {
    if events != [] {
      var j := ApplyEvent(i, events[0]).value;
      var next := if events[0].WorkflowStatusChanged? then events[0].workflowStatus else status;
      assert ApplyEvent(i.(status := status, version := version), events[0])
        == Result.Success(j.(status := next, version := version));
      ReduceCommutes(j, events[1..], next, version);
    }
  }

  lemma BlindAppend(xs: seq<Event>, ys: seq<Event>)
    requires AllBlind(xs) && AllBlind(ys)
    ensures AllBlind(xs + ys)
  {
  }

  lemma {:induction false} SkipsBlind(ids: seq<AttemptId>)
    ensures AllBlind(SkipEvents(ids))
  {
    if ids != [] { SkipsBlind(ids[1..]); }
  }

  lemma {:induction false} SatisfactionBlind(tasks: Tasks, slice: seq<TaskId>, generation: nat, s: Satisfaction)
    ensures AllBlind(SatisfactionEvents(tasks, slice, generation, s))
  {
    if slice != [] { SatisfactionBlind(tasks, slice[1..], generation, s); }
  }

  lemma {:induction false} GenerationBlind(tasks: Tasks, slice: seq<TaskId>, generation: nat, planned: set<AttemptId>)
    ensures AllBlind(GenerationTasks(tasks, slice, generation, planned).0)
  {
    if slice != [] {
      var id := AttemptId(slice[0], generation);
      GenerationBlind(tasks, slice[1..], generation, if id in tasks || id in planned then planned else planned + {id});
    }
  }

  lemma RetryingBlind(j: WorkflowInstance, v: TaskId, slice: seq<TaskId>, id: AttemptId, generation: nat,
      entry: FeedbackEntry, verdict: Verdict)
    requires v in j.verifierStates
    ensures AllBlind(Retrying(j, v, slice, id, generation, entry, verdict))
  {
    SatisfactionBlind(j.tasks, slice, generation, Unsatisfied);
    GenerationBlind(j.tasks, slice, generation + 1, {});
  }

  lemma ExhaustingBlind(j: WorkflowInstance, task: TaskDef, slice: seq<TaskId>, id: AttemptId, generation: nat,
      output: Json, verdict: Verdict, feedback: string)
    requires task.verifier.Some? && task.id in j.verifierStates
    ensures AllBlind(Exhausting(j, task, slice, id, generation, output, verdict, feedback).events)
  {
    hide SatisfactionEvents;
    SatisfactionBlind(j.tasks, slice, generation, Satisfied);
    SatisfactionBlind(j.tasks, slice, generation, Unsatisfied);
  }

  lemma ContinuingBlind(j: WorkflowInstance, task: TaskDef, slice: seq<TaskId>, id: AttemptId, generation: nat,
      output: Json, verdict: Verdict)
    requires task.verifier.Some? && task.id in j.verifierStates
    ensures AllBlind(Continuing(j, task, slice, id, generation, output, verdict).events)
  {
    hide Retrying, Exhausting, SatisfactionEvents, IsBlank, SliceInterruptedByExit, AllBlind;
    var feedback := verdict.feedback.GetOr("");
    var recorded := [VerifierFeedbackRecorded(task.id, FeedbackEntry(generation, feedback, verdict.output))];
    SatisfactionBlind(j.tasks, slice, generation, Unsatisfied);
    RetryingBlind(j, task.id, slice, id, generation, recorded[0].feedback, verdict);
    ExhaustingBlind(j, task, slice, id, generation, output, verdict, feedback);
    NotedBlind(recorded[0], id, verdict, feedback);
    BlindAppend(recorded + [Metadata(id, Rejected, verdict, Some(feedback), Some("slice_interrupted_by_early_exit"))],
      SatisfactionEvents(j.tasks, slice, generation, Unsatisfied));
    BlindAppend(recorded, Retrying(j, task.id, slice, id, generation, recorded[0].feedback, verdict));
    BlindAppend(recorded, Exhausting(j, task, slice, id, generation, output, verdict, feedback).events);
  }

  lemma NotedBlind(recorded: Event, id: AttemptId, verdict: Verdict, feedback: string)
    requires recorded.VerifierFeedbackRecorded?
    ensures AllBlind([recorded])
    ensures AllBlind([recorded]
      + [Metadata(id, Rejected, verdict, Some(feedback), Some("slice_interrupted_by_early_exit"))])
    ensures AllBlind([WorkflowStatusChanged(WorkflowStatus.Failed)] + FailTask(id)
      + [Metadata(id, Invalid, verdict, verdict.feedback, Some("continue decision requires non-empty feedback"))])
  {
  }

  lemma TransitionBlind(j: WorkflowInstance, def: WorkflowDef, loops: Loops, id: AttemptId, output: Json,
      verdict: Verdict)
    requires VerifierTransition(j, def, loops, id, output, verdict).Success?
    ensures AllBlind(VerifierTransition(j, def, loops, id, output, verdict).value.events)
  {
    var generation, v := j.tasks[id].generationIndex, j.tasks[id].taskDefId;
    var slice := if v in loops.body then loops.body[v] else [v];
    match verdict.decision {
      case Complete => SatisfactionBlind(j.tasks, slice, generation, Satisfied);
      case Continue => ContinuingBlind(j, FindTask(def.tasks, v).value, slice, id, generation, output, verdict);
    }
  }

  lemma SuccessBlind(tasks: Tasks, loops: Loops, task: TaskDef, id: AttemptId, r: ResolvedInputs, output: Json,
      reason: Option<string>)
    ensures AllBlind(CompletedEvents(loops, task, id, r, output))
    ensures AllBlind(CompletedEvents(loops, task, id, r, output) + ExitEvents(tasks, id, reason))
  {
    SkipsBlind(SortIds(PendingIds(tasks)));
  }

  lemma VerdictBatchBlind(i: WorkflowInstance, def: WorkflowDef, loops: Loops, id: AttemptId, output: Json,
      events: seq<Event>, verdict: Verdict)
    requires AllBlind(events) && VerdictBatch(i, def, loops, id, output, events, verdict).Batch?
    ensures AllBlind(VerdictBatch(i, def, loops, id, output, events, verdict).events)
  {
    TransitionBlind(Reduce(i, events).value, def, loops, id, output, verdict);
  }

  lemma ResultBlind(valid: (Json, Json) -> bool, i: WorkflowInstance, def: WorkflowDef, loops: Loops, task: TaskDef,
    id: AttemptId, r: ResolvedInputs, answer: DispatchAnswer)
    requires ResultEvents(valid, i, def, loops, task, id, r, answer).Batch?
    ensures AllBlind(ResultEvents(valid, i, def, loops, task, id, r, answer).events)
  {
    hide SchemaAccepts, CompletedEvents, ExitEvents, VerdictBatch, VerdictOf, ExitReason;
    if answer.Success? && SchemaAccepts(valid, task, answer.output) {
      SuccessBlind(i.tasks, loops, task, id, r, answer.output, None);
      if ExitRequest(task, answer.output).Success? {
        var reason := ExitRequest(task, answer.output).value;
        SuccessBlind(i.tasks, loops, task, id, r, answer.output, reason);
        if task.verifier.Some? && VerdictOf(answer.output).Success? {
          VerdictBatchBlind(i, def, loops, id, answer.output,
                            CompletedEvents(loops, task, id, r, answer.output)
                              + ExitEvents(i.tasks, id, reason), VerdictOf(answer.output).value);
        }
      }
    }
  }

  /** The batch for a result depends on the attempts and verifier states alone. */
  lemma BatchIgnoresStatus(valid: (Json, Json) -> bool, def: WorkflowDef, i: WorkflowInstance, k: WorkflowInstance,
      loops: Loops, task: TaskDef, id: AttemptId, r: ResolvedInputs, answer: DispatchAnswer)
    requires k == i.(status := k.status, version := k.version)
    requires id in i.tasks && i.tasks[id].status.Running?
    ensures ResultEvents(valid, k, def, loops, task, id, r, answer)
      == ResultEvents(valid, i, def, loops, task, id, r, answer)
  {
    if answer.Success? && SchemaAccepts(valid, task, answer.output) && ExitRequest(task, answer.output).Success?
      && task.verifier.Some? && VerdictOf(answer.output).Success? {
      var reason := ExitRequest(task, answer.output).value;
      VerdictBatchIgnoresStatus(def, i, k, loops, task, id, r, answer.output, reason, VerdictOf(answer.output).value);
    }
  }

  lemma VerdictBatchIgnoresStatus(def: WorkflowDef, i: WorkflowInstance, k: WorkflowInstance, loops: Loops,
      task: TaskDef, id: AttemptId, r: ResolvedInputs, output: Json, reason: Option<string>, verdict: Verdict)
    requires k == i.(status := k.status, version := k.version)
    requires id in i.tasks && i.tasks[id].status.Running?
    ensures var events := CompletedEvents(loops, task, id, r, output) + ExitEvents(i.tasks, id, reason);
      VerdictBatch(k, def, loops, id, output, events, verdict)
        == VerdictBatch(i, def, loops, id, output, events, verdict)
  {
    SuccessEventsReduce(i, loops, task, id, r, output, reason);
    SuccessEventsReduce(k, loops, task, id, r, output, reason);
    var a := AfterSuccess(i, id, Done(loops, task, i.tasks[id], r, output), reason.Some?);
    var b := AfterSuccess(k, id, Done(loops, task, i.tasks[id], r, output), reason.Some?);
    TransitionIgnoresStatus(def, loops, a, b, id, output, verdict);
  }

  lemma TransitionIgnoresStatus(def: WorkflowDef, loops: Loops, a: WorkflowInstance, b: WorkflowInstance,
      id: AttemptId, output: Json, verdict: Verdict)
    requires b == a.(status := b.status, version := b.version)
    ensures VerifierTransition(b, def, loops, id, output, verdict)
      == VerifierTransition(a, def, loops, id, output, verdict)
  {
  }

  /** The batch leaves the status of the workflow alone. */
  ghost predicate NoStatus(events: seq<Event>) {
    forall k :: 0 <= k < |events| ==> !events[k].WorkflowStatusChanged?
  }

  /** A batch without a status event keeps any status; one with a status event leaves the same, whatever it was. */
  lemma {:induction false} FinalStatusOf(events: seq<Event>, a: WorkflowStatus, b: WorkflowStatus)
    ensures NoStatus(events) ==> FinalStatus(events, a) == a
    ensures !NoStatus(events) ==> FinalStatus(events, a) == FinalStatus(events, b)
    decreases |events|
  {
    if events != [] {
      var rest := events[1..];
      assert NoStatus(events) <==> !events[0].WorkflowStatusChanged? && NoStatus(rest) by {
        assert forall k :: 0 <= k < |rest| ==> rest[k] == events[k + 1];
        if !events[0].WorkflowStatusChanged? && NoStatus(rest) {
          forall k | 0 <= k < |events|
                 ensures !events[k].WorkflowStatusChanged? { if k > 0 { assert events[k] == rest[k - 1]; } }
        }
      }
      if events[0].WorkflowStatusChanged? {
        FinalStatusOf(rest, events[0].workflowStatus, events[0].workflowStatus);
      } else {
        FinalStatusOf(rest, a, b);
      }
    }
  }

  /**
   The pass goes on after this answer: a success that its schema accepts, with a valid exit request, and for a
   verifier with a valid verdict that does not give the loop up. Told by the answer, the definition and the
   snapshot the attempt was dispatched on.
   */
  predicate PassGoesOn(valid: (Json, Json) -> bool, loops: Loops, i: WorkflowInstance, id: AttemptId, task: TaskDef,
      answer: DispatchAnswer)
  {
    match answer
    case Success(output) =>
      && SchemaAccepts(valid, task, output)
      && ExitRequest(task, output).Success?
      && (task.verifier.Some? ==>
            && id.taskDefId in loops.body
            && VerdictOf(output).Success?
            && var interrupted := SliceInterruptedByExit(i.tasks, loops.body[id.taskDefId])
              || ExitRequest(task, output).value.Some?;
               !EndingOf(task.verifier.value, id.generation, interrupted, output.JNull? && task.outputSchema.None?,
                         VerdictOf(output).value.decision).GiveUp?)
    case _ => false
  }

  lemma VerdictGoesOn(valid: (Json, Json) -> bool, def: WorkflowDef, loops: Loops, i: WorkflowInstance, id: AttemptId,
      task: TaskDef, r: ResolvedInputs, output: Json, reason: Option<string>, verdict: Verdict)
    requires Judging(valid, def, loops, i, id, task, output, reason, verdict)
    ensures ResultEvents(valid, i, def, loops, task, id, r, DispatchAnswer.Success(output)).Batch?
    ensures ResultEvents(valid, i, def, loops, task, id, r, DispatchAnswer.Success(output)).outcome.Proceed?
      <==> PassGoesOn(valid, loops, i, id, task, DispatchAnswer.Success(output))
  {
    hide ResultStep, WithEffect, VerdictEffect, Reduce, VerifierTransition;
    VerdictEnds(valid, def, loops, i, id, task, r, output, reason, verdict);
    ResultAccepted(valid, def, loops, i, id, task, r, DispatchAnswer.Success(output));
    OnlyThreeOutcomes(i, def, loops, id, output, CompletedEvents(loops, task, id, r, output)
      + ExitEvents(i.tasks, id, reason), verdict);
  }

  lemma OnlyThreeOutcomes(i: WorkflowInstance, def: WorkflowDef, loops: Loops, id: AttemptId, output: Json,
      events: seq<Event>, verdict: Verdict)
    ensures var batch := VerdictBatch(i, def, loops, id, output, events, verdict);
      batch.Batch? ==> !batch.outcome.StopOk?
  {
  }

  lemma OthersGoOn(valid: (Json, Json) -> bool, def: WorkflowDef, loops: Loops, i: WorkflowInstance, id: AttemptId,
      task: TaskDef, r: ResolvedInputs, answer: DispatchAnswer)
    requires !GivesVerdict(valid, task, answer)
    ensures ResultEvents(valid, i, def, loops, task, id, r, answer).Batch?
    ensures ResultEvents(valid, i, def, loops, task, id, r, answer).outcome.Proceed?
      <==> PassGoesOn(valid, loops, i, id, task, answer)
  {
    hide VerdictBatch, CompletedEvents, ExitEvents, SliceInterruptedByExit, EndingOf, VerdictOf;
  }

  lemma GoesOnExactlyWhen(valid: (Json, Json) -> bool, def: WorkflowDef, loops: Loops, i: WorkflowInstance,
      id: AttemptId, task: TaskDef, r: ResolvedInputs, answer: DispatchAnswer)
    requires Dispatched(def, loops, i, id, task)
    ensures ResultEvents(valid, i, def, loops, task, id, r, answer).Batch?
    ensures ResultEvents(valid, i, def, loops, task, id, r, answer).outcome.Proceed?
      <==> PassGoesOn(valid, loops, i, id, task, answer)
  {
    hide Dispatched, PassGoesOn, ResultEvents, SchemaAccepts, ExitRequest, VerdictOf;
    if GivesVerdict(valid, task, answer) {
      VerdictGoesOn(valid, def, loops, i, id, task, r, answer.output, ExitRequest(task, answer.output).value,
        VerdictOf(answer.output).value);
    } else {
      OthersGoOn(valid, def, loops, i, id, task, r, answer);
    }
  }

  /**
   A result batch committed on a snapshot that has only been paused meanwhile: same attempts, verifier states and
   pin as on the stale base. The workflow stays Paused exactly when the batch carries no workflow status, which is
   exactly when the pass goes on after the answer; a batch that fails the workflow or asks for input overrides
   the pause.
   */
  lemma RebasePreservesPause(valid: (Json, Json) -> bool, def: WorkflowDef, loops: Loops, base: WorkflowInstance,
      paused: WorkflowInstance, task: TaskDef, id: AttemptId, r: ResolvedInputs, answer: DispatchAnswer)
    requires Dispatched(def, loops, base, id, task) && base.status.Running?
    requires paused == base.(status := Paused, version := paused.version)
    ensures var batch := ResultEvents(valid, base, def, loops, task, id, r, answer);
      && batch.Batch? && Reduce(base, batch.events).Success? && Reduce(paused, batch.events).Success?
      && (NoStatus(batch.events) <==> PassGoesOn(valid, loops, base, id, task, answer))
      && (batch.outcome.Proceed? <==> PassGoesOn(valid, loops, base, id, task, answer))
      && var j, k := Reduce(base, batch.events).value, Reduce(paused, batch.events).value;
      && k.tasks == j.tasks && k.verifierStates == j.verifierStates && k.pinnedWorkerHost == j.pinnedWorkerHost
      && (if PassGoesOn(valid, loops, base, id, task, answer) then k.status.Paused?
        else k.status == j.status && !k.status.Paused?)
  {
    hide ResultEvents, PassGoesOn, AllBlind, Reduce, NoStatus, FinalStatus;
    var batch := ResultEvents(valid, base, def, loops, task, id, r, answer);
    ResultAccepted(valid, def, loops, base, id, task, r, answer);
    ResultBlind(valid, base, def, loops, task, id, r, answer);
    GoesOnExactlyWhen(valid, def, loops, base, id, task, r, answer);
    BatchIgnoresStatus(valid, def, base, paused, loops, task, id, r, answer);
    ResultAccepted(valid, def, loops, paused, id, task, r, answer);
    ReduceCommutes(base, batch.events, Paused, paused.version);
    FinalStatusOf(batch.events, base.status, Paused);
    FinalStatusOf(batch.events, Paused, base.status);
  }
}
