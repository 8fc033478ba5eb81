/**
 What the answer of a dispatch makes of the snapshot, said of the answer's own fields: which outputs complete an
 attempt, which end the workflow early, which accept a loop's generation and which send it round again.
 */
module ResultFields {
  import opened Prelude
  import opened JsonValues
  import opened AttemptIds
  import opened Model
  import opened Reducer
  import opened LoopSlices
  import opened Engine
  import opened EngineEffects
  import opened EngineInvariants
  import opened EngineSteps
  import opened EngineVerdicts
  import opened FieldReadings
  import opened PauseRebase

  // ---------------------------------------------------------------------------
  // Reading an output

  /** The characters of the Unicode property White_Space, one by one. */
  const WhiteSpace: seq<char> :=
    ['\t', '\n', '\U{000B}', '\U{000C}', '\r', ' ', '\U{0085}', '\U{00A0}', '\U{1680}', '\U{2000}', '\U{2001}',
     '\U{2002}', '\U{2003}', '\U{2004}', '\U{2005}', '\U{2006}', '\U{2007}', '\U{2008}', '\U{2009}', '\U{200A}',
     '\U{2028}', '\U{2029}', '\U{202F}', '\U{205F}', '\U{3000}']

  predicate OnlySpace(s: string) {
    forall k :: 0 <= k < |s| ==> s[k] in WhiteSpace
  }

  lemma BlankIsOnlySpace(s: string)
    ensures IsBlank(s) <==> OnlySpace(s)
  {
    forall k | 0 <= k < |s| ensures IsWhitespace(s[k]) <==> s[k] in WhiteSpace { SpaceByCode(s[k]); }
  }

  lemma SpaceByCode(c: char)
    ensures IsWhitespace(c) <==> c in WhiteSpace
  {
  }

  /** The output is an object with this text under this key. */
  predicate Says(output: Json, key: string, text: string) {
    output.JObject? && key in output.fields && output.fields[key] == JString(text)
  }

  /** The output fits the task's effective schema, if it has one. */
  predicate Fits(valid: (Json, Json) -> bool, task: TaskDef, output: Json) {
    match task.effectiveOutputSchema
    case Some(schema) => valid(schema, output)
    case None => true
  }

  /** The task may leave early, and its output says why. */
  ghost predicate Leaves(task: TaskDef, output: Json) {
    task.allowEarlyExit && exists why :: Says(output, "_workflow_exit_reason", why) && !OnlySpace(why)
  }

  /**
   The task may leave early, and its output says so badly: with a blank text or something that is neither text nor null.
   */
  ghost predicate LeavesBadly(task: TaskDef, output: Json) {
    && task.allowEarlyExit && output.JObject? && "_workflow_exit_reason" in output.fields
    && output.fields["_workflow_exit_reason"] != JNull && !Leaves(task, output)
  }

  lemma ExitByFields(task: TaskDef, output: Json)
    ensures ExitRequest(task, output).Failure? <==> LeavesBadly(task, output)
    ensures ExitRequest(task, output).Success? ==> (ExitRequest(task, output).value.Some? <==> Leaves(task, output))
  {
    match Field(output, ExitField) {
      case Some(JString(why)) =>
        BlankIsOnlySpace(why);
        assert Says(output, "_workflow_exit_reason", why);
      case _ =>
    }
  }

  /** The verifier is content. */
  predicate SaysComplete(output: Json) {
    Says(output, "decision", "complete")
  }

  /** The verifier asks for another generation, with this feedback. */
  predicate SaysContinue(output: Json, feedback: string) {
    Says(output, "decision", "continue") && Says(output, "feedback", feedback) && !OnlySpace(feedback)
  }

  lemma VerdictByFields(output: Json)
    ensures VerdictOf(output).Success? <==> SaysComplete(output) || exists f :: SaysContinue(output, f)
    ensures VerdictOf(output).Success? ==>
      var verdict := VerdictOf(output).value;
      && verdict.output == output
      && (verdict.decision.Complete? <==> SaysComplete(output))
      && (verdict.decision.Continue? ==> verdict.feedback.Some? && SaysContinue(output, verdict.feedback.value))
  {
    match Field(output, "feedback") {
      case Some(JString(f)) => BlankIsOnlySpace(f);
      case _ =>
    }
    if f :| SaysContinue(output, f) { BlankIsOnlySpace(f); }
    if VerdictOf(output).Success? && VerdictOf(output).value.decision.Continue? {
      assert SaysContinue(output, VerdictOf(output).value.feedback.value);
    }
  }

  // ---------------------------------------------------------------------------
  // Answers that are no success

  /** The attempt with the inputs it was dispatched with. */
  function Handed(task: TaskInstance, r: ResolvedInputs): TaskInstance {
    task.(inputData := r.values, inputMapping := r.mapping)
  }

  /** The snapshot with one attempt and the workflow status replaced, and nothing else. */
  function WithAttempt(i: WorkflowInstance, id: AttemptId, task: TaskInstance,
      status: WorkflowStatus): WorkflowInstance {
    i.(tasks := i.tasks[id := task], status := status)
  }

  /**
   A request for input leaves the attempt waiting with the text of the request; a failure fails attempt and workflow
   and judges the attempt; an error of the dispatch fails both without a judgement.
   */
  lemma NoSuccess(valid: (Json, Json) -> bool, def: WorkflowDef, loops: Loops, i: WorkflowInstance, id: AttemptId,
      task: TaskDef, r: ResolvedInputs, answer: DispatchAnswer)
    requires id in i.tasks && !answer.Success?
    ensures var batch := ResultEvents(valid, i, def, loops, task, id, r, answer);
      var t := Handed(i.tasks[id], r);
      && batch.Batch?
      && batch.outcome == (if answer.InputNeeded? then StopOk else StopError)
      && Reduce(i, batch.events) == Result.Success(
           match answer
           case InputNeeded(request) =>
             WithAttempt(i, id, t.(status := TaskStatus.InputNeeded(request)), WorkflowStatus.InputNeeded)
           case DispatchError => WithAttempt(i, id, t.(status := TaskStatus.Failed), WorkflowStatus.Failed)
           case _ =>
             WithAttempt(i, id, t.(status := TaskStatus.Failed, satisfaction := Unsatisfied), WorkflowStatus.Failed))
  {
    match answer {
      case InputNeeded(request) => InputNeededReduced(i, id, r, request);
      case Failure(_) => FailureReduced(i, id, r);
      case DispatchError => DispatchErrorReduced(i, id, r);
    }
  }

  // ---------------------------------------------------------------------------
  // Successes

  /** A success the schema refuses, or that leaves badly, fails attempt and workflow and touches no other attempt. */
  lemma RefusedSuccess(valid: (Json, Json) -> bool, def: WorkflowDef, loops: Loops, i: WorkflowInstance, id: AttemptId,
      task: TaskDef, r: ResolvedInputs, output: Json)
    requires id in i.tasks && (!Fits(valid, task, output) || LeavesBadly(task, output))
    ensures var batch := ResultEvents(valid, i, def, loops, task, id, r, DispatchAnswer.Success(output));
      && batch.Batch? && batch.outcome.StopError? && Reduce(i, batch.events).Success?
      && var j := Reduce(i, batch.events).value;
      && id in j.tasks && j == WithAttempt(i, id, j.tasks[id], WorkflowStatus.Failed)
      && j.tasks[id].status.Failed? && j.tasks[id].satisfaction.Unsatisfied?
  {
    ExitByFields(task, output);
    hide ExitRequest, LeavesBadly;
    if !Fits(valid, task, output) {
      FailureReduced(i, id, r);
    } else {
      InvalidExitReduced(loops, i, id, r, task, output);
    }
  }

  /** The attempts after a success: what became of the attempt itself, and of all others. */
  ghost predicate Completes(loops: Loops, before: Tasks, id: AttemptId, task: TaskDef, r: ResolvedInputs, output: Json,
      after: Tasks)
    requires id in before
  {
    && after.Keys == before.Keys
    && after[id] == before[id].(
         inputData := r.values, inputMapping := r.mapping, status := TaskStatus.Completed,
         satisfaction := if exists v :: v in loops.body && task.id in loops.body[v] then before[id].satisfaction
                         else Satisfied,
         outputData := if task.effectiveOutputSchema.Some? then Some(output) else before[id].outputData,
         earlyExit := Leaves(task, output) || before[id].earlyExit)
    && forall x :: x in before && x != id ==>
         after[x] == if Leaves(task, output) && before[x].status.Pending?
                     then before[x].(status := Skipped, satisfaction := Unsatisfied) else before[x]
  }

  lemma SuccessByFields(loops: Loops, i: WorkflowInstance, id: AttemptId, task: TaskDef, r: ResolvedInputs,
      output: Json)
    requires id in i.tasks && i.tasks[id].status.Running? && !LeavesBadly(task, output)
    ensures ExitRequest(task, output).Success?
    ensures var j := AfterSuccess(i, id, Done(loops, task, i.tasks[id], r, output),
                                  ExitRequest(task, output).value.Some?);
      j == i.(tasks := j.tasks) && Completes(loops, i.tasks, id, task, r, output, j.tasks)
  {
    ExitByFields(task, output);
    hide ExitRequest, LeavesBadly, Leaves;
  }

  /**
   An accepted success of a task that is no verifier: the attempt is completed, with its inputs and, if it has a
   schema, its output; it is satisfied if it lies in no slice; if it leaves early, everything pending is skipped.
   The pass goes on.
   */
  lemma PlainSuccess(valid: (Json, Json) -> bool, def: WorkflowDef, loops: Loops, i: WorkflowInstance, id: AttemptId,
      task: TaskDef, r: ResolvedInputs, output: Json)
    requires id in i.tasks && i.tasks[id].status.Running? && task.verifier.None?
    requires Fits(valid, task, output) && !LeavesBadly(task, output)
    ensures var batch := ResultEvents(valid, i, def, loops, task, id, r, DispatchAnswer.Success(output));
      && batch.Batch? && batch.outcome.Proceed? && Reduce(i, batch.events).Success?
      && var j := Reduce(i, batch.events).value;
      && j == i.(tasks := j.tasks) && Completes(loops, i.tasks, id, task, r, output, j.tasks)
  {
    SuccessByFields(loops, i, id, task, r, output);
    hide ExitRequest, LeavesBadly, Completes, AfterSuccess;
    SuccessEventsReduce(i, loops, task, id, r, output, ExitRequest(task, output).value);
  }

  // ---------------------------------------------------------------------------
  // Verdicts

  /** The loop of the attempt's verifier accepts the attempt's generation. */
  ghost predicate Settles(i: WorkflowInstance, slice: seq<TaskId>, id: AttemptId, status: VerifierStateStatus,
      j: WorkflowInstance)
  {
    var v := id.taskDefId;
    && v in j.verifierStates && j.verifierStates[v].status == status
    && j.verifierStates[v].selectedGeneration == Some(id.generation)
    && j.tasks.Keys == i.tasks.Keys && j.status == i.status && id in j.tasks && j.tasks[id].status.Completed?
    && forall x :: x in j.tasks && x.taskDefId in slice && x.generation == id.generation
         ==> j.tasks[x].satisfaction.Satisfied?
  }

  /** The loop goes on: its next generation exists for the whole slice, and this one is not accepted. */
  ghost predicate Iterates(i: WorkflowInstance, slice: seq<TaskId>, id: AttemptId, j: WorkflowInstance) {
    var v, g := id.taskDefId, id.generation;
    && v in j.verifierStates && j.verifierStates[v].status.Running? && j.verifierStates[v].latestGeneration == g + 1
    && j.status == i.status && id in j.tasks && j.tasks[id].status.Completed?
    && (forall t :: t in slice ==> AttemptId(t, g + 1) in j.tasks)
    && forall x :: x in j.tasks && x.taskDefId in slice && x.generation == g ==> !j.tasks[x].satisfaction.Satisfied?
  }

  /** The loop neither accepts nor goes on: the verdict is recorded, and that is all. */
  ghost predicate StandsStill(i: WorkflowInstance, id: AttemptId, j: WorkflowInstance) {
    var v := id.taskDefId;
    && v in i.verifierStates && v in j.verifierStates
    && j.verifierStates[v] == i.verifierStates[v].(feedbackHistory := j.verifierStates[v].feedbackHistory)
    && j.tasks.Keys == i.tasks.Keys && j.status == i.status && id in j.tasks && j.tasks[id].status.Completed?
  }

  /** The loop is given up, and with it the workflow. */
  ghost predicate GivenUp(i: WorkflowInstance, id: AttemptId, j: WorkflowInstance) {
    var v := id.taskDefId;
    && v in j.verifierStates && j.verifierStates[v].status.ExhaustedFailed?
    && j.tasks.Keys == i.tasks.Keys && j.status.Failed? && id in j.tasks && j.tasks[id].status.Failed?
  }

  /** What an output with a well-formed verdict says, and nothing else: the committed snapshot and the feedback. */
  lemma VerdictCommitted(valid: (Json, Json) -> bool, def: WorkflowDef, loops: Loops, i: WorkflowInstance,
      id: AttemptId, task: TaskDef, r: ResolvedInputs, output: Json)
    requires Dispatched(def, loops, i, id, task) && task.verifier.Some?
    requires Fits(valid, task, output) && !LeavesBadly(task, output)
    requires SaysComplete(output) || exists f :: SaysContinue(output, f)
    ensures id.taskDefId in loops.body && id.taskDefId in i.verifierStates
    ensures ExitRequest(task, output).Success? && VerdictOf(output).Success?
    ensures var reason, verdict := ExitRequest(task, output).value, VerdictOf(output).value;
      Judging(valid, def, loops, i, id, task, output, reason, verdict)
  {
    ExitByFields(task, output);
    VerdictByFields(output);
    DispatchedVerifierHasState(def, loops, i, id, task);
  }

  /** The verifier state after a verdict, and the status it ends in. */
  lemma StateAfterVerdict(valid: (Json, Json) -> bool, def: WorkflowDef, loops: Loops, i: WorkflowInstance,
      id: AttemptId, task: TaskDef, r: ResolvedInputs, output: Json, reason: Option<string>, verdict: Verdict)
    requires Judging(valid, def, loops, i, id, task, output, reason, verdict) && output.JObject?
    requires verdict.decision.Continue? ==> !IsBlank(verdict.feedback.GetOr(""))
    ensures var v := id.taskDefId;
      var batch := ResultEvents(valid, i, def, loops, task, id, r, DispatchAnswer.Success(output));
      && v in loops.body && v in i.verifierStates && batch.Batch? && Reduce(i, batch.events).Success?
      && var j := Reduce(i, batch.events).value;
      && v in j.verifierStates
      && var interrupted := SliceInterruptedByExit(i.tasks, loops.body[v]) || reason.Some?;
      && (verdict.decision.Complete? ==> j.verifierStates[v].status.Accepted?)
      && (verdict.decision.Continue? ==>
            if interrupted then
              j.verifierStates[v] == i.verifierStates[v].(feedbackHistory := j.verifierStates[v].feedbackHistory)
            else if id.generation < task.verifier.value.maxIterations then j.verifierStates[v].status.Running?
            else if task.verifier.value.onExhaustedContinue then j.verifierStates[v].status.ExhaustedAccepted?
            else j.verifierStates[v].status.ExhaustedFailed?)
  {
    hide WithEffect, Reduce, ResultEvents, SliceInterruptedByExit, IsBlank, SlicesOfVerifiers,
      SlicesDefined, SlicesDisjoint, KeysMatch, Dormant, VerifierChain, SettledIsFinal, StatesBounded, SchemaAccepts,
      ExitRequest, VerdictOf, AfterSuccess;
    KeyMatches(def, i.tasks, id);
    VerdictClosedForm(valid, def, loops, i, id, task, r, output, reason, verdict);
    var slice := loops.body[id.taskDefId];
    var j := EngineVerdicts.Completed(i, loops, task, id, r, output, reason);
    var done := Done(loops, task, i.tasks[id], r, output);
    assert id.taskDefId in slice;
    CompletedShape(i, loops, task, id, r, output, reason);
    InterruptedAfter(def, i, id, slice, done, reason.Some?);
    EffectStates(j, slice, id, VerdictEffect(j, task, slice, id, output, verdict));
  }

  /**
   The verdict of a verifier, told by its output. "decision": "complete" accepts this generation. "decision":
   "continue" with feedback that is not blank records the feedback once and then: stands still if its slice left
   early, goes on while the budget lasts, and after that accepts the last generation or gives up, as its policy says.
   */
  lemma VerifierAnswers(valid: (Json, Json) -> bool, def: WorkflowDef, loops: Loops, i: WorkflowInstance, id: AttemptId,
      task: TaskDef, r: ResolvedInputs, output: Json)
    requires Dispatched(def, loops, i, id, task) && task.verifier.Some?
    requires Fits(valid, task, output) && !LeavesBadly(task, output)
    requires SaysComplete(output) || exists f :: SaysContinue(output, f)
    ensures var v := id.taskDefId;
      var batch := ResultEvents(valid, i, def, loops, task, id, r, DispatchAnswer.Success(output));
      && v in loops.body && v in i.verifierStates && batch.Batch? && Reduce(i, batch.events).Success?
      && var j, slice := Reduce(i, batch.events).value, loops.body[v];
      var left := LeftEarly(i.tasks, slice) || Leaves(task, output);
      && v in j.verifierStates
      && (SaysComplete(output) ==>
            && Settles(i, slice, id, VerifierStateStatus.Accepted, j)
            && j.verifierStates[v].feedbackHistory == i.verifierStates[v].feedbackHistory)
      && (forall f :: SaysContinue(output, f) ==>
            && j.verifierStates[v].feedbackHistory
                 == i.verifierStates[v].feedbackHistory + [FeedbackEntry(id.generation, f, output)]
            && if left then StandsStill(i, id, j)
               else if id.generation < task.verifier.value.maxIterations then Iterates(i, slice, id, j)
               else if task.verifier.value.onExhaustedContinue then
                 Settles(i, slice, id, VerifierStateStatus.ExhaustedAccepted, j)
               else GivenUp(i, id, j))
  {
    hide Dispatched, Judging, Leaves, LeavesBadly, OnlySpace, ExitRequest, VerdictOf, SliceInterruptedByExit, LeftEarly,
      Reduce, ResultEvents, SchemaAccepts, Fits;
    VerdictCommitted(valid, def, loops, i, id, task, r, output);
    ExitByFields(task, output);
    VerdictByFields(output);
    var reason, verdict := ExitRequest(task, output).value, VerdictOf(output).value;
    DispatchedKeys(def, loops, i, id, task);
    InterruptedByFields(def, i.tasks, loops.body[id.taskDefId]);
    FeedbackNotBlank(output, verdict);
    VerdictEnds(valid, def, loops, i, id, task, r, output, reason, verdict);
    FeedbackRecordedOnce(valid, def, loops, i, id, task, r, output, reason, verdict);
    StateAfterVerdict(valid, def, loops, i, id, task, r, output, reason, verdict);
    assert forall f :: SaysContinue(output, f) ==> f == verdict.feedback.value;
  }

  lemma DispatchedKeys(def: WorkflowDef, loops: Loops, i: WorkflowInstance, id: AttemptId, task: TaskDef)
    requires Dispatched(def, loops, i, id, task)
    ensures KeysMatch(def, i.tasks) && id in i.tasks && i.tasks[id].status.Running? && task.id == id.taskDefId
  {
  }

  lemma FeedbackNotBlank(output: Json, verdict: Verdict)
    requires verdict.decision.Continue? ==> verdict.feedback.Some? && SaysContinue(output, verdict.feedback.value)
    ensures verdict.decision.Continue? ==> !IsBlank(verdict.feedback.GetOr(""))
  {
    if verdict.decision.Continue? { BlankIsOnlySpace(verdict.feedback.value); }
  }

  /** Every other output of a verifier fails attempt and workflow and leaves the loops as they are. */
  lemma OtherwiseVerifierFails(valid: (Json, Json) -> bool, def: WorkflowDef, loops: Loops, i: WorkflowInstance,
      id: AttemptId, task: TaskDef, r: ResolvedInputs, output: Json)
    requires id in i.tasks && i.tasks[id].status.Running? && task.verifier.Some?
    requires Fits(valid, task, output) && !LeavesBadly(task, output)
    requires !SaysComplete(output) && !exists f :: SaysContinue(output, f)
    ensures var batch := ResultEvents(valid, i, def, loops, task, id, r, DispatchAnswer.Success(output));
      && batch.Batch? && batch.outcome.StopError? && Reduce(i, batch.events).Success?
      && var j := Reduce(i, batch.events).value;
      && j == i.(tasks := j.tasks, status := WorkflowStatus.Failed) && j.tasks.Keys == i.tasks.Keys
      && j.tasks[id].status.Failed? && j.tasks[id].satisfaction.Unsatisfied?
  {
    ExitByFields(task, output);
    VerdictByFields(output);
    hide ExitRequest, VerdictOf, LeavesBadly, SaysComplete, SaysContinue;
    var reason, error := ExitRequest(task, output).value, VerdictOf(output).error;
    InvalidVerdictReduced(loops, i, id, r, task, output, reason,
      VerifierMetadata(Invalid, None, None, Some(output), Some(error)));
    AfterSuccessKeys(i, id, Done(loops, task, i.tasks[id], r, output), reason.Some?);
  }

  lemma AfterSuccessKeys(i: WorkflowInstance, id: AttemptId, done: TaskInstance, exit: bool)
    requires id in i.tasks
    ensures var j := AfterSuccess(i, id, done, exit); j == i.(tasks := j.tasks) && j.tasks.Keys == i.tasks.Keys
  {
  }

  // ---------------------------------------------------------------------------
  // Whether the pass goes on

  /** The pass goes on after this answer, told by the fields of answer, definition and snapshot. */
  ghost predicate GoesOn(valid: (Json, Json) -> bool, loops: Loops, i: WorkflowInstance, id: AttemptId, task: TaskDef,
      answer: DispatchAnswer)
  {
    && answer.Success? && Fits(valid, task, answer.output) && !LeavesBadly(task, answer.output)
    && (task.verifier.Some? ==>
          && id.taskDefId in loops.body
          && (SaysComplete(answer.output)
              || ((exists f :: SaysContinue(answer.output, f))
                  && (LeftEarly(i.tasks, loops.body[id.taskDefId]) || Leaves(task, answer.output)
                      || id.generation < task.verifier.value.maxIterations
                      || task.verifier.value.onExhaustedContinue))))
  }

  lemma GoesOnByFields(valid: (Json, Json) -> bool, def: WorkflowDef, loops: Loops, i: WorkflowInstance, id: AttemptId,
      task: TaskDef, answer: DispatchAnswer)
    requires KeysMatch(def, i.tasks)
    ensures PassGoesOn(valid, loops, i, id, task, answer) <==> GoesOn(valid, loops, i, id, task, answer)
  {
    if answer.Success? {
      ExitByFields(task, answer.output);
      VerdictByFields(answer.output);
      if id.taskDefId in loops.body { InterruptedByFields(def, i.tasks, loops.body[id.taskDefId]); }
      hide ExitRequest, VerdictOf, LeavesBadly, Leaves, SliceInterruptedByExit, LeftEarly, KeysMatch;
    }
  }
}
