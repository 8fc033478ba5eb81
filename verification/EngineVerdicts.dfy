/** What one verdict does to its loop, seen on the snapshot before and after the result is committed. */
module EngineVerdicts {
  import opened Prelude
  import opened JsonValues
  import opened AttemptIds
  import opened Model
  import opened Reducer
  import opened LoopSlices
  import opened Engine
  import opened EngineEffects
  import opened EngineInvariants
  import opened EngineSteps

  /** A dispatched verifier returned a well-formed verdict: `reason` is its own exit request, if any. */
  ghost predicate Judging(valid: (Json, Json) -> bool, def: WorkflowDef, loops: Loops, i: WorkflowInstance,
      id: AttemptId, task: TaskDef, output: Json, reason: Option<string>, verdict: Verdict)
  {
    && Dispatched(def, loops, i, id, task) && task.verifier.Some?
    && SchemaAccepts(valid, task, output)
    && ExitRequest(task, output) == Result.Success(reason)
    && VerdictOf(output) == Result.Success(verdict)
  }

  function Completed(i: WorkflowInstance, loops: Loops, task: TaskDef, id: AttemptId, r: ResolvedInputs,
      output: Json, reason: Option<string>): WorkflowInstance
    requires id in i.tasks
  {
    AfterSuccess(i, id, Done(loops, task, i.tasks[id], r, output), reason.Some?)
  }

  /** The committed snapshot in closed form. */
  lemma VerdictClosedForm(valid: (Json, Json) -> bool, def: WorkflowDef, loops: Loops, i: WorkflowInstance,
      id: AttemptId, task: TaskDef, r: ResolvedInputs, output: Json, reason: Option<string>, verdict: Verdict)
    requires Judging(valid, def, loops, i, id, task, output, reason, verdict)
    ensures var batch := ResultEvents(valid, i, def, loops, task, id, r, DispatchAnswer.Success(output));
      var j := Completed(i, loops, task, id, r, output, reason);
      && id.taskDefId in loops.body && id.taskDefId in i.verifierStates && task.id == id.taskDefId && id in j.tasks
      && id.taskDefId in j.verifierStates && !i.verifierStates[id.taskDefId].Settled()
        && j.verifierStates == i.verifierStates
      && batch.Batch?
      && Reduce(i, batch.events) == Result.Success(
           WithEffect(j, id, id.taskDefId, loops.body[id.taskDefId], id.generation,
                      VerdictEffect(j, task, loops.body[id.taskDefId], id, output, verdict)))
  {
    var xs := CompletedEvents(loops, task, id, r, output) + ExitEvents(i.tasks, id, reason);
    DispatchedVerifierHasState(def, loops, i, id, task);
    SuccessEventsReduce(i, loops, task, id, r, output, reason);
    var j := Completed(i, loops, task, id, r, output, reason);
    assert ResultEvents(valid, i, def, loops, task, id, r, DispatchAnswer.Success(output))
      == VerdictBatch(i, def, loops, id, output, xs, verdict);
    var t := VerifierTransition(j, def, loops, id, output, verdict);
    TransitionReduce(j, def, loops, id, output, verdict);
    ReduceAppend(i, xs, t.value.events);
  }

  /** Feedback of a verdict: one entry for every accepted Continue, in all three branches, none otherwise. */
  lemma FeedbackRecordedOnce(valid: (Json, Json) -> bool, def: WorkflowDef, loops: Loops, i: WorkflowInstance,
      id: AttemptId, task: TaskDef, r: ResolvedInputs, output: Json, reason: Option<string>, verdict: Verdict)
    requires Judging(valid, def, loops, i, id, task, output, reason, verdict)
    ensures var v := id.taskDefId;
      var batch := ResultEvents(valid, i, def, loops, task, id, r, DispatchAnswer.Success(output));
      && v in i.verifierStates && batch.Batch? && Reduce(i, batch.events).Success?
      && var j := Reduce(i, batch.events).value;
      && v in j.verifierStates
      && j.verifierStates[v].feedbackHistory == i.verifierStates[v].feedbackHistory
           + (if verdict.decision.Continue? then [FeedbackEntry(id.generation, verdict.feedback.GetOr(""), output)]
             else [])
  {
    VerdictClosedForm(valid, def, loops, i, id, task, r, output, reason, verdict);
    VerdictIsComplete(output, verdict);
    var j := Completed(i, loops, task, id, r, output, reason);
    EffectFeedback(j, task, loops.body[id.taskDefId], id, output, verdict);
    CompletedShape(i, loops, task, id, r, output, reason);
    assert j.tasks[id].generationIndex == id.generation;
  }

  lemma VerdictIsComplete(output: Json, verdict: Verdict)
    requires VerdictOf(output) == Result.Success(verdict)
    ensures verdict.output == output
    ensures verdict.decision.Continue? ==> !IsBlank(verdict.feedback.GetOr(""))
  {
  }

  lemma EffectFeedback(j: WorkflowInstance, task: TaskDef, slice: seq<TaskId>, id: AttemptId, output: Json,
      verdict: Verdict)
    requires id in j.tasks && task.verifier.Some? && task.id in j.verifierStates && verdict.output == output
    requires verdict.decision.Continue? ==> !IsBlank(verdict.feedback.GetOr(""))
    ensures var g := j.tasks[id].generationIndex;
      WithEffect(j, id, task.id, slice, g,
        VerdictEffect(j, task, slice, id, output, verdict)).verifierStates[task.id].feedbackHistory
      == j.verifierStates[task.id].feedbackHistory
         + (if verdict.decision.Continue? then [FeedbackEntry(g, verdict.feedback.GetOr(""), output)] else [])
  {
  }

  /** How a verdict ends: accepted, next generation, given up, or closed by an early exit. */
  datatype Ending = Accept | NextGeneration | ClosedByExit | AcceptLast | GiveUp

  function EndingOf(config: VerifierConfig, generation: nat, interrupted: bool, noOutput: bool,
      decision: VerifierDecision): Ending
  {
    if decision.Complete? then Accept
    else if interrupted then ClosedByExit
    else if generation < config.maxIterations then NextGeneration
    else if config.onExhaustedContinue && !noOutput then AcceptLast
    else GiveUp
  }

  /** The loop after a verdict, told by its ending. */
  ghost predicate LoopAfter(ending: Ending, i: WorkflowInstance, slice: seq<TaskId>, id: AttemptId,
      j: WorkflowInstance)
  {
    var v, g := id.taskDefId, id.generation;
    && v in i.verifierStates && v in j.verifierStates && id in j.tasks
    && (ending.Accept? || ending.AcceptLast? <==> j.verifierStates[v].Settled())
    && (j.verifierStates[v].Settled() ==>
          && j.verifierStates[v].selectedGeneration == Some(g)
          && (forall x :: x in j.tasks && x.taskDefId in slice && x.generation == g
                ==> j.tasks[x].satisfaction.Satisfied?)
          && j.tasks.Keys == i.tasks.Keys)
    && (ending.NextGeneration? ==>
          && j.verifierStates[v].latestGeneration == g + 1 && j.verifierStates[v].status.Running?
          && (forall t :: t in slice ==> AttemptId(t, g + 1) in j.tasks)
          && (forall x :: x in j.tasks && x.taskDefId in slice && x.generation == g
                ==> !j.tasks[x].satisfaction.Satisfied?))
    && (!ending.NextGeneration?
      ==> j.tasks.Keys == i.tasks.Keys && j.verifierStates[v].latestGeneration == i.verifierStates[v].latestGeneration)
    && (if ending.GiveUp? then j.tasks[id].status.Failed? && j.status.Failed?
        else j.tasks[id].status.Completed? && j.status == i.status)
  }

  lemma EffectEnds(i: WorkflowInstance, j: WorkflowInstance, slice: seq<TaskId>, id: AttemptId, config: VerifierConfig,
    interrupted: bool, noOutput: bool, verdict: Verdict)
    requires id in j.tasks && id.taskDefId in j.verifierStates && j.verifierStates == i.verifierStates
      && j.tasks.Keys == i.tasks.Keys
    requires j.status == i.status && j.tasks[id].status.Completed? && !i.verifierStates[id.taskDefId].Settled()
      && id.taskDefId in slice
    requires verdict.decision.Continue? ==> !IsBlank(verdict.feedback.GetOr(""))
    ensures LoopAfter(EndingOf(config, id.generation, interrupted, noOutput, verdict.decision), i, slice, id,
      WithEffect(j, id, id.taskDefId, slice, id.generation,
                 Decide(Own(j.status, j.tasks[id], j.verifierStates[id.taskDefId]), id.generation, config, interrupted,
                   noOutput, verdict)))
  {
    hide WithEffect, LoopAfter, Decide, EndingOf, Ends;
    var o := Own(j.status, j.tasks[id], j.verifierStates[id.taskDefId]);
    var e := Decide(o, id.generation, config, interrupted, noOutput, verdict);
    EffectStates(j, slice, id, e);
    EffectJudges(j, slice, id, e);
    if e.next { EffectExtends(j, slice, id, e); }
    DecisionEnds(o, id.generation, config, interrupted, noOutput, verdict);
    LoopFollows(EndingOf(config, id.generation, interrupted, noOutput, verdict.decision), i, j, slice, id, o, e,
      WithEffect(j, id, id.taskDefId, slice, id.generation, e));
  }

  /** What each ending means for the attempt, the verifier state and the slice. */
  ghost predicate Ends(ending: Ending, o: Own, g: nat, e: Effect) {
    && (ending.Accept? || ending.AcceptLast? <==> e.own.state.Settled())
    && (e.own.state.Settled() ==> e.own.state.selectedGeneration == Some(g) && e.satisfaction == Some(Satisfied))
    && (ending.NextGeneration? <==> e.next)
    && (e.next ==>
          && e.own.state.latestGeneration == g + 1 && e.own.state.status.Running?
          && e.satisfaction == Some(Unsatisfied))
    && (!e.next ==> e.own.state.latestGeneration == o.state.latestGeneration)
    && (if ending.GiveUp? then e.own.task.status.Failed? else e.own.task.status == o.task.status)
    && e.own.status == (if ending.GiveUp? then WorkflowStatus.Failed else o.status)
  }

  lemma DecisionEnds(o: Own, g: nat, config: VerifierConfig, interrupted: bool, noOutput: bool, verdict: Verdict)
    requires o.task.status.Completed? && !o.state.Settled()
    requires verdict.decision.Continue? ==> !IsBlank(verdict.feedback.GetOr(""))
    ensures Ends(EndingOf(config, g, interrupted, noOutput, verdict.decision), o, g,
                 Decide(o, g, config, interrupted, noOutput, verdict))
  {
    hide IsBlank;
  }

  lemma LoopFollows(ending: Ending, i: WorkflowInstance, j: WorkflowInstance, slice: seq<TaskId>, id: AttemptId, o: Own,
      e: Effect, k: WorkflowInstance)
    requires id in j.tasks && id.taskDefId in j.verifierStates && j.verifierStates == i.verifierStates
    requires j.tasks.Keys == i.tasks.Keys && j.status == i.status
    requires o == Own(j.status, j.tasks[id], j.verifierStates[id.taskDefId]) && Ends(ending, o, id.generation, e)
    requires o.task.status.Completed?
    requires k.verifierStates == j.verifierStates[id.taskDefId := e.own.state] && k.status == e.own.status
    requires id in k.tasks && k.tasks[id].status == e.own.task.status && (!e.next ==> k.tasks.Keys == j.tasks.Keys)
    requires e.satisfaction.Some? ==>
      forall x :: x in k.tasks && x.taskDefId in slice && x.generation == id.generation
             ==> k.tasks[x].satisfaction == e.satisfaction.value
    requires e.next ==> forall t :: t in slice ==> AttemptId(t, id.generation + 1) in k.tasks
    ensures LoopAfter(ending, i, slice, id, k)
  {
  }

  lemma EffectStates(j: WorkflowInstance, slice: seq<TaskId>, id: AttemptId, e: Effect)
    requires id in j.tasks
    ensures WithEffect(j, id, id.taskDefId, slice, id.generation, e).verifierStates
      == j.verifierStates[id.taskDefId := e.own.state]
  {
  }

  lemma EffectJudges(j: WorkflowInstance, slice: seq<TaskId>, id: AttemptId, e: Effect)
    requires id in j.tasks && id.taskDefId in slice
    ensures var k := WithEffect(j, id, id.taskDefId, slice, id.generation, e);
      && id in k.tasks && k.tasks[id].status == e.own.task.status && k.status == e.own.status
      && (!e.next ==> k.tasks.Keys == j.tasks.Keys)
      && (e.satisfaction.Some? && !e.next ==>
            forall x :: x in k.tasks && x.taskDefId in slice && x.generation == id.generation
                   ==> k.tasks[x].satisfaction == e.satisfaction.value)
      && (e.satisfaction.Some? && e.next ==>
            forall x :: x in k.tasks && x.taskDefId in slice && x.generation == id.generation
                   ==> k.tasks[x].satisfaction == e.satisfaction.value)
  {
  }

  lemma EffectExtends(j: WorkflowInstance, slice: seq<TaskId>, id: AttemptId, e: Effect)
    requires id in j.tasks && e.next
    ensures var k := WithEffect(j, id, id.taskDefId, slice, id.generation, e);
      forall t :: t in slice ==> AttemptId(t, id.generation + 1) in k.tasks
  {
    var judged := Judged(WithOwn(j, id, id.taskDefId, e.own).tasks, slice, id.generation, e.satisfaction);
    forall t | t in slice ensures AttemptId(t, id.generation + 1) in Extended(judged, slice, id.generation, true) {
      var x := AttemptId(t, id.generation + 1);
      assert x !in judged ==> x in NewIds(judged, slice, id.generation + 1);
    }
  }

  /**
   Every well-formed verdict ends in exactly one of five ways; which one depends on the decision, the
   generation, the policy and the exits recorded with or before this result.
   */
  lemma VerdictEnds(valid: (Json, Json) -> bool, def: WorkflowDef, loops: Loops, i: WorkflowInstance, id: AttemptId,
      task: TaskDef, r: ResolvedInputs, output: Json, reason: Option<string>, verdict: Verdict)
    requires Judging(valid, def, loops, i, id, task, output, reason, verdict)
    ensures id.taskDefId in loops.body
    ensures var slice := loops.body[id.taskDefId];
      var batch := ResultEvents(valid, i, def, loops, task, id, r, DispatchAnswer.Success(output));
      var interrupted := SliceInterruptedByExit(i.tasks, slice) || reason.Some?;
      && batch.Batch? && Reduce(i, batch.events).Success?
      && LoopAfter(EndingOf(task.verifier.value, id.generation, interrupted, output.JNull?
        && task.outputSchema.None?, verdict.decision),
                   i, slice, id, Reduce(i, batch.events).value)
  {
    VerdictClosedForm(valid, def, loops, i, id, task, r, output, reason, verdict);
    VerdictIsComplete(output, verdict);
    assert id.taskDefId in loops.body[id.taskDefId];
    ClosedFormEnds(def, loops, i, id, task, r, output, reason, verdict, loops.body[id.taskDefId]);
  }

  lemma ClosedFormEnds(def: WorkflowDef, loops: Loops, i: WorkflowInstance, id: AttemptId, task: TaskDef,
      r: ResolvedInputs, output: Json, reason: Option<string>, verdict: Verdict, slice: seq<TaskId>)
    requires KeysMatch(def, i.tasks) && id in i.tasks && i.tasks[id].status.Running?
    requires task.verifier.Some? && task.id == id.taskDefId && id.taskDefId in slice
    requires id.taskDefId in i.verifierStates && !i.verifierStates[id.taskDefId].Settled()
    requires verdict.decision.Continue? ==> !IsBlank(verdict.feedback.GetOr(""))
    ensures var j := Completed(i, loops, task, id, r, output, reason);
      && id in j.tasks && task.id in j.verifierStates
      && LoopAfter(EndingOf(task.verifier.value, id.generation, SliceInterruptedByExit(i.tasks, slice) || reason.Some?,
                            output.JNull? && task.outputSchema.None?, verdict.decision),
                   i, slice, id, WithEffect(j, id, id.taskDefId, slice, id.generation,
                     VerdictEffect(j, task, slice, id, output, verdict)))
  {
    var j := Completed(i, loops, task, id, r, output, reason);
    var done := Done(loops, task, i.tasks[id], r, output);
    InterruptedAfter(def, i, id, slice, done, reason.Some?);
    CompletedShape(i, loops, task, id, r, output, reason);
    EffectEnds(i, j, slice, id, task.verifier.value, SliceInterruptedByExit(j.tasks, slice), output.JNull?
      && task.outputSchema.None?, verdict);
  }

  lemma CompletedShape(i: WorkflowInstance, loops: Loops, task: TaskDef, id: AttemptId, r: ResolvedInputs,
      output: Json, reason: Option<string>)
    requires id in i.tasks && i.tasks[id].status.Running?
    ensures var j := Completed(i, loops, task, id, r, output, reason);
      && j.tasks.Keys == i.tasks.Keys && j.status == i.status && j.verifierStates == i.verifierStates
        && j.tasks[id].status.Completed?
      && j.tasks[id].taskDefId == i.tasks[id].taskDefId && j.tasks[id].generationIndex == i.tasks[id].generationIndex
  {
  }

  /** An exit asked for by an attempt of the slice interrupts it in the same batch. */
  lemma InterruptedAfter(def: WorkflowDef, i: WorkflowInstance, id: AttemptId, slice: seq<TaskId>,
      done: TaskInstance, exit: bool)
    requires KeysMatch(def, i.tasks) && id in i.tasks && i.tasks[id].status.Running? && id.taskDefId in slice
    requires done.taskDefId == id.taskDefId && done.status.Completed? && done.earlyExit == i.tasks[id].earlyExit
    ensures SliceInterruptedByExit(AfterSuccess(i, id, done, exit).tasks, slice)
      <==> SliceInterruptedByExit(i.tasks, slice) || exit
  {
    var j := AfterSuccess(i, id, done, exit);
    if exit { assert j.tasks[id].earlyExit && j.tasks[id].taskDefId in slice; }
    if SliceInterruptedByExit(i.tasks, slice) {
      var x :| x in i.tasks && i.tasks[x].taskDefId in slice && (i.tasks[x].status.Skipped? || i.tasks[x].earlyExit);
      assert x in j.tasks && j.tasks[x].taskDefId in slice && (j.tasks[x].status.Skipped? || j.tasks[x].earlyExit);
    }
    if SliceInterruptedByExit(j.tasks, slice) && !exit {
      var x :| x in j.tasks && j.tasks[x].taskDefId in slice && (j.tasks[x].status.Skipped? || j.tasks[x].earlyExit);
      assert x in i.tasks && i.tasks[x].taskDefId in slice && (i.tasks[x].status.Skipped? || i.tasks[x].earlyExit);
    }
  }
}
