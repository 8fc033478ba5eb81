/**
 Every batch the engine commits is accepted by the reducer and keeps the invariants: starting an attempt,
 opening a loop, and each way a task result can end.
 */
module EngineSteps {
  import opened Prelude
  import opened JsonValues
  import opened AttemptIds
  import opened Model
  import opened Reducer
  import opened LoopSlices
  import opened Engine
  import opened EngineEffects
  import opened EngineInvariants

  // ---------------------------------------------------------------------------
  // Reading the snapshot

  /** The latest attempt is one of the candidates, with the highest generation among them. */
  lemma LatestAttemptIsLatest(def: WorkflowDef, tasks: Tasks, t: TaskId, satisfiedOnly: bool)
    requires KeysMatch(def, tasks)
    ensures LatestAttempt(tasks, t, satisfiedOnly).None? <==> Candidates(tasks, t, satisfiedOnly) == {}
    ensures LatestAttempt(tasks, t, satisfiedOnly).Some? ==>
      var a := LatestAttempt(tasks, t, satisfiedOnly).value;
      && a in Candidates(tasks, t, satisfiedOnly)
      && forall x :: x in Candidates(tasks, t, satisfiedOnly) ==> x.generation <= a.generation
  {
    var candidates := Candidates(tasks, t, satisfiedOnly);
    if candidates != {} {
      var generations := set id | id in candidates :: tasks[id].generationIndex;
      var first := First(candidates);
      assert tasks[first].generationIndex in generations;
      var top := Max(generations);
      var id :| id in candidates && tasks[id].generationIndex == top;
      assert id == AttemptId(t, top);
      forall x | x in candidates ensures x.generation <= top {
        assert tasks[x].generationIndex in generations;
      }
    }
  }

  lemma {:induction false} FirstSliceWithFinds(loops: Loops, order: seq<TaskId>, v: TaskId, t: TaskId)
    requires SlicesDisjoint(loops) && v in order && v in loops.body && t in loops.body[v]
    ensures FirstSliceWith(loops, order, t) == Some(v)
  {
    if order[0] in loops.body && t in loops.body[order[0]] {
      assert order[0] == v;
    } else {
      FirstSliceWithFinds(loops, order[1..], v, t);
    }
  }

  lemma {:induction false} FirstSliceWithSound(loops: Loops, order: seq<TaskId>, t: TaskId)
    ensures FirstSliceWith(loops, order, t).Some? ==>
      var v := FirstSliceWith(loops, order, t).value; v in loops.body && t in loops.body[v]
  {
    if order != [] && !(order[0] in loops.body && t in loops.body[order[0]]) {
      FirstSliceWithSound(loops, order[1..], t);
    }
  }

  ghost predicate SourceReady(tasks: Tasks, loops: Loops, target: Option<TaskId>, source: TaskId) {
    var a := ResolveSource(tasks, loops, target, source);
    a.Some? && a.value in tasks && tasks[a.value].status.Completed?
  }

  lemma {:induction false} InboundMembers(bindings: seq<DataBinding>, t: TaskId)
    ensures forall b :: b in Inbound(bindings, t) <==> b in bindings && b.target == t
  {
    if bindings != [] {
      InboundMembers(bindings[1..], t);
    }
  }

  /** Inputs resolve exactly when the source of every inbound binding is ready. */
  lemma {:induction false} ResolvesWhenReady(tasks: Tasks, loops: Loops, target: TaskId, inbound: seq<DataBinding>)
    ensures ResolveBindings(tasks, loops, target, inbound).Some? <==>
      forall b :: b in inbound ==> SourceReady(tasks, loops, Some(target), b.source)
  {
    if inbound != [] {
      ResolvesWhenReady(tasks, loops, target, inbound[1..]);
      assert forall b :: b in inbound <==> b == inbound[0] || b in inbound[1..];
    }
  }

  /** Each resolved input is the output of a completed attempt; across a loop boundary, of the accepted generation. */
  lemma {:induction false} ResolvedSources(def: WorkflowDef, loops: Loops, i: WorkflowInstance, t: TaskId,
      inbound: seq<DataBinding>)
    requires SlicesDisjoint(loops)
    requires KeysMatch(def, i.tasks) && SatisfiedIsSelected(loops, i.tasks, i.verifierStates)
    requires ResolveBindings(i.tasks, loops, t, inbound).Some?
    ensures var r := ResolveBindings(i.tasks, loops, t, inbound).value;
      && |r.values| == |r.mapping| == |inbound|
      && forall k :: 0 <= k < |inbound| ==>
           InputFrom(loops, i.tasks, i.verifierStates, t, inbound[k].source, r.values[k], r.mapping[k])
  {
    if inbound != [] {
      ResolvedSources(def, loops, i, t, inbound[1..]);
      var rest := ResolveBindings(i.tasks, loops, t, inbound[1..]).value;
      var r := ResolveBindings(i.tasks, loops, t, inbound).value;
      ResolvedSource(def, loops, i, t, inbound[0].source);
      forall k | 0 <= k < |inbound|
        ensures InputFrom(loops, i.tasks, i.verifierStates, t, inbound[k].source, r.values[k], r.mapping[k])
      {
        if k > 0 {
          assert r.values[k] == rest.values[k - 1] && r.mapping[k] == rest.mapping[k - 1]
            && inbound[k] == inbound[1..][k - 1];
        }
      }
    }
  }

  lemma ResolvedSource(def: WorkflowDef, loops: Loops, i: WorkflowInstance, t: TaskId, source: TaskId)
    requires SlicesDisjoint(loops)
    requires KeysMatch(def, i.tasks) && SatisfiedIsSelected(loops, i.tasks, i.verifierStates)
    requires SourceReady(i.tasks, loops, Some(t), source)
    ensures var task := i.tasks[ResolveSource(i.tasks, loops, Some(t), source).value];
      InputFrom(loops, i.tasks, i.verifierStates, t, source, task.outputData.GetOr(JNull),
        TaskInputMapping(source, task.generationIndex))
  {
    LatestAttemptIsLatest(def, i.tasks, source, false);
    LatestAttemptIsLatest(def, i.tasks, source, true);
    FirstSliceWithSound(loops, loops.order, t);
    var a := ResolveSource(i.tasks, loops, Some(t), source).value;
    forall v | v in loops.body && source in loops.body[v] && t !in loops.body[v]
      ensures Selected(i.verifierStates, v, a.generation)
    {
      assert a in Candidates(i.tasks, source, true);
    }
  }

  lemma ResolvedInputsFrom(def: WorkflowDef, loops: Loops, i: WorkflowInstance, id: AttemptId)
    requires SlicesDisjoint(loops)
    requires KeysMatch(def, i.tasks) && SatisfiedIsSelected(loops, i.tasks, i.verifierStates)
    requires Provenance(def, loops, i.tasks, i.verifierStates) && id in i.tasks
    ensures var r := ResolveInputs(i.tasks, def, loops, i.tasks[id]).GetOr(ResolvedInputs([], []));
      InputsFrom(def, loops, i.tasks, i.verifierStates, id.taskDefId, r.values, r.mapping)
  {
    var inbound := Inbound(def.dataBindings, id.taskDefId);
    if ResolveBindings(i.tasks, loops, id.taskDefId, inbound).Some? {
      ResolvedSources(def, loops, i, id.taskDefId, inbound);
    }
  }

  // ---------------------------------------------------------------------------
  // A loop body never moves before its verifier has a state

  /** A runnable attempt of a slice without a state makes the slice eligible. */
  lemma RunnableMakesEligible(def: WorkflowDef, loops: Loops, i: WorkflowInstance, v: TaskId, id: AttemptId)
    requires SlicesOfVerifiers(def, loops) && SlicesDisjoint(loops) && SlicesDefined(def, loops)
    requires KeysMatch(def, i.tasks) && Dormant(loops, i.tasks, i.verifierStates)
    requires v in loops.body && v !in i.verifierStates && FeedsFromStart(def, v, loops.body[v])
    requires id.taskDefId in loops.body[v] && Runnable(i.tasks, def, loops, id)
    ensures Eligible(i, def, loops, v)
  {
    var slice, t := loops.body[v], id.taskDefId;
    assert Untouched(i.tasks, slice);
    FirstSliceWithFinds(loops, loops.order, v, t);
    var inbound := Inbound(def.dataBindings, t);
    InboundMembers(def.dataBindings, t);
    ResolvesWhenReady(i.tasks, loops, t, inbound);
    if t == StartOf(def, v) {
      forall b | b in def.dataBindings && b.target == t && b.source !in slice
        ensures SourceReady(i.tasks, loops, None, b.source)
      {
        assert b in inbound;
        assert SourceReady(i.tasks, loops, Some(t), b.source);
      }
      assert t in TaskIds(def);
    } else {
      StartIsFirstToMove(def, loops, i, v, t);
      assert false;
    }
  }

  lemma StartIsFirstToMove(def: WorkflowDef, loops: Loops, i: WorkflowInstance, v: TaskId, t: TaskId)
    requires KeysMatch(def, i.tasks)
    requires v in loops.body && Untouched(i.tasks, loops.body[v])
    requires FirstSliceWith(loops, loops.order, t) == Some(v)
    requires FedFromSlice(def, loops.body[v], t)
    ensures Inbound(def.dataBindings, t) != []
    ensures ResolveBindings(i.tasks, loops, t, Inbound(def.dataBindings, t)).None?
  {
    var b :| b in def.dataBindings && b.target == t && b.source in loops.body[v];
    InboundMembers(def.dataBindings, t);
    ResolvesWhenReady(i.tasks, loops, t, Inbound(def.dataBindings, t));
    LatestAttemptIsLatest(def, i.tasks, b.source, false);
    assert b in Inbound(def.dataBindings, t);
    assert !SourceReady(i.tasks, loops, Some(t), b.source);
  }

  // ---------------------------------------------------------------------------
  // Results

  /** What the engine knows about the attempt whose result arrives. */
  ghost predicate Dispatched(def: WorkflowDef, loops: Loops, i: WorkflowInstance, id: AttemptId, task: TaskDef) {
    && LoopShape(def, loops)
    && KeysMatch(def, i.tasks) && Dormant(loops, i.tasks, i.verifierStates)
    && VerifierChain(loops, i.tasks) && SettledIsFinal(loops, i.tasks, i.verifierStates)
    && StatesBounded(def, i.verifierStates)
    && !i.status.Failed? && id in i.tasks && i.tasks[id].status.Running?
    && FindTask(def.tasks, id.taskDefId) == Some(task)
  }

  /** A dispatched verifier always has a state: "verifier state missing" cannot happen. */
  lemma DispatchedVerifierHasState(def: WorkflowDef, loops: Loops, i: WorkflowInstance, id: AttemptId, task: TaskDef)
    requires Dispatched(def, loops, i, id, task) && task.verifier.Some?
    ensures task.id == id.taskDefId && id.taskDefId in loops.body && id.taskDefId in i.verifierStates
    ensures !i.verifierStates[id.taskDefId].Settled() && AttemptId(id.taskDefId, id.generation + 1) !in i.tasks
  {
    var v := id.taskDefId;
    assert VerifierOf(def, v).Some?;
    assert v in loops.body[v];
    assert v !in i.verifierStates ==> Untouched(i.tasks, loops.body[v]);
    LiveVerifierUnsettled(def, loops, i, id);
  }

  /** Results that only rewrite the attempt and the workflow status. */
  lemma OwnResult(def: WorkflowDef, loops: Loops, i: WorkflowInstance, id: AttemptId, r: ResolvedInputs,
      task: TaskInstance, status: WorkflowStatus)
    requires id in i.tasks && RanAttempt(i.tasks[id], r, task)
    requires task.satisfaction.Satisfied?
      ==> i.tasks[id].satisfaction.Satisfied? || !IsTaskInLoopSlice(loops, id.taskDefId)
    requires status == if task.status.Failed? then WorkflowStatus.Failed
                       else if task.status.InputNeeded? then WorkflowStatus.InputNeeded else i.status
    ensures ResultStep(def, loops, i, id, r, WithTask(i, id, task).(status := status))
  {
  }

  /** The attempts after a success, before any verdict. */
  ghost predicate Succeeded(before: Tasks, id: AttemptId, done: TaskInstance, exit: bool, after: Tasks) {
    && after.Keys == before.Keys
    && forall x :: x in before && x != id ==>
         after[x] == if exit && before[x].status.Pending? then
           before[x].(status := Skipped, satisfaction := Unsatisfied) else before[x]
  }

  lemma AfterSuccessTasks(i: WorkflowInstance, id: AttemptId, done: TaskInstance, exit: bool)
    requires id in i.tasks && i.tasks[id].status.Running?
    ensures Succeeded(i.tasks, id, done, exit, AfterSuccess(i, id, done, exit).tasks)
  {
  }

  lemma SucceededOthers(before: Tasks, id: AttemptId, done: TaskInstance, exit: bool, middle: Tasks, task: TaskInstance)
    requires id in before && Succeeded(before, id, done, exit, middle)
    ensures OthersStay(before, id, middle[id := task]) && SkipsAllOrNone(before, id, middle[id := task])
  {
  }

  lemma SucceededJudges(loops: Loops, before: Tasks, id: AttemptId, done: TaskInstance, exit: bool, middle: Tasks,
      task: TaskInstance)
    requires id in before && Succeeded(before, id, done, exit, middle)
    ensures JudgesOwn(loops, before, id, middle[id := task])
  {
  }

  lemma SucceededSatisfies(loops: Loops, before: Tasks, id: AttemptId, done: TaskInstance, exit: bool, middle: Tasks,
      task: TaskInstance, k: WorkflowInstance)
    requires id in before && Succeeded(before, id, done, exit, middle) && k.tasks == middle[id := task]
    requires task.satisfaction.Satisfied?
      ==> before[id].satisfaction.Satisfied? || !IsTaskInLoopSlice(loops, id.taskDefId)
    ensures SatisfiedBy(loops, before, id, k)
  {
  }

  lemma StatesUnchanged(def: WorkflowDef, loops: Loops, i: WorkflowInstance, id: AttemptId, k: WorkflowInstance)
    requires k.verifierStates == i.verifierStates && k.tasks.Keys == i.tasks.Keys
    ensures StatesStay(def, i, id, k) && NewAttempts(def, loops, i, id, k)
      && WholeGeneration(loops, i.tasks, id, k.tasks)
  {
  }

  /** The same with the exit's skips. */
  lemma SuccessResult(def: WorkflowDef, loops: Loops, i: WorkflowInstance, id: AttemptId, r: ResolvedInputs,
      done: TaskInstance, task: TaskInstance, exit: bool, status: WorkflowStatus)
    requires id in i.tasks && i.tasks[id].status.Running? && RanAttempt(i.tasks[id], r, task)
    requires task.satisfaction.Satisfied?
      ==> i.tasks[id].satisfaction.Satisfied? || !IsTaskInLoopSlice(loops, id.taskDefId)
    requires status == if task.status.Failed? then WorkflowStatus.Failed
                       else if task.status.InputNeeded? then WorkflowStatus.InputNeeded else i.status
    ensures ResultStep(def, loops, i, id, r, WithTask(AfterSuccess(i, id, done, exit), id, task).(status := status))
  {
    hide Succeeded, OthersStay, SkipsAllOrNone, SatisfiedBy, StatesStay, NewAttempts, AfterSuccess, JudgesOwn,
      WholeGeneration;
    var middle := AfterSuccess(i, id, done, exit).tasks;
    var k := WithTask(AfterSuccess(i, id, done, exit), id, task).(status := status);
    AfterSuccessTasks(i, id, done, exit);
    SucceededOthers(i.tasks, id, done, exit, middle, task);
    SucceededJudges(loops, i.tasks, id, done, exit, middle, task);
    SucceededSatisfies(loops, i.tasks, id, done, exit, middle, task, k);
    SuccessKeepsStates(i, id, done, exit, task);
    StatesUnchanged(def, loops, i, id, k);
  }

  lemma SuccessKeepsStates(i: WorkflowInstance, id: AttemptId, done: TaskInstance, exit: bool, task: TaskInstance)
    requires id in i.tasks
    ensures var k := WithTask(AfterSuccess(i, id, done, exit), id, task);
      k.verifierStates == i.verifierStates && k.tasks.Keys == i.tasks.Keys && k.status == i.status
  {
  }

  /** The attempts after a verdict: its own attempt rewritten, its generation judged, the next one fresh. */
  ghost predicate Verdicted(before: Tasks, id: AttemptId, slice: seq<TaskId>, generation: nat, e: Effect,
      after: Tasks)
  {
    OwnRewritten(before, id, e, after) && GenerationJudged(before, id, slice, generation, e, after)
    && NextFresh(before, slice, generation, e, after)
  }

  ghost predicate OwnRewritten(before: Tasks, id: AttemptId, e: Effect, after: Tasks) {
    && (forall x :: x in before ==> x in after)
    && (forall x :: x in before && x != id ==> after[x] == before[x].(satisfaction := after[x].satisfaction))
    && id in after && after[id] == e.own.task.(satisfaction := after[id].satisfaction)
  }

  ghost predicate GenerationJudged(before: Tasks, id: AttemptId, slice: seq<TaskId>, generation: nat, e: Effect,
      after: Tasks)
  {
    && (forall x :: x in before && x in after && after[x].satisfaction.Satisfied? ==>
          (if x == id then e.own.task.satisfaction.Satisfied? else before[x].satisfaction.Satisfied?)
          || (x.taskDefId in slice && x.generation == generation && e.satisfaction == Some(Satisfied)))
    && (forall x :: x in before && x in after && x != id && after[x].satisfaction != before[x].satisfaction ==>
          x.taskDefId in slice && x.generation == generation)
  }

  ghost predicate NextFresh(before: Tasks, slice: seq<TaskId>, generation: nat, e: Effect, after: Tasks) {
    && (forall x :: x in after && x !in before ==>
          e.next && x.taskDefId in slice && x.generation == generation + 1
          && after[x] == FreshTask(x.taskDefId, x.generation, None, []))
    && (e.next ==> forall t :: t in slice ==> AttemptId(t, generation + 1) in after)
  }

  /** A verdict never interrupts a slice: only the exit recorded with it can. */
  lemma VerdictKeepsOpen(before: Tasks, id: AttemptId, slice: seq<TaskId>, generation: nat, e: Effect, after: Tasks)
    requires id in before && Verdicted(before, id, slice, generation, e, after)
    requires e.own.task.taskDefId == before[id].taskDefId && e.own.task.earlyExit == before[id].earlyExit
    requires e.own.task.status == before[id].status && !SliceInterruptedByExit(before, slice)
    ensures !SliceInterruptedByExit(after, slice)
  {
    forall x | x in after && after[x].taskDefId in slice ensures !after[x].status.Skipped? && !after[x].earlyExit {
      if x in before { assert before[x].taskDefId in slice; }
    }
  }

  lemma VerdictTasks(j: WorkflowInstance, id: AttemptId, v: TaskId, slice: seq<TaskId>, generation: nat, e: Effect)
    requires id in j.tasks
    ensures Verdicted(j.tasks, id, slice, generation, e, WithEffect(j, id, v, slice, generation, e).tasks)
  {
    hide Judged, Extended, FreshTask, OwnRewritten, GenerationJudged, NextFresh;
    var own := j.tasks[id := e.own.task];
    var judged := Judged(own, slice, generation, e.satisfaction);
    JudgedTasks(own, slice, generation, e.satisfaction);
    ExtendedTasks(judged, slice, generation, e);
    VerdictParts(j.tasks, id, slice, generation, e, judged, Extended(judged, slice, generation, e.next));
  }

  lemma VerdictParts(before: Tasks, id: AttemptId, slice: seq<TaskId>, generation: nat, e: Effect, judged: Tasks,
      after: Tasks)
    requires id in before && judged.Keys == before.Keys
    requires forall x :: x in before ==>
      var own := if x == id then e.own.task else before[x];
      && judged[x] == own.(satisfaction := judged[x].satisfaction)
      && (judged[x].satisfaction == own.satisfaction
          || (x.taskDefId in slice && x.generation == generation && e.satisfaction == Some(judged[x].satisfaction)))
    requires forall x :: x in judged ==> x in after && after[x] == judged[x]
    requires NextFresh(judged, slice, generation, e, after)
    ensures OwnRewritten(before, id, e, after) && GenerationJudged(before, id, slice, generation, e, after)
    ensures NextFresh(before, slice, generation, e, after)
  {
  }

  lemma JudgedTasks(tasks: Tasks, slice: seq<TaskId>, generation: nat, satisfaction: Option<Satisfaction>)
    ensures var after := Judged(tasks, slice, generation, satisfaction);
      && after.Keys == tasks.Keys
      && forall x :: x in tasks ==>
           && after[x] == tasks[x].(satisfaction := after[x].satisfaction)
           && (after[x].satisfaction == tasks[x].satisfaction
               || (x.taskDefId in slice && x.generation == generation && satisfaction == Some(after[x].satisfaction)))
  {
  }

  lemma ExtendedTasks(tasks: Tasks, slice: seq<TaskId>, generation: nat, e: Effect)
    ensures var after := Extended(tasks, slice, generation, e.next);
      (forall x :: x in tasks ==> x in after && after[x] == tasks[x]) && NextFresh(tasks, slice, generation, e, after)
  {
    if e.next {
      forall t | t in slice ensures AttemptId(t, generation + 1) in Extended(tasks, slice, generation, e.next) {
        assert AttemptId(t, generation + 1) in tasks
          || AttemptId(t, generation + 1) in NewIds(tasks, slice, generation + 1);
      }
    }
  }

  /** What every row of the decision table has in common, on an unsettled state. */
  ghost predicate Row(o: Own, generation: nat, config: VerifierConfig, e: Effect) {
    && o.state.feedbackHistory <= e.own.state.feedbackHistory
    && (e.own.state.latestGeneration == o.state.latestGeneration
        || (e.next && e.own.state.latestGeneration == generation + 1))
    && (e.own.state.Settled() <==> e.satisfaction == Some(Satisfied))
    && (e.own.state.Settled()
      ==> !e.next && e.own.state.selectedGeneration == Some(generation) && e.own.task.status == o.task.status)
    && (e.next ==> e.own.task.status == o.task.status && generation < config.maxIterations)
    && e.own.task.taskDefId == o.task.taskDefId && e.own.task.generationIndex == o.task.generationIndex
    && e.own.task.earlyExit == o.task.earlyExit
    && e.own.task.inputData == o.task.inputData && e.own.task.inputMapping == o.task.inputMapping
    && (e.own.task.satisfaction.Satisfied? ==> o.task.satisfaction.Satisfied?)
    && ((e.own.task.status == o.task.status && e.own.status == o.status)
        || (e.own.task.status.Failed? && e.own.status.Failed?))
  }

  lemma DecisionRow(o: Own, generation: nat, config: VerifierConfig, interrupted: bool, noOutput: bool,
      verdict: Verdict)
    requires !o.state.Settled()
    ensures Row(o, generation, config, Decide(o, generation, config, interrupted, noOutput, verdict))
  {
    hide IsBlank;
    var entry := FeedbackEntry(generation, verdict.feedback.GetOr(""), verdict.output);
    if verdict.decision.Complete? {
      assert Row(o, generation, config, Effect(AcceptOwn(o, generation, verdict), Some(Satisfied), false));
    } else if !IsBlank(entry.feedback) {
      ContinueRows(o, generation, config, entry, verdict);
      hide Row, RetryOwn, SpentOwn, ExhaustedOwn, InterruptedOwn;
    }
  }

  lemma ContinueRows(o: Own, generation: nat, config: VerifierConfig, entry: FeedbackEntry, verdict: Verdict)
    requires !o.state.Settled() && entry.generationIndex == generation
    ensures Row(o, generation, config, Effect(InterruptedOwn(o, entry, verdict), Some(Unsatisfied), false))
    ensures generation < config.maxIterations ==>
      Row(o, generation, config, Effect(RetryOwn(o, entry, verdict), Some(Unsatisfied), true))
    ensures Row(o, generation, config,
      Effect(SpentOwn(o, entry, verdict, VerifierStateStatus.ExhaustedFailed, Exhausted), Some(Unsatisfied), false))
    ensures Row(o, generation, config,
      Effect(SpentOwn(o, entry, verdict, VerifierStateStatus.Failed, Some("no schema-valid latest generation output")),
        None, false))
    ensures Row(o, generation, config, Effect(ExhaustedOwn(o, entry, verdict), Some(Satisfied), false))
  {
  }

  lemma VerdictSatisfies(loops: Loops, before: Tasks, id: AttemptId, done: TaskInstance, exit: bool, middle: Tasks,
      e: Effect, k: WorkflowInstance)
    requires id in before && id.taskDefId in loops.body
    requires Succeeded(before, id, done, exit, middle)
    requires Verdicted(middle, id, loops.body[id.taskDefId], id.generation, e, k.tasks)
    requires e.own.task.satisfaction.Satisfied? ==> before[id].satisfaction.Satisfied?
    requires e.satisfaction == Some(Satisfied) ==> Selected(k.verifierStates, id.taskDefId, id.generation)
    ensures SatisfiedBy(loops, before, id, k)
  {
  }

  lemma VerdictOthers(before: Tasks, id: AttemptId, done: TaskInstance, exit: bool, middle: Tasks,
      slice: seq<TaskId>, generation: nat, e: Effect, after: Tasks)
    requires id in before
    requires Succeeded(before, id, done, exit, middle)
    requires Verdicted(middle, id, slice, generation, e, after)
    ensures OthersStay(before, id, after) && SkipsAllOrNone(before, id, after)
  {
  }

  lemma VerdictJudges(loops: Loops, before: Tasks, id: AttemptId, done: TaskInstance, exit: bool, middle: Tasks,
      e: Effect, after: Tasks)
    requires id in before && id.taskDefId in loops.body
    requires Succeeded(before, id, done, exit, middle)
    requires Verdicted(middle, id, loops.body[id.taskDefId], id.generation, e, after)
    ensures JudgesOwn(loops, before, id, after) && WholeGeneration(loops, before, id, after)
  {
  }

  lemma VerdictNew(def: WorkflowDef, loops: Loops, i: WorkflowInstance, id: AttemptId, done: TaskInstance,
      exit: bool, middle: Tasks, config: VerifierConfig, e: Effect, k: WorkflowInstance)
    requires id.taskDefId in loops.body && VerifierOf(def, id.taskDefId) == Some(config)
    requires Succeeded(i.tasks, id, done, exit, middle)
    requires Verdicted(middle, id, loops.body[id.taskDefId], id.generation, e, k.tasks)
    requires id.taskDefId in k.verifierStates && k.verifierStates[id.taskDefId] == e.own.state
    requires e.next ==> !e.own.state.Settled() && e.own.task.status.Completed? && id.generation < config.maxIterations
    requires e.next ==> !SliceInterruptedByExit(k.tasks, loops.body[id.taskDefId])
    ensures NewAttempts(def, loops, i, id, k)
  {
  }

  lemma VerdictStates(def: WorkflowDef, i: WorkflowInstance, id: AttemptId, done: TaskInstance, exit: bool,
      middle: Tasks, slice: seq<TaskId>, config: VerifierConfig, o: Own, e: Effect, k: WorkflowInstance)
    requires id in i.tasks && id.taskDefId in i.verifierStates && VerifierOf(def, id.taskDefId) == Some(config)
    requires Succeeded(i.tasks, id, done, exit, middle)
    requires Verdicted(middle, id, slice, id.generation, e, k.tasks)
    requires o.state == i.verifierStates[id.taskDefId] && o.task.status.Completed? && Row(o, id.generation, config, e)
    requires k.verifierStates == i.verifierStates[id.taskDefId := e.own.state]
    ensures StatesStay(def, i, id, k)
  {
    if e.own.state.Settled() { assert k.tasks.Keys == i.tasks.Keys; }
  }

  lemma VerdictResult(def: WorkflowDef, loops: Loops, i: WorkflowInstance, id: AttemptId, r: ResolvedInputs,
      config: VerifierConfig, done: TaskInstance, exit: bool, o: Own, e: Effect, k: WorkflowInstance)
    requires id in i.tasks && i.tasks[id].status.Running?
    requires id.taskDefId in loops.body && id.taskDefId in i.verifierStates
      && VerifierOf(def, id.taskDefId) == Some(config)
    requires RanAttempt(i.tasks[id], r, done) && done.status.Completed? && done.satisfaction == i.tasks[id].satisfaction
    requires o == Own(i.status, if exit then done.(earlyExit := true) else done, i.verifierStates[id.taskDefId])
    requires Row(o, id.generation, config, e)
    requires e.next ==> !SliceInterruptedByExit(AfterSuccess(i, id, done, exit).tasks, loops.body[id.taskDefId])
    requires k == WithEffect(AfterSuccess(i, id, done, exit), id, id.taskDefId, loops.body[id.taskDefId],
      id.generation, e)
    ensures ResultStep(def, loops, i, id, r, k)
  {
    var v := id.taskDefId;
    var j := AfterSuccess(i, id, done, exit);
    AfterSuccessTasks(i, id, done, exit);
    VerdictTasks(j, id, v, loops.body[v], id.generation, e);
    VerdictSatisfies(loops, i.tasks, id, done, exit, j.tasks, e, k);
    VerdictOthers(i.tasks, id, done, exit, j.tasks, loops.body[v], id.generation, e, k.tasks);
    VerdictJudges(loops, i.tasks, id, done, exit, j.tasks, e, k.tasks);
    if e.next { VerdictKeepsOpen(j.tasks, id, loops.body[v], id.generation, e, k.tasks); }
    VerdictNew(def, loops, i, id, done, exit, j.tasks, config, e, k);
    VerdictStates(def, i, id, done, exit, j.tasks, loops.body[v], config, o, e, k);
  }

  // One more event, or one more failure, at the end of a batch.

  lemma ThenStatus(i: WorkflowInstance, xs: seq<Event>, j: WorkflowInstance, s: WorkflowStatus)
    requires Reduce(i, xs) == Result.Success(j)
    ensures Reduce(i, xs + [WorkflowStatusChanged(s)]) == Result.Success(j.(status := s))
  {
    ReduceAppend(i, xs, [WorkflowStatusChanged(s)]);
    Reduce1(j, WorkflowStatusChanged(s));
  }

  lemma ThenFail(i: WorkflowInstance, xs: seq<Event>, j: WorkflowInstance, id: AttemptId)
    requires Reduce(i, xs) == Result.Success(j) && id in j.tasks
    ensures Reduce(i, xs + FailTask(id)) == Result.Success(WithTask(j, id, FailedTask(j.tasks[id])))
  {
    ReduceAppend(i, xs, FailTask(id));
    FailTaskReduce(j, id);
  }

  lemma ThenTask(i: WorkflowInstance, xs: seq<Event>, j: WorkflowInstance, id: AttemptId, event: Event)
    requires Reduce(i, xs) == Result.Success(j) && id in j.tasks && UpdatesTask(event) && event.id == id
    ensures Reduce(i, xs + [event]) == Result.Success(WithTask(j, id, UpdatedTask(j.tasks[id], event)))
  {
    ReduceAppend(i, xs, [event]);
    Touch1(j, id, event);
  }

  /** A batch the reducer accepts, that is a result step, and whose outcome says what it did to the workflow. */
  ghost predicate AcceptedBatch(def: WorkflowDef, loops: Loops, i: WorkflowInstance, id: AttemptId,
      r: ResolvedInputs, batch: ResultBatch)
  {
    && batch.Batch? && Reduce(i, batch.events).Success?
    && ResultStep(def, loops, i, id, r, Reduce(i, batch.events).value)
    && (batch.outcome.Proceed? ==> Reduce(i, batch.events).value.tasks[id].status.Completed?)
    && (batch.outcome.StopOk? ==> Reduce(i, batch.events).value.tasks[id].status.InputNeeded?)
    && (batch.outcome.StopError? ==> Reduce(i, batch.events).value.tasks[id].status.Failed?)
  }

  function WithInputs(task: TaskInstance, r: ResolvedInputs): TaskInstance {
    task.(inputData := r.values, inputMapping := r.mapping)
  }

  lemma FailureReduced(i: WorkflowInstance, id: AttemptId, r: ResolvedInputs)
    requires id in i.tasks
    ensures Reduce(i, InputEvents(id, r) + FailTask(id) + FailWorkflow) ==
      Result.Success(WithTask(i, id, FailedTask(WithInputs(i.tasks[id], r))).(status := WorkflowStatus.Failed))
  {
    var t := WithInputs(i.tasks[id], r);
    InputEventsReduce(i, id, r);
    ThenFail(i, InputEvents(id, r), WithTask(i, id, t), id);
    WithTaskTwice(i, id, t, FailedTask(t));
    ThenStatus(i, InputEvents(id, r) + FailTask(id), WithTask(i, id, FailedTask(t)), WorkflowStatus.Failed);
  }

  lemma FailureAccepted(def: WorkflowDef, loops: Loops, i: WorkflowInstance, id: AttemptId, r: ResolvedInputs)
    requires id in i.tasks
    ensures AcceptedBatch(def, loops, i, id, r, Batch(InputEvents(id, r) + FailTask(id) + FailWorkflow, StopError))
  {
    FailureReduced(i, id, r);
    OwnResult(def, loops, i, id, r, FailedTask(WithInputs(i.tasks[id], r)), WorkflowStatus.Failed);
  }

  lemma DispatchErrorReduced(i: WorkflowInstance, id: AttemptId, r: ResolvedInputs)
    requires id in i.tasks
    ensures Reduce(i, InputEvents(id, r) + [TaskStatusChanged(id, TaskStatus.Failed)] + FailWorkflow) ==
      Result.Success(WithTask(i, id, WithInputs(i.tasks[id], r).(status := TaskStatus.Failed))
                     .(status := WorkflowStatus.Failed))
  {
    var t := WithInputs(i.tasks[id], r);
    InputEventsReduce(i, id, r);
    ReduceThenTask(i, InputEvents(id, r), id, t, TaskStatusChanged(id, TaskStatus.Failed),
      t.(status := TaskStatus.Failed));
    ThenStatus(i, InputEvents(id, r)
      + [TaskStatusChanged(id, TaskStatus.Failed)], WithTask(i, id, t.(status := TaskStatus.Failed)),
      WorkflowStatus.Failed);
  }

  lemma DispatchErrorAccepted(def: WorkflowDef, loops: Loops, i: WorkflowInstance, id: AttemptId, r: ResolvedInputs)
    requires id in i.tasks
    ensures AcceptedBatch(def, loops, i, id, r,
      Batch(InputEvents(id, r) + [TaskStatusChanged(id, TaskStatus.Failed)] + FailWorkflow, StopError))
  {
    DispatchErrorReduced(i, id, r);
    OwnResult(def, loops, i, id, r, WithInputs(i.tasks[id], r).(status := TaskStatus.Failed), WorkflowStatus.Failed);
  }

  lemma InputNeededReduced(i: WorkflowInstance, id: AttemptId, r: ResolvedInputs, request: string)
    requires id in i.tasks
    ensures Reduce(i, InputEvents(id, r)
        + [TaskStatusChanged(id, TaskStatus.InputNeeded(request)),
          WorkflowStatusChanged(WorkflowStatus.InputNeeded)]) ==
      Result.Success(WithTask(i, id, WithInputs(i.tasks[id], r).(status := TaskStatus.InputNeeded(request)))
                     .(status := WorkflowStatus.InputNeeded))
  {
    var t := WithInputs(i.tasks[id], r);
    var asked := t.(status := TaskStatus.InputNeeded(request));
    var a, b := TaskStatusChanged(id, TaskStatus.InputNeeded(request)),
      WorkflowStatusChanged(WorkflowStatus.InputNeeded);
    InputEventsReduce(i, id, r);
    ReduceThenTask(i, InputEvents(id, r), id, t, a, asked);
    ThenStatus(i, InputEvents(id, r) + [a], WithTask(i, id, asked), WorkflowStatus.InputNeeded);
    assert InputEvents(id, r) + [a, b] == InputEvents(id, r) + [a] + [b];
  }

  lemma InputNeededAccepted(def: WorkflowDef, loops: Loops, i: WorkflowInstance, id: AttemptId, r: ResolvedInputs,
      request: string)
    requires id in i.tasks
    ensures AcceptedBatch(def, loops, i, id, r,
      Batch(InputEvents(id, r)
        + [TaskStatusChanged(id, TaskStatus.InputNeeded(request)), WorkflowStatusChanged(WorkflowStatus.InputNeeded)],
        StopOk))
  {
    InputNeededReduced(i, id, r, request);
    OwnResult(def, loops, i, id, r, WithInputs(i.tasks[id], r).(status := TaskStatus.InputNeeded(request)),
      WorkflowStatus.InputNeeded);
  }

  lemma InvalidExitReduced(loops: Loops, i: WorkflowInstance, id: AttemptId, r: ResolvedInputs, task: TaskDef,
      output: Json)
    requires id in i.tasks
    ensures Reduce(i, CompletedEvents(loops, task, id, r, output) + FailTask(id) + FailWorkflow) ==
      Result.Success(WithTask(i, id, FailedTask(Done(loops, task, i.tasks[id], r, output)))
                     .(status := WorkflowStatus.Failed))
  {
    var done := Done(loops, task, i.tasks[id], r, output);
    var xs := CompletedEvents(loops, task, id, r, output);
    CompletedEventsReduce(i, loops, task, id, r, output);
    ThenFail(i, xs, WithTask(i, id, done), id);
    WithTaskTwice(i, id, done, FailedTask(done));
    ThenStatus(i, xs + FailTask(id), WithTask(i, id, FailedTask(done)), WorkflowStatus.Failed);
  }

  lemma InvalidExitAccepted(def: WorkflowDef, loops: Loops, i: WorkflowInstance, id: AttemptId, r: ResolvedInputs,
      task: TaskDef, output: Json)
    requires id in i.tasks && task.id == id.taskDefId
    ensures AcceptedBatch(def, loops, i, id, r,
      Batch(CompletedEvents(loops, task, id, r, output) + FailTask(id) + FailWorkflow, StopError))
  {
    InvalidExitReduced(loops, i, id, r, task, output);
    OwnResult(def, loops, i, id, r, FailedTask(Done(loops, task, i.tasks[id], r, output)), WorkflowStatus.Failed);
  }

  lemma ProceedAccepted(def: WorkflowDef, loops: Loops, i: WorkflowInstance, id: AttemptId, r: ResolvedInputs,
      task: TaskDef, output: Json, reason: Option<string>)
    requires id in i.tasks && i.tasks[id].status.Running? && task.id == id.taskDefId
    ensures AcceptedBatch(def, loops, i, id, r,
      Batch(CompletedEvents(loops, task, id, r, output) + ExitEvents(i.tasks, id, reason), Proceed))
  {
    hide CompletedEvents, ExitEvents, AfterSuccess, Reduce, ResultStep;
    var done := Done(loops, task, i.tasks[id], r, output);
    var j := AfterSuccess(i, id, done, reason.Some?);
    DoneSucceeds(i, id, done, reason.Some?);
    SuccessEventsReduce(i, loops, task, id, r, output, reason);
    SuccessResult(def, loops, i, id, r, done, j.tasks[id], reason.Some?, i.status);
  }

  lemma DoneSucceeds(i: WorkflowInstance, id: AttemptId, done: TaskInstance, exit: bool)
    requires id in i.tasks
    ensures var j := AfterSuccess(i, id, done, exit);
      && id in j.tasks && j.tasks[id] == (if exit then done.(earlyExit := true) else done)
      && WithTask(j, id, j.tasks[id]).(status := i.status) == j
  {
    var j := AfterSuccess(i, id, done, exit);
    assert j.tasks[id := j.tasks[id]] == j.tasks;
  }

  lemma InvalidVerdictReduced(loops: Loops, i: WorkflowInstance, id: AttemptId, r: ResolvedInputs, task: TaskDef,
      output: Json, reason: Option<string>, meta: VerifierMetadata)
    requires id in i.tasks && i.tasks[id].status.Running?
    ensures var j := AfterSuccess(i, id, Done(loops, task, i.tasks[id], r, output), reason.Some?);
      && id in j.tasks
      && Reduce(i, CompletedEvents(loops, task, id, r, output) + ExitEvents(i.tasks, id, reason) + FailTask(id)
                   + [TaskVerifierMetadataSet(id, Some(meta))] + FailWorkflow) ==
         Result.Success(WithTask(j, id, FailedTask(j.tasks[id]).(verifierMetadata := Some(meta)))
                        .(status := WorkflowStatus.Failed))
  {
    var done := Done(loops, task, i.tasks[id], r, output);
    var j := AfterSuccess(i, id, done, reason.Some?);
    var xs := CompletedEvents(loops, task, id, r, output) + ExitEvents(i.tasks, id, reason);
    SuccessEventsReduce(i, loops, task, id, r, output, reason);
    var failed := FailedTask(j.tasks[id]);
    var noted := failed.(verifierMetadata := Some(meta));
    ThenFail(i, xs, j, id);
    ThenTask(i, xs + FailTask(id), WithTask(j, id, failed), id, TaskVerifierMetadataSet(id, Some(meta)));
    WithTaskTwice(j, id, failed, noted);
    ThenStatus(i, xs + FailTask(id)
      + [TaskVerifierMetadataSet(id, Some(meta))], WithTask(j, id, noted), WorkflowStatus.Failed);
  }

  lemma InvalidVerdictAccepted(def: WorkflowDef, loops: Loops, i: WorkflowInstance, id: AttemptId, r: ResolvedInputs,
      task: TaskDef, output: Json, reason: Option<string>, meta: VerifierMetadata)
    requires id in i.tasks && i.tasks[id].status.Running? && task.id == id.taskDefId
    ensures AcceptedBatch(def, loops, i, id, r,
      Batch(CompletedEvents(loops, task, id, r, output) + ExitEvents(i.tasks, id, reason) + FailTask(id)
            + [TaskVerifierMetadataSet(id, Some(meta))] + FailWorkflow, StopError))
  {
    hide CompletedEvents, ExitEvents, AfterSuccess, Reduce, ResultStep;
    var done := Done(loops, task, i.tasks[id], r, output);
    DoneSucceeds(i, id, done, reason.Some?);
    InvalidVerdictReduced(loops, i, id, r, task, output, reason, meta);
    SuccessResult(def, loops, i, id, r, done,
      FailedTask(AfterSuccess(i, id, done, reason.Some?).tasks[id]).(verifierMetadata := Some(meta)), reason.Some?,
      WorkflowStatus.Failed);
  }

  /** The batch for a verdict, reduced: the row of the decision table, and what the pass does afterwards. */
  lemma VerdictReduced(def: WorkflowDef, loops: Loops, i: WorkflowInstance, id: AttemptId, r: ResolvedInputs,
      task: TaskDef, output: Json, reason: Option<string>, verdict: Verdict, j: WorkflowInstance)
    requires id in i.tasks && i.tasks[id].status.Running? && task.verifier.Some? && task.id == id.taskDefId
    requires FindTask(def.tasks, id.taskDefId) == Some(task) && id.taskDefId in loops.body
    requires j == AfterSuccess(i, id, Done(loops, task, i.tasks[id], r, output), reason.Some?)
    requires id in j.tasks && j.tasks[id].taskDefId == id.taskDefId && j.tasks[id].generationIndex == id.generation
    requires id.taskDefId in j.verifierStates
    ensures var v := id.taskDefId;
      var t := VerifierTransition(j, def, loops, id, output, verdict);
      var batch := VerdictBatch(i, def, loops, id, output, CompletedEvents(loops, task, id, r, output)
        + ExitEvents(i.tasks, id, reason), verdict);
      && t.Success? && batch.Batch? && batch.outcome == (if t.value.error.Some? then StopError else Proceed)
      && Reduce(i, batch.events) == Result.Success(WithEffect(j, id, v, loops.body[v], id.generation,
                                                              VerdictEffect(j, task, loops.body[v], id, output,
                                                                verdict)))
  {
    hide CompletedEvents, ExitEvents, AfterSuccess, Done, Accepting, Continuing, WithEffect, VerdictEffect, Reduce;
    var xs := CompletedEvents(loops, task, id, r, output) + ExitEvents(i.tasks, id, reason);
    SuccessEventsReduce(i, loops, task, id, r, output, reason);
    TransitionReduce(j, def, loops, id, output, verdict);
    ReduceAppend(i, xs, VerifierTransition(j, def, loops, id, output, verdict).value.events);
  }

  lemma VerifierStaysUnjudged(def: WorkflowDef, loops: Loops, before: TaskInstance, r: ResolvedInputs, task: TaskDef,
      output: Json)
    requires LoopShape(def, loops) && task.id in loops.body
    ensures Done(loops, task, before, r, output).satisfaction == before.satisfaction
  {
    assert task.id in loops.body[task.id];
  }

  lemma RewrittenStatus(before: Tasks, id: AttemptId, slice: seq<TaskId>, generation: nat, e: Effect, after: Tasks)
    requires Verdicted(before, id, slice, generation, e, after)
    ensures id in after && after[id].status == e.own.task.status
  {
  }

  lemma VerdictAccepted(def: WorkflowDef, loops: Loops, i: WorkflowInstance, id: AttemptId, r: ResolvedInputs,
      task: TaskDef, output: Json, reason: Option<string>, verdict: Verdict)
    requires Dispatched(def, loops, i, id, task) && task.verifier.Some?
    ensures AcceptedBatch(def, loops, i, id, r,
      VerdictBatch(i, def, loops, id, output, CompletedEvents(loops, task, id, r, output)
        + ExitEvents(i.tasks, id, reason), verdict))
  {
    hide CompletedEvents, ExitEvents, VerdictBatch, VerifierTransition, WithEffect, VerdictEffect, Reduce,
      ResultStep, Row,
      Verdicted, LoopShape, Dormant, VerifierChain, SettledIsFinal, StatesBounded;
    var v := id.taskDefId;
    var done := Done(loops, task, i.tasks[id], r, output);
    var j := AfterSuccess(i, id, done, reason.Some?);
    DispatchedVerifierHasState(def, loops, i, id, task);
    VerifierStaysUnjudged(def, loops, i.tasks[id], r, task, output);
    VerdictReduced(def, loops, i, id, r, task, output, reason, verdict, j);
    var e := VerdictEffect(j, task, loops.body[v], id, output, verdict);
    var o := Own(i.status, if reason.Some? then done.(earlyExit := true) else done, i.verifierStates[v]);
    VerdictOutcome(j, def, loops, id, output, verdict, task, o, e);
    var k := WithEffect(j, id, v, loops.body[v], id.generation, e);
    VerdictResult(def, loops, i, id, r, task.verifier.value, done, reason.Some?, o, e, k);
    VerdictTasks(j, id, v, loops.body[v], id.generation, e);
    RewrittenStatus(j.tasks, id, loops.body[v], id.generation, e, k.tasks);
  }

  /** The verdicts that fail the attempt and the workflow. */
  predicate Fails(config: VerifierConfig, generation: nat, interrupted: bool, noOutput: bool, verdict: Verdict) {
    verdict.decision.Continue?
    && (IsBlank(verdict.feedback.GetOr(""))
        || (!interrupted && generation >= config.maxIterations && (!config.onExhaustedContinue || noOutput)))
  }

  lemma DecideFails(o: Own, generation: nat, config: VerifierConfig, interrupted: bool, noOutput: bool,
      verdict: Verdict)
    requires o.task.status.Completed?
    ensures var status := Decide(o, generation, config, interrupted, noOutput, verdict).own.task.status;
      if Fails(config, generation, interrupted, noOutput, verdict) then status.Failed? else status.Completed?
  {
  }

  lemma ContinuingFails(j: WorkflowInstance, task: TaskDef, slice: seq<TaskId>, id: AttemptId, generation: nat,
      output: Json, verdict: Verdict)
    requires task.verifier.Some? && task.id in j.verifierStates && verdict.decision.Continue?
    ensures Continuing(j, task, slice, id, generation, output, verdict).error.Some? <==>
      Fails(task.verifier.value, generation, SliceInterruptedByExit(j.tasks, slice), output.JNull?
        && task.outputSchema.None?, verdict)
  {
  }

  lemma NextIsOpen(o: Own, generation: nat, config: VerifierConfig, interrupted: bool, noOutput: bool, verdict: Verdict)
    ensures Decide(o, generation, config, interrupted, noOutput, verdict).next ==> !interrupted
    ensures Fails(config, generation, interrupted, noOutput, verdict) ==> verdict.decision.Continue?
  {
  }

  lemma AcceptingNeverFails(j: WorkflowInstance, v: TaskId, slice: seq<TaskId>, id: AttemptId, generation: nat,
      verdict: Verdict)
    ensures Accepting(j, v, slice, id, generation, verdict).error.None?
  {
  }

  /** The transition reports an error exactly when it fails the attempt. */
  lemma VerdictOutcome(j: WorkflowInstance, def: WorkflowDef, loops: Loops, id: AttemptId, output: Json,
      verdict: Verdict, task: TaskDef, o: Own, e: Effect)
    requires id in j.tasks && j.tasks[id].taskDefId == id.taskDefId && j.tasks[id].generationIndex == id.generation
    requires FindTask(def.tasks, id.taskDefId) == Some(task) && task.verifier.Some?
    requires id.taskDefId in j.verifierStates && id.taskDefId in loops.body
    requires o == Own(j.status, j.tasks[id], j.verifierStates[id.taskDefId]) && !o.state.Settled()
      && o.task.status.Completed?
    requires e == VerdictEffect(j, task, loops.body[id.taskDefId], id, output, verdict)
    ensures Row(o, id.generation, task.verifier.value, e)
    ensures e.next ==> !SliceInterruptedByExit(j.tasks, loops.body[id.taskDefId])
    ensures VerifierTransition(j, def, loops, id, output, verdict).Success?
    ensures if VerifierTransition(j, def, loops, id, output, verdict).value.error.Some? then e.own.task.status.Failed?
            else e.own.task.status.Completed?
  {
    hide Decide, Fails, Continuing, Accepting, Row, SliceInterruptedByExit;
    var slice := loops.body[id.taskDefId];
    var interrupted, noOutput := SliceInterruptedByExit(j.tasks, slice), output.JNull? && task.outputSchema.None?;
    NextIsOpen(o, id.generation, task.verifier.value, interrupted, noOutput, verdict);
    AcceptingNeverFails(j, id.taskDefId, slice, id, id.generation, verdict);
    DecisionRow(o, id.generation, task.verifier.value, interrupted, noOutput, verdict);
    DecideFails(o, id.generation, task.verifier.value, interrupted, noOutput, verdict);
    if verdict.decision.Continue? { ContinuingFails(j, task, slice, id, id.generation, output, verdict); }
  }

  /** Whatever the dispatcher answers, the engine's batch is accepted and is a result step. */
  lemma ResultAccepted(valid: (Json, Json) -> bool, def: WorkflowDef, loops: Loops, i: WorkflowInstance,
      id: AttemptId, task: TaskDef, r: ResolvedInputs, answer: DispatchAnswer)
    requires Dispatched(def, loops, i, id, task)
    ensures AcceptedBatch(def, loops, i, id, r, ResultEvents(valid, i, def, loops, task, id, r, answer))
  {
    hide AcceptedBatch, SchemaAccepts, ExitRequest, VerdictOf, VerdictBatch, CompletedEvents, ExitEvents, InputEvents,
      LoopShape, KeysMatch, Dormant, VerifierChain, SettledIsFinal, StatesBounded;
    match answer {
      case InputNeeded(request) => InputNeededAccepted(def, loops, i, id, r, request);
      case Failure(_) => FailureAccepted(def, loops, i, id, r);
      case DispatchError => DispatchErrorAccepted(def, loops, i, id, r);
      case Success(output) =>
        if !SchemaAccepts(valid, task, output) {
          FailureAccepted(def, loops, i, id, r);
        } else {
          match ExitRequest(task, output) {
            case Failure(_) => InvalidExitAccepted(def, loops, i, id, r, task, output);
            case Success(reason) =>
              if task.verifier.None? {
                ProceedAccepted(def, loops, i, id, r, task, output, reason);
              } else {
                match VerdictOf(output) {
                  case Failure(error) =>
                    InvalidVerdictAccepted(def, loops, i, id, r, task, output, reason,
                      VerifierMetadata(Invalid, None, None, Some(output), Some(error)));
                  case Success(verdict) => VerdictAccepted(def, loops, i, id, r, task, output, reason, verdict);
                }
              }
          }
        }
    }
  }

  /**
   The reducer accepts every result batch whatever the slices are, overlapping or not. There always is a batch,
   except for the verdict of a verifier without a state, for which the engine builds none.
   */
  lemma ResultReducesOnAnySlices(valid: (Json, Json) -> bool, def: WorkflowDef, loops: Loops, i: WorkflowInstance,
      id: AttemptId, task: TaskDef, r: ResolvedInputs, answer: DispatchAnswer)
    requires id in i.tasks && i.tasks[id].status.Running? && i.tasks[id].taskDefId == id.taskDefId
    requires FindTask(def.tasks, id.taskDefId) == Some(task)
    ensures var batch := ResultEvents(valid, i, def, loops, task, id, r, answer);
      && (batch.Batch? ==> Reduce(i, batch.events).Success?)
      && (batch.NoCommit? <==> GivesVerdict(valid, task, answer) && task.id !in i.verifierStates)
  {
    match answer {
      case InputNeeded(request) => InputNeededAccepted(def, loops, i, id, r, request);
      case Failure(_) => FailureAccepted(def, loops, i, id, r);
      case DispatchError => DispatchErrorAccepted(def, loops, i, id, r);
      case Success(output) =>
        if !SchemaAccepts(valid, task, output) {
          FailureAccepted(def, loops, i, id, r);
        } else {
          match ExitRequest(task, output) {
            case Failure(_) => InvalidExitAccepted(def, loops, i, id, r, task, output);
            case Success(reason) =>
              if task.verifier.None? {
                ProceedAccepted(def, loops, i, id, r, task, output, reason);
              } else {
                match VerdictOf(output) {
                  case Failure(error) =>
                    InvalidVerdictAccepted(def, loops, i, id, r, task, output, reason,
                      VerifierMetadata(Invalid, None, None, Some(output), Some(error)));
                  case Success(verdict) =>
                    VerdictReducesOnAnySlices(def, loops, i, id, r, task, output, reason, verdict);
                }
              }
          }
        }
    }
  }

  lemma VerdictReducesOnAnySlices(def: WorkflowDef, loops: Loops, i: WorkflowInstance, id: AttemptId,
      r: ResolvedInputs, task: TaskDef, output: Json, reason: Option<string>, verdict: Verdict)
    requires id in i.tasks && i.tasks[id].status.Running? && i.tasks[id].taskDefId == id.taskDefId
    requires FindTask(def.tasks, id.taskDefId) == Some(task) && task.verifier.Some?
    ensures var events := CompletedEvents(loops, task, id, r, output) + ExitEvents(i.tasks, id, reason);
      var batch := VerdictBatch(i, def, loops, id, output, events, verdict);
      && (batch.Batch? ==> Reduce(i, batch.events).Success?)
      && (batch.NoCommit? <==> task.id !in i.verifierStates)
  {
    var xs := CompletedEvents(loops, task, id, r, output) + ExitEvents(i.tasks, id, reason);
    SuccessEventsReduce(i, loops, task, id, r, output, reason);
    var j := AfterSuccess(i, id, Done(loops, task, i.tasks[id], r, output), reason.Some?);
    var t := VerifierTransition(j, def, loops, id, output, verdict);
    if t.Success? {
      TransitionReduce(j, def, loops, id, output, verdict);
      ReduceAppend(i, xs, t.value.events);
    }
  }
}
