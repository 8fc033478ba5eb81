/**
 What the engine's batches do to a snapshot. Each kind of event run has a closed form, so that a whole
 batch is a short chain of map updates. None of these lemmas assumes anything about the slices: batches
 are accepted in every iteration order, overlapping slices included.
 */
module EngineEffects {
  import opened Prelude
  import opened JsonValues
  import opened AttemptIds
  import opened Model
  import opened Reducer
  import opened LoopSlices
  import opened Engine

  type Tasks = map<AttemptId, TaskInstance>

  lemma Reduce1(i: WorkflowInstance, a: Event)
    ensures Reduce(i, [a]) == ApplyEvent(i, a)
  {
    if ApplyEvent(i, a).Success? {
      assert [a][1..] == [];
    }
  }

  function WithTask(i: WorkflowInstance, id: AttemptId, task: TaskInstance): WorkflowInstance {
    i.(tasks := i.tasks[id := task])
  }

  lemma WithTaskTwice(i: WorkflowInstance, id: AttemptId, a: TaskInstance, b: TaskInstance)
    ensures WithTask(WithTask(i, id, a), id, b) == WithTask(i, id, b)
  {
    assert i.tasks[id := a][id := b] == i.tasks[id := b];
  }

  lemma Touch1(i: WorkflowInstance, id: AttemptId, a: Event)
    requires id in i.tasks && UpdatesTask(a) && a.id == id
    ensures Reduce(i, [a]) == Result.Success(WithTask(i, id, UpdatedTask(i.tasks[id], a)))
  {
    Reduce1(i, a);
  }

  lemma Touch2(i: WorkflowInstance, id: AttemptId, a: Event, b: Event)
    requires id in i.tasks && UpdatesTask(a) && a.id == id && UpdatesTask(b) && b.id == id
    ensures Reduce(i, [a, b]) == Result.Success(WithTask(i, id, UpdatedTask(UpdatedTask(i.tasks[id], a), b)))
  {
    var t := UpdatedTask(i.tasks[id], a);
    Touch1(i, id, a);
    ReduceAppend(i, [a], [b]);
    assert [a] + [b] == [a, b];
    Touch1(WithTask(i, id, t), id, b);
    WithTaskTwice(i, id, t, UpdatedTask(t, b));
  }

  // ---------------------------------------------------------------------------
  // Runs of events

  function SkipAll(tasks: Tasks, ids: set<AttemptId>): Tasks {
    map x | x in tasks :: if x in ids then tasks[x].(status := Skipped, satisfaction := Unsatisfied) else tasks[x]
  }

  lemma SkipOneMore(tasks: Tasks, id: AttemptId, rest: set<AttemptId>)
    requires id in tasks && id !in rest
    ensures SkipAll(tasks[id := tasks[id].(status := Skipped, satisfaction := Unsatisfied)], rest)
      == SkipAll(tasks, {id} + rest)
  {
  }

  function IdSet(ids: seq<AttemptId>): set<AttemptId> {
    set x | x in ids
  }

  lemma IdSetHead(ids: seq<AttemptId>)
    requires ids != [] && Distinct(ids)
    ensures IdSet(ids) == {ids[0]} + IdSet(ids[1..]) && ids[0] !in IdSet(ids[1..]) && Distinct(ids[1..])
  {
    assert ids == [ids[0]] + ids[1..];
  }

  lemma {:induction false} SkipEventsReduce(i: WorkflowInstance, ids: seq<AttemptId>)
    requires Distinct(ids) && forall x :: x in ids ==> x in i.tasks
    ensures Reduce(i, SkipEvents(ids)) == Result.Success(i.(tasks := SkipAll(i.tasks, IdSet(ids))))
    decreases |ids|
  {
    if ids == [] {
      assert SkipAll(i.tasks, IdSet(ids)) == i.tasks;
    } else {
      IdSetHead(ids);
      hide IdSet, SkipAll, Distinct, Reduce;
      var a, b := TaskStatusChanged(ids[0], Skipped), TaskSatisfactionChanged(ids[0], Unsatisfied);
      var j := WithTask(i, ids[0], i.tasks[ids[0]].(status := Skipped, satisfaction := Unsatisfied));
      Touch2(i, ids[0], a, b);
      ReduceAppend(i, [a, b], SkipEvents(ids[1..]));
      SkipEventsReduce(j, ids[1..]);
      SkipOneMore(i.tasks, ids[0], IdSet(ids[1..]));
    }
  }

  function Satisfy(tasks: Tasks, slice: seq<TaskId>, generation: nat, satisfaction: Satisfaction): Tasks {
    map x | x in tasks ::
      if x.taskDefId in slice && x.generation == generation then tasks[x].(satisfaction := satisfaction) else tasks[x]
  }

  lemma SatisfyHead(tasks: Tasks, slice: seq<TaskId>, generation: nat, s: Satisfaction)
    requires slice != []
    ensures var id := AttemptId(slice[0], generation);
      Satisfy(tasks, slice, generation, s) ==
      Satisfy(if id in tasks then tasks[id := tasks[id].(satisfaction := s)] else tasks, slice[1..], generation, s)
  {
    assert slice == [slice[0]] + slice[1..];
  }

  lemma SatisfyNone(i: WorkflowInstance, generation: nat, s: Satisfaction)
    ensures Reduce(i, []) == Result.Success(i.(tasks := Satisfy(i.tasks, [], generation, s)))
  {
    assert Satisfy(i.tasks, [], generation, s) == i.tasks;
  }

  lemma {:induction false} SatisfactionEventsReduce(i: WorkflowInstance, tasks: Tasks, slice: seq<TaskId>,
      generation: nat, s: Satisfaction)
    requires tasks.Keys == i.tasks.Keys
    ensures Reduce(i, SatisfactionEvents(tasks, slice, generation, s))
      == Result.Success(i.(tasks := Satisfy(i.tasks, slice, generation, s)))
    decreases |slice|
  {
    hide Satisfy, Reduce;
    if slice == [] {
      SatisfyNone(i, generation, s);
    } else {
      var id := AttemptId(slice[0], generation);
      var rest := SatisfactionEvents(tasks, slice[1..], generation, s);
      SatisfyHead(i.tasks, slice, generation, s);
      if id in tasks {
        var a := TaskSatisfactionChanged(id, s);
        var j := WithTask(i, id, i.tasks[id].(satisfaction := s));
        Touch1(i, id, a);
        ReduceAppend(i, [a], rest);
        SatisfactionEventsReduce(j, tasks, slice[1..], generation, s);
      } else {
        assert [] + rest == rest;
        SatisfactionEventsReduce(i, tasks, slice[1..], generation, s);
      }
    }
  }

  function NewIds(tasks: Tasks, slice: seq<TaskId>, generation: nat): set<AttemptId> {
    set k | 0 <= k < |slice| && AttemptId(slice[k], generation) !in tasks :: AttemptId(slice[k], generation)
  }

  function Materialize(tasks: Tasks, ids: set<AttemptId>): Tasks {
    tasks + map x | x in ids :: FreshTask(x.taskDefId, x.generation, None, [])
  }

  lemma MaterializeHead(tasks: Tasks, slice: seq<TaskId>, generation: nat)
    requires slice != []
    ensures var id := AttemptId(slice[0], generation);
      var first := if id in tasks then tasks else tasks[id := FreshTask(slice[0], generation, None, [])];
      && Materialize(tasks, NewIds(tasks, slice, generation))
        == Materialize(first, NewIds(first, slice[1..], generation))
      && first.Keys + NewIds(first, slice[1..], generation) == tasks.Keys + NewIds(tasks, slice, generation)
      && (if id in tasks then {} else {id}) + NewIds(first, slice[1..], generation) == NewIds(tasks, slice, generation)
  {
    hide NewIds;
    var id := AttemptId(slice[0], generation);
    NewIdsStep(tasks, slice, generation);
    if id !in tasks {
      NewIdsAfter(tasks, id, slice[1..], generation, FreshTask(slice[0], generation, None, []));
      var rest := NewIds(tasks, slice[1..], generation);
      MaterializeOne(tasks, id, rest);
    }
  }

  lemma MaterializeOne(tasks: Tasks, id: AttemptId, rest: set<AttemptId>)
    requires id !in tasks
    ensures Materialize(tasks, {id} + rest)
      == Materialize(tasks[id := FreshTask(id.taskDefId, id.generation, None, [])], rest - {id})
  {
  }

  lemma MaterializeThen(i: WorkflowInstance, id: AttemptId, task: TaskInstance, rest: seq<Event>)
    requires id !in i.tasks && Reduce(WithTask(i, id, task), rest).Success?
    ensures Reduce(i, [TaskMaterialized(id, task)] + rest) == Reduce(WithTask(i, id, task), rest)
  {
    Reduce1(i, TaskMaterialized(id, task));
    ReduceAppend(i, [TaskMaterialized(id, task)], rest);
  }

  lemma MaterializeNone(i: WorkflowInstance, generation: nat)
    ensures NewIds(i.tasks, [], generation) == {}
    ensures Reduce(i, []) == Result.Success(i.(tasks := Materialize(i.tasks, NewIds(i.tasks, [], generation))))
  {
    assert Materialize(i.tasks, {}) == i.tasks;
  }

  /** `i` is the snapshot `tasks` came from after the attempts in `planned` were added. */
  lemma {:induction false} GenerationTasksReduce(i: WorkflowInstance, tasks: Tasks, slice: seq<TaskId>,
      generation: nat, planned: set<AttemptId>)
    requires i.tasks.Keys == tasks.Keys + planned
    ensures GenerationTasks(tasks, slice, generation, planned).1 == planned + NewIds(i.tasks, slice, generation)
    ensures Reduce(i, GenerationTasks(tasks, slice, generation, planned).0)
      == Result.Success(i.(tasks := Materialize(i.tasks, NewIds(i.tasks, slice, generation))))
    decreases |slice|
  {
    hide Materialize, NewIds, Reduce, FreshTask;
    if slice == [] {
      MaterializeNone(i, generation);
    } else {
      var id := AttemptId(slice[0], generation);
      MaterializeHead(i.tasks, slice, generation);
      if id in tasks || id in planned {
        assert id in i.tasks.Keys;
        GenerationTasksReduce(i, tasks, slice[1..], generation, planned);
      } else {
        assert id !in i.tasks.Keys;
        var task := FreshTask(slice[0], generation, None, []);
        GenerationTasksReduce(WithTask(i, id, task), tasks, slice[1..], generation, planned + {id});
        MaterializeThen(i, id, task, GenerationTasks(tasks, slice[1..], generation, planned + {id}).0);
      }
    }
  }

  lemma NewIdsStep(tasks: Tasks, slice: seq<TaskId>, generation: nat)
    requires slice != []
    ensures NewIds(tasks, slice, generation) ==
      (if AttemptId(slice[0], generation) in tasks then {} else {AttemptId(slice[0], generation)})
        + NewIds(tasks, slice[1..], generation)
  {
    var all, rest := NewIds(tasks, slice, generation), NewIds(tasks, slice[1..], generation);
    forall x | x in all && x != AttemptId(slice[0], generation) ensures x in rest {
      var k :| 0 <= k < |slice| && AttemptId(slice[k], generation) == x;
      assert slice[1..][k - 1] == slice[k];
    }
    forall x | x in rest ensures x in all {
      var k :| 0 <= k < |slice| - 1 && AttemptId(slice[1..][k], generation) == x;
      assert slice[k + 1] == slice[1..][k];
    }
  }

  lemma NewIdsAfter(tasks: Tasks, id: AttemptId, slice: seq<TaskId>, generation: nat, task: TaskInstance)
    ensures NewIds(tasks[id := task], slice, generation) == NewIds(tasks, slice, generation) - {id}
  {
  }

  // ---------------------------------------------------------------------------
  // Events on the attempt that ran

  /** The completed attempt as the result batch leaves it before any exit, failure or verdict. */
  function Done(loops: Loops, def: TaskDef, task: TaskInstance, r: ResolvedInputs, output: Json): TaskInstance {
    task.(inputData := r.values, inputMapping := r.mapping, status := TaskStatus.Completed,
          satisfaction := if IsTaskInLoopSlice(loops, def.id) then task.satisfaction else Satisfied,
          outputData := if def.effectiveOutputSchema.Some? then Some(output) else task.outputData)
  }

  lemma InputEventsReduce(i: WorkflowInstance, id: AttemptId, r: ResolvedInputs)
    requires id in i.tasks
    ensures Reduce(i, InputEvents(id, r)) ==
      Result.Success(WithTask(i, id, i.tasks[id].(inputData := r.values, inputMapping := r.mapping)))
  {
    Touch2(i, id, TaskInputDataSet(id, r.values), TaskInputMappingSet(id, r.mapping));
  }

  lemma FailTaskReduce(i: WorkflowInstance, id: AttemptId)
    requires id in i.tasks
    ensures Reduce(i, FailTask(id)) ==
      Result.Success(WithTask(i, id, i.tasks[id].(status := TaskStatus.Failed, satisfaction := Unsatisfied)))
  {
    Touch2(i, id, TaskStatusChanged(id, TaskStatus.Failed), TaskSatisfactionChanged(id, Unsatisfied));
  }

  lemma CompletedEventsReduce(i: WorkflowInstance, loops: Loops, def: TaskDef, id: AttemptId, r: ResolvedInputs,
      output: Json)
    requires id in i.tasks
    ensures Reduce(i, CompletedEvents(loops, def, id, r, output)) ==
      Result.Success(WithTask(i, id, Done(loops, def, i.tasks[id], r, output)))
  {
    var t1 := i.tasks[id].(inputData := r.values, inputMapping := r.mapping);
    InputEventsReduce(i, id, r);
    var t2 := t1.(status := TaskStatus.Completed);
    var e2 := InputEvents(id, r) + [TaskStatusChanged(id, TaskStatus.Completed)];
    ReduceThenTask(i, InputEvents(id, r), id, t1, TaskStatusChanged(id, TaskStatus.Completed), t2);
    var t3 := if IsTaskInLoopSlice(loops, def.id) then t2 else t2.(satisfaction := Satisfied);
    var e3 := e2 + if IsTaskInLoopSlice(loops, def.id) then [] else [TaskSatisfactionChanged(id, Satisfied)];
    if IsTaskInLoopSlice(loops, def.id) {
      assert e3 == e2;
    } else {
      ReduceThenTask(i, e2, id, t2, TaskSatisfactionChanged(id, Satisfied), t3);
    }
    var e4 := e3 + if def.effectiveOutputSchema.Some? then [TaskOutputRecorded(id, Some(output))] else [];
    if def.effectiveOutputSchema.Some? {
      ReduceThenTask(i, e3, id, t3, TaskOutputRecorded(id, Some(output)), t3.(outputData := Some(output)));
    } else {
      assert e4 == e3;
    }
    assert e4 == CompletedEvents(loops, def, id, r, output);
  }

  /** One more event on an attempt the batch has already rewritten. */
  lemma ReduceThenTask(i: WorkflowInstance, events: seq<Event>, id: AttemptId, before: TaskInstance, event: Event,
      after: TaskInstance)
    requires id in i.tasks && Reduce(i, events) == Result.Success(WithTask(i, id, before))
    requires UpdatesTask(event) && event.id == id && after == UpdatedTask(before, event)
    ensures Reduce(i, events + [event]) == Result.Success(WithTask(i, id, after))
  {
    ReduceAppend(i, events, [event]);
    Touch1(WithTask(i, id, before), id, event);
    WithTaskTwice(i, id, before, after);
  }

  /** The snapshot after the attempt completed, with the exit's skips when there is an exit reason. */
  function AfterSuccess(i: WorkflowInstance, id: AttemptId, done: TaskInstance, exit: bool): WorkflowInstance {
    if exit then i.(tasks := SkipAll(i.tasks, PendingIds(i.tasks))[id := done.(earlyExit := true)])
    else WithTask(i, id, done)
  }

  lemma SkipAround(i: WorkflowInstance, id: AttemptId, done: TaskInstance)
    requires id in i.tasks && i.tasks[id].status.Running?
    ensures SkipAll(WithTask(i, id, done).tasks, PendingIds(i.tasks))
      == SkipAll(i.tasks, PendingIds(i.tasks))[id := done]
  {
  }

  lemma ExitEventsReduce(i: WorkflowInstance, xs: seq<Event>, id: AttemptId, done: TaskInstance, reason: Option<string>)
    requires id in i.tasks && i.tasks[id].status.Running?
    requires Reduce(i, xs) == Result.Success(WithTask(i, id, done))
    ensures Reduce(i, xs + ExitEvents(i.tasks, id, reason)) == Result.Success(AfterSuccess(i, id, done, reason.Some?))
  {
    if reason.None? {
      assert xs + [] == xs;
    } else {
      var exit := TaskEarlyExitSet(id, true);
      ReduceThenTask(i, xs, id, done, exit, done.(earlyExit := true));
      var k := WithTask(i, id, done.(earlyExit := true));
      var ids := SortIds(PendingIds(i.tasks));
      ReduceAppend(i, xs + [exit], SkipEvents(ids));
      assert xs + [exit] + SkipEvents(ids) == xs + ([exit] + SkipEvents(ids));
      SkipEventsReduce(k, ids);
      assert IdSet(ids) == PendingIds(i.tasks);
      SkipAround(i, id, done.(earlyExit := true));
    }
  }

  lemma SuccessEventsReduce(i: WorkflowInstance, loops: Loops, def: TaskDef, id: AttemptId, r: ResolvedInputs,
      output: Json, reason: Option<string>)
    requires id in i.tasks && i.tasks[id].status.Running?
    ensures Reduce(i, CompletedEvents(loops, def, id, r, output) + ExitEvents(i.tasks, id, reason)) ==
      Result.Success(AfterSuccess(i, id, Done(loops, def, i.tasks[id], r, output), reason.Some?))
  {
    CompletedEventsReduce(i, loops, def, id, r, output);
    ExitEventsReduce(i, CompletedEvents(loops, def, id, r, output), id, Done(loops, def, i.tasks[id], r, output),
      reason);
  }

  // ---------------------------------------------------------------------------
  // Verifier transitions

  /** What a batch rewrites besides the slice: workflow status, the verifier's attempt and its state. */
  datatype Own = Own(status: WorkflowStatus, task: TaskInstance, state: VerifierState)

  predicate IsOwn(id: AttemptId, v: TaskId, event: Event) {
    match event
    case WorkflowStatusChanged(_) => true
    case VerifierFeedbackRecorded(u, _) => u == v
    case VerifierStateStatusChanged(u, _, _, _) => u == v
    case VerifierStateUpserted(u, _) => u == v
    case _ => UpdatesTask(event) && event.id == id
  }

  function Step(o: Own, event: Event): Own {
    match event
    case WorkflowStatusChanged(s) => o.(status := s)
    case VerifierStateUpserted(_, state) => o.(state := state)
    case VerifierFeedbackRecorded(_, _) => o.(state := UpdatedState(o.state, event))
    case VerifierStateStatusChanged(_, _, _, _) => o.(state := UpdatedState(o.state, event))
    case _ => o.(task := UpdatedTask(o.task, event))
  }

  function WithOwn(j: WorkflowInstance, id: AttemptId, v: TaskId, o: Own): WorkflowInstance {
    j.(status := o.status, tasks := j.tasks[id := o.task], verifierStates := j.verifierStates[v := o.state])
  }

  function Steps(o: Own, events: seq<Event>): Own
    decreases |events|
  {
    if events == [] then o else Steps(Step(o, events[0]), events[1..])
  }

  lemma OwnEvent(j: WorkflowInstance, id: AttemptId, v: TaskId, o: Own, event: Event)
    requires IsOwn(id, v, event)
    ensures ApplyEvent(WithOwn(j, id, v, o), event) == Result.Success(WithOwn(j, id, v, Step(o, event)))
  {
    var p := Step(o, event);
    assert j.tasks[id := o.task][id := p.task] == j.tasks[id := p.task];
    assert j.verifierStates[v := o.state][v := p.state] == j.verifierStates[v := p.state];
  }

  lemma {:induction false} OwnEvents(j: WorkflowInstance, id: AttemptId, v: TaskId, o: Own, events: seq<Event>)
    requires forall k :: 0 <= k < |events| ==> IsOwn(id, v, events[k])
    ensures Reduce(WithOwn(j, id, v, o), events) == Result.Success(WithOwn(j, id, v, Steps(o, events)))
    decreases |events|
  {
    if events != [] {
      OwnEvent(j, id, v, o, events[0]);
      OwnEvents(j, id, v, Step(o, events[0]), events[1..]);
    }
  }

  lemma Steps2(o: Own, a: Event, b: Event)
    ensures Steps(o, [a, b]) == Step(Step(o, a), b)
  {
    assert [a, b][1..] == [b];
    assert Steps(Step(o, a), [b]) == Step(Step(o, a), b);
  }

  lemma Steps3(o: Own, a: Event, b: Event, c: Event)
    ensures Steps(o, [a, b, c]) == Step(Step(Step(o, a), b), c)
  {
    assert [a, b, c][1..] == [b, c];
    Steps2(Step(o, a), b, c);
  }

  lemma Steps4(o: Own, a: Event, b: Event, c: Event, d: Event)
    ensures Steps(o, [a, b, c, d]) == Step(Step(Step(Step(o, a), b), c), d)
  {
    assert [a, b, c, d][1..] == [b, c, d];
    Steps3(Step(o, a), b, c, d);
  }

  lemma {:induction false} StepsAppend(o: Own, xs: seq<Event>, ys: seq<Event>)
    ensures Steps(o, xs + ys) == Steps(Steps(o, xs), ys)
    decreases |xs|
  {
    if xs == [] {
      assert xs + ys == ys;
    } else {
      assert (xs + ys)[1..] == xs[1..] + ys;
      StepsAppend(Step(o, xs[0]), xs[1..], ys);
    }
  }

  /**
   The decision table of a verdict: what becomes of the attempt, the verifier state and the satisfaction
   of the generation, and whether the next generation is materialised.
   */
  datatype Effect = Effect(own: Own, satisfaction: Option<Satisfaction>, next: bool)

  const Exhausted: Option<string> := Some("max_iterations_exhausted")

  function Noted(task: TaskInstance, status: VerifierAttemptStatus, verdict: Verdict, feedback: Option<string>,
      reason: Option<string>): TaskInstance
  {
    task.(verifierMetadata :=
      Some(VerifierMetadata(status, Some(verdict.decision), feedback, Some(verdict.output), reason)))
  }

  function FailedTask(task: TaskInstance): TaskInstance {
    task.(status := TaskStatus.Failed, satisfaction := Unsatisfied)
  }

  function Recorded(state: VerifierState, entry: FeedbackEntry): VerifierState {
    state.(feedbackHistory := state.feedbackHistory + [entry])
  }

  function AcceptOwn(o: Own, generation: nat, verdict: Verdict): Own {
    Own(o.status, Noted(o.task, VerifierAttemptStatus.Accepted, verdict, verdict.feedback, Some("complete")),
        o.state.(status := VerifierStateStatus.Accepted, selectedGeneration := Some(generation), exitReason :=
          Some("complete")))
  }

  function BlankOwn(o: Own, verdict: Verdict): Own {
    Own(WorkflowStatus.Failed,
        Noted(FailedTask(o.task), Invalid, verdict, verdict.feedback,
          Some("continue decision requires non-empty feedback")),
        o.state)
  }

  function InterruptedOwn(o: Own, entry: FeedbackEntry, verdict: Verdict): Own {
    Own(o.status, Noted(o.task, Rejected, verdict, Some(entry.feedback), Some("slice_interrupted_by_early_exit")),
        Recorded(o.state, entry))
  }

  function RetryOwn(o: Own, entry: FeedbackEntry, verdict: Verdict): Own {
    Own(o.status, Noted(o.task, Rejected, verdict, Some(entry.feedback), None),
        Recorded(o.state, entry).(latestGeneration := entry.generationIndex + 1, status := VerifierStateStatus.Running,
                                  selectedGeneration := None, exitReason := None))
  }

  function SpentOwn(o: Own, entry: FeedbackEntry, verdict: Verdict, status: VerifierStateStatus,
      reason: Option<string>): Own
  {
    Own(WorkflowStatus.Failed,
        Noted(FailedTask(o.task), VerifierAttemptStatus.ExhaustedFailed, verdict, Some(entry.feedback), reason),
        Recorded(o.state, entry).(status := status, exitReason := Exhausted))
  }

  function ExhaustedOwn(o: Own, entry: FeedbackEntry, verdict: Verdict): Own {
    Own(o.status, Noted(o.task, VerifierAttemptStatus.ExhaustedAccepted, verdict, Some(entry.feedback), Exhausted),
        Recorded(o.state, entry).(status := VerifierStateStatus.ExhaustedAccepted,
                                  selectedGeneration := Some(entry.generationIndex), exitReason := Exhausted))
  }

  function Decide(o: Own, generation: nat, config: VerifierConfig, interrupted: bool, noOutput: bool,
      verdict: Verdict): Effect
  {
    var entry := FeedbackEntry(generation, verdict.feedback.GetOr(""), verdict.output);
    if verdict.decision.Complete? then Effect(AcceptOwn(o, generation, verdict), Some(Satisfied), false)
    else if IsBlank(entry.feedback) then Effect(BlankOwn(o, verdict), None, false)
    else if interrupted then Effect(InterruptedOwn(o, entry, verdict), Some(Unsatisfied), false)
    else if generation < config.maxIterations then Effect(RetryOwn(o, entry, verdict), Some(Unsatisfied), true)
    else Spending(o, entry, config, noOutput, verdict)
  }

  /** The rows of a spent budget. */
  function Spending(o: Own, entry: FeedbackEntry, config: VerifierConfig, noOutput: bool, verdict: Verdict): Effect {
    if !config.onExhaustedContinue then
      Effect(SpentOwn(o, entry, verdict, VerifierStateStatus.ExhaustedFailed, Exhausted), Some(Unsatisfied), false)
    else if noOutput then
      Effect(SpentOwn(o, entry, verdict, VerifierStateStatus.Failed, Some("no schema-valid latest generation output")),
        None, false)
    else Effect(ExhaustedOwn(o, entry, verdict), Some(Satisfied), false)
  }

  function VerdictEffect(j: WorkflowInstance, def: TaskDef, slice: seq<TaskId>, id: AttemptId, output: Json,
      verdict: Verdict): Effect
    requires id in j.tasks && def.verifier.Some? && def.id in j.verifierStates
  {
    Decide(Own(j.status, j.tasks[id], j.verifierStates[def.id]), j.tasks[id].generationIndex, def.verifier.value,
           SliceInterruptedByExit(j.tasks, slice), output.JNull? && def.outputSchema.None?, verdict)
  }

  // The own events of each row of the table.

  lemma AcceptSteps(o: Own, v: TaskId, id: AttemptId, generation: nat, verdict: Verdict)
    ensures Steps(o, [VerifierStateStatusChanged(v, VerifierStateStatus.Accepted, Some(generation), Some("complete")),
                      Metadata(id, VerifierAttemptStatus.Accepted, verdict, verdict.feedback, Some("complete"))])
      == AcceptOwn(o, generation, verdict)
  {
    Steps2(o, VerifierStateStatusChanged(v, VerifierStateStatus.Accepted, Some(generation), Some("complete")),
           Metadata(id, VerifierAttemptStatus.Accepted, verdict, verdict.feedback, Some("complete")));
  }

  lemma BlankSteps(o: Own, id: AttemptId, verdict: Verdict)
    ensures Steps(o, [WorkflowStatusChanged(WorkflowStatus.Failed), TaskStatusChanged(id, TaskStatus.Failed),
      TaskSatisfactionChanged(id, Unsatisfied),
                      Metadata(id, Invalid, verdict, verdict.feedback,
                        Some("continue decision requires non-empty feedback"))])
      == BlankOwn(o, verdict)
  {
    Steps4(o, WorkflowStatusChanged(WorkflowStatus.Failed), TaskStatusChanged(id, TaskStatus.Failed),
      TaskSatisfactionChanged(id, Unsatisfied),
           Metadata(id, Invalid, verdict, verdict.feedback, Some("continue decision requires non-empty feedback")));
  }

  lemma InterruptedSteps(o: Own, v: TaskId, id: AttemptId, entry: FeedbackEntry, verdict: Verdict)
    ensures Steps(o, [VerifierFeedbackRecorded(v, entry),
                      Metadata(id, Rejected, verdict, Some(entry.feedback), Some("slice_interrupted_by_early_exit"))])
      == InterruptedOwn(o, entry, verdict)
  {
    Steps2(o, VerifierFeedbackRecorded(v, entry),
           Metadata(id, Rejected, verdict, Some(entry.feedback), Some("slice_interrupted_by_early_exit")));
  }

  /** The Upserted state carries the entry that was Recorded: it lands in the history once. */
  lemma RetrySteps(o: Own, v: TaskId, id: AttemptId, entry: FeedbackEntry, verdict: Verdict)
    ensures Steps(o, [VerifierFeedbackRecorded(v, entry),
      VerifierStateUpserted(v, NextState(o.state, entry.generationIndex, entry)),
                      Metadata(id, Rejected, verdict, Some(entry.feedback), None)])
      == RetryOwn(o, entry, verdict)
  {
    hide Steps;
    var a := VerifierFeedbackRecorded(v, entry);
    var b := VerifierStateUpserted(v, NextState(o.state, entry.generationIndex, entry));
    var noted := o.(state := NextState(o.state, entry.generationIndex, entry));
    Steps3(o, a, b, Metadata(id, Rejected, verdict, Some(entry.feedback), None));
    assert Step(Step(o, a), b) == noted;
  }

  lemma SpentSteps(o: Own, v: TaskId, id: AttemptId, entry: FeedbackEntry, verdict: Verdict,
      status: VerifierStateStatus, reason: Option<string>)
    ensures Steps(o, [VerifierFeedbackRecorded(v, entry),
      VerifierStateStatusChanged(v, status, o.state.selectedGeneration, Exhausted),
                      WorkflowStatusChanged(WorkflowStatus.Failed), TaskStatusChanged(id, TaskStatus.Failed),
                        TaskSatisfactionChanged(id, Unsatisfied),
                      Metadata(id, VerifierAttemptStatus.ExhaustedFailed, verdict, Some(entry.feedback), reason)])
      == SpentOwn(o, entry, verdict, status, reason)
  {
    hide Steps, SpentOwn, Recorded, Metadata;
    var a, b := VerifierFeedbackRecorded(v, entry),
      VerifierStateStatusChanged(v, status, o.state.selectedGeneration, Exhausted);
    var c, d := WorkflowStatusChanged(WorkflowStatus.Failed), TaskStatusChanged(id, TaskStatus.Failed);
    var e, f := TaskSatisfactionChanged(id, Unsatisfied),
      Metadata(id, VerifierAttemptStatus.ExhaustedFailed, verdict, Some(entry.feedback), reason);
    SpentState(o, v, entry, status);
    SpentAttempt(o, id, entry, verdict, status, reason);
    StepsAppend(o, [a, b, c], [d, e, f]);
    assert [a, b, c] + [d, e, f] == [a, b, c, d, e, f];
  }

  function Spent(o: Own, entry: FeedbackEntry, status: VerifierStateStatus): Own {
    Own(WorkflowStatus.Failed, o.task, Recorded(o.state, entry).(status := status, exitReason := Exhausted))
  }

  lemma SpentState(o: Own, v: TaskId, entry: FeedbackEntry, status: VerifierStateStatus)
    ensures Steps(o, [VerifierFeedbackRecorded(v, entry),
      VerifierStateStatusChanged(v, status, o.state.selectedGeneration, Exhausted),
                      WorkflowStatusChanged(WorkflowStatus.Failed)]) == Spent(o, entry, status)
  {
    Steps3(o, VerifierFeedbackRecorded(v, entry),
      VerifierStateStatusChanged(v, status, o.state.selectedGeneration, Exhausted),
           WorkflowStatusChanged(WorkflowStatus.Failed));
  }

  lemma SpentAttempt(o: Own, id: AttemptId, entry: FeedbackEntry, verdict: Verdict, status: VerifierStateStatus,
      reason: Option<string>)
    ensures Steps(Spent(o, entry, status),
      [TaskStatusChanged(id, TaskStatus.Failed), TaskSatisfactionChanged(id, Unsatisfied),
                                            Metadata(id, VerifierAttemptStatus.ExhaustedFailed, verdict,
                                              Some(entry.feedback), reason)])
      == SpentOwn(o, entry, verdict, status, reason)
  {
    Steps3(Spent(o, entry, status), TaskStatusChanged(id, TaskStatus.Failed), TaskSatisfactionChanged(id, Unsatisfied),
           Metadata(id, VerifierAttemptStatus.ExhaustedFailed, verdict, Some(entry.feedback), reason));
  }

  lemma ExhaustedSteps(o: Own, v: TaskId, id: AttemptId, entry: FeedbackEntry, verdict: Verdict)
    ensures Steps(o, [VerifierFeedbackRecorded(v, entry),
                      VerifierStateStatusChanged(v, VerifierStateStatus.ExhaustedAccepted, Some(entry.generationIndex),
                        Exhausted),
                      Metadata(id, VerifierAttemptStatus.ExhaustedAccepted, verdict, Some(entry.feedback), Exhausted)])
      == ExhaustedOwn(o, entry, verdict)
  {
    Steps3(o, VerifierFeedbackRecorded(v, entry),
           VerifierStateStatusChanged(v, VerifierStateStatus.ExhaustedAccepted, Some(entry.generationIndex), Exhausted),
           Metadata(id, VerifierAttemptStatus.ExhaustedAccepted, verdict, Some(entry.feedback), Exhausted));
  }

  function Judged(tasks: Tasks, slice: seq<TaskId>, generation: nat, satisfaction: Option<Satisfaction>): Tasks {
    if satisfaction.None? then tasks else Satisfy(tasks, slice, generation, satisfaction.value)
  }

  function Extended(tasks: Tasks, slice: seq<TaskId>, generation: nat, next: bool): Tasks {
    if next then Materialize(tasks, NewIds(tasks, slice, generation + 1)) else tasks
  }

  function WithEffect(j: WorkflowInstance, id: AttemptId, v: TaskId, slice: seq<TaskId>, generation: nat,
      e: Effect): WorkflowInstance
  {
    var k := WithOwn(j, id, v, e.own);
    k.(tasks := Extended(Judged(k.tasks, slice, generation, e.satisfaction), slice, generation, e.next))
  }

  /** Own events, then satisfaction events, then the next generation: the shape of every transition. */
  lemma ShapeReduce(j: WorkflowInstance, tasks: Tasks, id: AttemptId, v: TaskId, slice: seq<TaskId>, generation: nat,
    own: seq<Event>, e: Effect)
    requires id in j.tasks && v in j.verifierStates && tasks.Keys == j.tasks.Keys
    requires forall k :: 0 <= k < |own| ==> IsOwn(id, v, own[k])
    requires Steps(Own(j.status, j.tasks[id], j.verifierStates[v]), own) == e.own
    ensures var events := own
        + (if e.satisfaction.None? then [] else SatisfactionEvents(tasks, slice, generation, e.satisfaction.value))
        + (if e.next then GenerationTasks(tasks, slice, generation + 1, {}).0 else []);
      Reduce(j, events) == Result.Success(WithEffect(j, id, v, slice, generation, e))
  {
    var o := Own(j.status, j.tasks[id], j.verifierStates[v]);
    assert WithOwn(j, id, v, o) == j;
    OwnEvents(j, id, v, o, own);
    var k := WithOwn(j, id, v, e.own);
    var judging := if e.satisfaction.None? then []
      else SatisfactionEvents(tasks, slice, generation, e.satisfaction.value);
    var l := k.(tasks := Judged(k.tasks, slice, generation, e.satisfaction));
    assert Reduce(k, judging) == Result.Success(l) by {
      if e.satisfaction.Some? { SatisfactionEventsReduce(k, tasks, slice, generation, e.satisfaction.value); }
    }
    ReduceAppend(j, own, judging);
    var extending := if e.next then GenerationTasks(tasks, slice, generation + 1, {}).0 else [];
    if e.next { GenerationTasksReduce(l, tasks, slice, generation + 1, {}); }
    ReduceAppend(j, own + judging, extending);
  }

  /** Every verdict is accepted by the reducer and does what the decision table says. */
  lemma TransitionReduce(j: WorkflowInstance, def: WorkflowDef, loops: Loops, id: AttemptId, output: Json,
      verdict: Verdict)
    requires VerifierTransition(j, def, loops, id, output, verdict).Success?
    ensures var v := j.tasks[id].taskDefId;
      var slice := if v in loops.body then loops.body[v] else [v];
      Reduce(j, VerifierTransition(j, def, loops, id, output, verdict).value.events) ==
      Result.Success(WithEffect(j, id, v, slice, j.tasks[id].generationIndex,
                                VerdictEffect(j, FindTask(def.tasks, v).value, slice, id, output, verdict)))
  {
    var v := j.tasks[id].taskDefId;
    var slice := if v in loops.body then loops.body[v] else [v];
    VerdictReduce(j, FindTask(def.tasks, v).value, slice, id, output, verdict);
  }

  ghost predicate Performs(j: WorkflowInstance, events: seq<Event>, def: TaskDef, slice: seq<TaskId>, id: AttemptId,
      e: Effect)
    requires id in j.tasks
  {
    Reduce(j, events) == Result.Success(WithEffect(j, id, def.id, slice, j.tasks[id].generationIndex, e))
  }

  lemma VerdictReduce(j: WorkflowInstance, def: TaskDef, slice: seq<TaskId>, id: AttemptId, output: Json,
      verdict: Verdict)
    requires id in j.tasks && def.verifier.Some? && def.id in j.verifierStates
    ensures var generation := j.tasks[id].generationIndex;
      var t := match verdict.decision
        case Complete => Accepting(j, def.id, slice, id, generation, verdict)
        case Continue => Continuing(j, def, slice, id, generation, output, verdict);
      Performs(j, t.events, def, slice, id, VerdictEffect(j, def, slice, id, output, verdict))
  {
    hide Performs, Reduce, SatisfactionEvents, GenerationTasks, SliceInterruptedByExit, IsBlank, Exhausting, Retrying,
      Spending, RetryOwn, InterruptedOwn, BlankOwn, AcceptOwn;
    if verdict.decision.Complete? {
      AcceptReduce(j, def, slice, id, verdict);
    } else if IsBlank(verdict.feedback.GetOr("")) {
      BlankReduce(j, def, slice, id, verdict);
    } else {
      var entry := FeedbackEntry(j.tasks[id].generationIndex, verdict.feedback.GetOr(""), verdict.output);
      if SliceInterruptedByExit(j.tasks, slice) {
        InterruptedReduce(j, def, slice, id, entry, verdict);
      } else if entry.generationIndex < def.verifier.value.maxIterations {
        RetryReduce(j, def, slice, id, entry, verdict);
      } else {
        ExhaustingReduce(j, def, slice, id, entry, output, verdict);
      }
    }
  }

  lemma ExhaustingReduce(j: WorkflowInstance, def: TaskDef, slice: seq<TaskId>, id: AttemptId, entry: FeedbackEntry,
      output: Json, verdict: Verdict)
    requires id in j.tasks && def.verifier.Some? && def.id in j.verifierStates
    requires entry.generationIndex == j.tasks[id].generationIndex
    ensures Performs(j, [VerifierFeedbackRecorded(def.id, entry)]
      + Exhausting(j, def, slice, id, entry.generationIndex, output, verdict, entry.feedback).events, def, slice, id,
      Spending(Own(j.status, j.tasks[id], j.verifierStates[def.id]), entry, def.verifier.value,
               output.JNull? && def.outputSchema.None?, verdict))
  {
    hide Performs, Reduce, SatisfactionEvents, SpentOwn, ExhaustedOwn;
    if !def.verifier.value.onExhaustedContinue {
      SpentReduce(j, def, slice, id, entry, verdict, VerifierStateStatus.ExhaustedFailed, Exhausted, Some(Unsatisfied));
    } else if output.JNull? && def.outputSchema.None? {
      NoMore(Exhausting(j, def, slice, id, entry.generationIndex, output, verdict, entry.feedback).events);
      SpentReduce(j, def, slice, id, entry, verdict, VerifierStateStatus.Failed,
        Some("no schema-valid latest generation output"), None);
    } else {
      ExhaustedReduce(j, def, slice, id, entry, verdict);
    }
  }

  lemma AcceptReduce(j: WorkflowInstance, def: TaskDef, slice: seq<TaskId>, id: AttemptId, verdict: Verdict)
    requires id in j.tasks && def.id in j.verifierStates
    ensures var generation := j.tasks[id].generationIndex;
      Performs(j, Accepting(j, def.id, slice, id, generation, verdict).events, def, slice, id,
               Effect(AcceptOwn(Own(j.status, j.tasks[id], j.verifierStates[def.id]), generation, verdict),
                 Some(Satisfied), false))
  {
    hide SatisfactionEvents, GenerationTasks, WithEffect, Reduce, Steps, AcceptOwn;
    var generation := j.tasks[id].generationIndex;
    var o := Own(j.status, j.tasks[id], j.verifierStates[def.id]);
    AcceptSteps(o, def.id, id, generation, verdict);
    var own := [VerifierStateStatusChanged(def.id, VerifierStateStatus.Accepted, Some(generation), Some("complete")),
                Metadata(id, VerifierAttemptStatus.Accepted, verdict, verdict.feedback, Some("complete"))];
    ShapeReduce(j, j.tasks, id, def.id, slice, generation, own,
      Effect(AcceptOwn(o, generation, verdict), Some(Satisfied), false));
    NoMore(own + SatisfactionEvents(j.tasks, slice, generation, Satisfied));
  }

  lemma NoMore(xs: seq<Event>)
    ensures xs + [] == xs
  {
  }

  lemma BlankReduce(j: WorkflowInstance, def: TaskDef, slice: seq<TaskId>, id: AttemptId, verdict: Verdict)
    requires id in j.tasks && def.id in j.verifierStates
    ensures Performs(j, [WorkflowStatusChanged(WorkflowStatus.Failed)] + FailTask(id)
        + [Metadata(id, Invalid, verdict, verdict.feedback, Some("continue decision requires non-empty feedback"))],
          def, slice, id,
        Effect(BlankOwn(Own(j.status, j.tasks[id], j.verifierStates[def.id]), verdict), None, false))
  {
    hide SatisfactionEvents, GenerationTasks, WithEffect, Reduce, Steps, BlankOwn;
    var o := Own(j.status, j.tasks[id], j.verifierStates[def.id]);
    var meta := Metadata(id, Invalid, verdict, verdict.feedback, Some("continue decision requires non-empty feedback"));
    BlankSteps(o, id, verdict);
    var own := [WorkflowStatusChanged(WorkflowStatus.Failed), TaskStatusChanged(id, TaskStatus.Failed),
      TaskSatisfactionChanged(id, Unsatisfied), meta];
    ShapeReduce(j, j.tasks, id, def.id, slice, j.tasks[id].generationIndex, own,
      Effect(BlankOwn(o, verdict), None, false));
    assert [WorkflowStatusChanged(WorkflowStatus.Failed)] + FailTask(id) + [meta] == own;
    NoMore(own);
  }

  lemma InterruptedReduce(j: WorkflowInstance, def: TaskDef, slice: seq<TaskId>, id: AttemptId, entry: FeedbackEntry,
      verdict: Verdict)
    requires id in j.tasks && def.id in j.verifierStates
    ensures Performs(j, [VerifierFeedbackRecorded(def.id, entry)]
        + ([Metadata(id, Rejected, verdict, Some(entry.feedback), Some("slice_interrupted_by_early_exit"))])
        + SatisfactionEvents(j.tasks, slice, j.tasks[id].generationIndex, Unsatisfied), def, slice, id,
        Effect(InterruptedOwn(Own(j.status, j.tasks[id], j.verifierStates[def.id]), entry, verdict), Some(Unsatisfied),
          false))
  {
    hide SatisfactionEvents, GenerationTasks, WithEffect, Reduce, Steps, InterruptedOwn;
    var o := Own(j.status, j.tasks[id], j.verifierStates[def.id]);
    var generation := j.tasks[id].generationIndex;
    InterruptedSteps(o, def.id, id, entry, verdict);
    var own := [VerifierFeedbackRecorded(def.id, entry),
                Metadata(id, Rejected, verdict, Some(entry.feedback), Some("slice_interrupted_by_early_exit"))];
    ShapeReduce(j, j.tasks, id, def.id, slice, generation, own,
      Effect(InterruptedOwn(o, entry, verdict), Some(Unsatisfied), false));
    assert [own[0]] + [own[1]] == own;
    NoMore(own + SatisfactionEvents(j.tasks, slice, generation, Unsatisfied));
  }

  lemma RetryEvents(j: WorkflowInstance, v: TaskId, slice: seq<TaskId>, id: AttemptId, entry: FeedbackEntry,
      verdict: Verdict)
    requires v in j.verifierStates && !SliceInterruptedByExit(j.tasks, slice)
    ensures [VerifierFeedbackRecorded(v, entry)] + Retrying(j, v, slice, id, entry.generationIndex, entry, verdict)
      == [VerifierFeedbackRecorded(v, entry),
        VerifierStateUpserted(v, NextState(j.verifierStates[v], entry.generationIndex, entry)),
          Metadata(id, Rejected, verdict, Some(entry.feedback), None)]
         + SatisfactionEvents(j.tasks, slice, entry.generationIndex, Unsatisfied)
         + GenerationTasks(j.tasks, slice, entry.generationIndex + 1, {}).0
  {
    hide SatisfactionEvents, GenerationTasks, SliceInterruptedByExit, NextState, Metadata;
  }

  lemma RetryReduce(j: WorkflowInstance, def: TaskDef, slice: seq<TaskId>, id: AttemptId, entry: FeedbackEntry,
      verdict: Verdict)
    requires id in j.tasks && def.id in j.verifierStates && !SliceInterruptedByExit(j.tasks, slice)
    requires entry.generationIndex == j.tasks[id].generationIndex
    ensures Performs(j, [VerifierFeedbackRecorded(def.id, entry)]
      + Retrying(j, def.id, slice, id, entry.generationIndex, entry, verdict),
        def, slice, id, Effect(RetryOwn(Own(j.status, j.tasks[id], j.verifierStates[def.id]), entry, verdict),
          Some(Unsatisfied), true))
  {
    hide RetryOwn, Retrying, Reduce, WithEffect, SatisfactionEvents, GenerationTasks, SliceInterruptedByExit, Steps;
    var o := Own(j.status, j.tasks[id], j.verifierStates[def.id]);
    var own := [VerifierFeedbackRecorded(def.id, entry),
      VerifierStateUpserted(def.id, NextState(o.state, entry.generationIndex, entry)),
                Metadata(id, Rejected, verdict, Some(entry.feedback), None)];
    RetrySteps(o, def.id, id, entry, verdict);
    RetryEvents(j, def.id, slice, id, entry, verdict);
    ShapeReduce(j, j.tasks, id, def.id, slice, entry.generationIndex, own,
      Effect(RetryOwn(o, entry, verdict), Some(Unsatisfied), true));
  }

  lemma SixThen(a: Event, b: Event, c: Event, d: Event, e: Event, f: Event, xs: seq<Event>)
    ensures [a] + ([b, c] + [d, e] + [f] + xs) == [a, b, c, d, e, f] + xs
  {
  }

  lemma SpentReduce(j: WorkflowInstance, def: TaskDef, slice: seq<TaskId>, id: AttemptId, entry: FeedbackEntry,
      verdict: Verdict, status: VerifierStateStatus, reason: Option<string>, satisfaction: Option<Satisfaction>)
    requires id in j.tasks && def.id in j.verifierStates
    ensures Performs(j, [VerifierFeedbackRecorded(def.id, entry)]
        + ([VerifierStateStatusChanged(def.id, status, j.verifierStates[def.id].selectedGeneration, Exhausted),
            WorkflowStatusChanged(WorkflowStatus.Failed)] + FailTask(id)
           + [Metadata(id, VerifierAttemptStatus.ExhaustedFailed, verdict, Some(entry.feedback), reason)]
           + (if satisfaction.None? then []
             else SatisfactionEvents(j.tasks, slice, j.tasks[id].generationIndex, satisfaction.value))),
        def, slice, id, Effect(SpentOwn(Own(j.status, j.tasks[id], j.verifierStates[def.id]), entry, verdict, status,
          reason), satisfaction, false))
  {
    hide SatisfactionEvents, GenerationTasks, WithEffect, Reduce, Steps, SpentOwn;
    var o := Own(j.status, j.tasks[id], j.verifierStates[def.id]);
    var generation := j.tasks[id].generationIndex;
    SpentSteps(o, def.id, id, entry, verdict, status, reason);
    var own := [VerifierFeedbackRecorded(def.id, entry),
      VerifierStateStatusChanged(def.id, status, o.state.selectedGeneration, Exhausted),
                WorkflowStatusChanged(WorkflowStatus.Failed), TaskStatusChanged(id, TaskStatus.Failed),
                  TaskSatisfactionChanged(id, Unsatisfied),
                Metadata(id, VerifierAttemptStatus.ExhaustedFailed, verdict, Some(entry.feedback), reason)];
    ShapeReduce(j, j.tasks, id, def.id, slice, generation, own,
      Effect(SpentOwn(o, entry, verdict, status, reason), satisfaction, false));
    var judging := if satisfaction.None? then []
      else SatisfactionEvents(j.tasks, slice, generation, satisfaction.value);
    SixThen(own[0], own[1], own[2], own[3], own[4], own[5], judging);
    NoMore(own + judging);
  }

  lemma ExhaustedReduce(j: WorkflowInstance, def: TaskDef, slice: seq<TaskId>, id: AttemptId, entry: FeedbackEntry,
      verdict: Verdict)
    requires id in j.tasks && def.id in j.verifierStates
    requires entry.generationIndex == j.tasks[id].generationIndex
    ensures Performs(j, [VerifierFeedbackRecorded(def.id, entry)]
        + ([VerifierStateStatusChanged(def.id, VerifierStateStatus.ExhaustedAccepted, Some(entry.generationIndex),
          Exhausted),
            Metadata(id, VerifierAttemptStatus.ExhaustedAccepted, verdict, Some(entry.feedback), Exhausted)]
           + SatisfactionEvents(j.tasks, slice, entry.generationIndex, Satisfied)),
        def, slice, id, Effect(ExhaustedOwn(Own(j.status, j.tasks[id], j.verifierStates[def.id]), entry, verdict),
          Some(Satisfied), false))
  {
    hide SatisfactionEvents, GenerationTasks, WithEffect, Reduce, Steps, ExhaustedOwn;
    var o := Own(j.status, j.tasks[id], j.verifierStates[def.id]);
    ExhaustedSteps(o, def.id, id, entry, verdict);
    var own := [VerifierFeedbackRecorded(def.id, entry),
                VerifierStateStatusChanged(def.id, VerifierStateStatus.ExhaustedAccepted, Some(entry.generationIndex),
                  Exhausted),
                Metadata(id, VerifierAttemptStatus.ExhaustedAccepted, verdict, Some(entry.feedback), Exhausted)];
    ShapeReduce(j, j.tasks, id, def.id, slice, entry.generationIndex, own,
      Effect(ExhaustedOwn(o, entry, verdict), Some(Satisfied), false));
    var judging := SatisfactionEvents(j.tasks, slice, entry.generationIndex, Satisfied);
    assert [own[0]] + ([own[1], own[2]] + judging) == own + judging;
    NoMore(own + judging);
  }
}
