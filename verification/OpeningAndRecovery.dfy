/**
 The remaining writers of a snapshot keep the invariants too: the first pass, opening loops, starting an
 attempt, status changes, recovery, retries and human input.
 */
module OpeningAndRecovery {
  import opened Prelude
  import opened JsonValues
  import opened AttemptIds
  import opened Model
  import opened Reducer
  import opened LoopSlices
  import opened Engine
  import opened EngineEffects
  import opened EngineInvariants
  import opened EngineSteps

  // ---------------------------------------------------------------------------
  // Status changes

  lemma StatusKeepsInv(def: WorkflowDef, loops: Loops, i: WorkflowInstance, s: WorkflowStatus)
    requires Inv(def, loops, i) && (!i.status.Failed? || s.Failed?)
    ensures ApplyEvent(i, WorkflowStatusChanged(s)) == Result.Success(i.(status := s))
    ensures Inv(def, loops, i.(status := s)) && Evolves(i, i.(status := s))
  {
  }

  // ---------------------------------------------------------------------------
  // Attempts that start, are recovered or are retried

  /** Live attempts trade pending, running and failed among each other; nothing else moves. */
  ghost predicate Moves(loops: Loops, before: Tasks, states: States, after: Tasks) {
    && after.Keys == before.Keys
    && forall x :: x in before && after[x] != before[x] ==> MayMove(loops, states, x) && Moved(before[x], after[x])
  }

  ghost predicate MayMove(loops: Loops, states: States, x: AttemptId) {
    forall v :: v in loops.body && x.taskDefId in loops.body[v] ==> v in states
  }

  ghost predicate Moved(before: TaskInstance, after: TaskInstance) {
    && (before.status.Pending? || before.status.Running? || before.status.Failed?)
    && (after.status.Pending? || after.status.Running?)
    && after.taskDefId == before.taskDefId && after.generationIndex == before.generationIndex
    && after.inputData == before.inputData && after.inputMapping == before.inputMapping
    && (after.satisfaction == before.satisfaction || !after.satisfaction.Satisfied?)
  }

  lemma MovesEvolve(loops: Loops, i: WorkflowInstance, j: WorkflowInstance)
    requires Moves(loops, i.tasks, i.verifierStates, j.tasks) && j.verifierStates == i.verifierStates
    ensures Evolves(i, j)
  {
  }

  lemma MovesKeepShape(def: WorkflowDef, loops: Loops, i: WorkflowInstance, j: WorkflowInstance)
    requires Moves(loops, i.tasks, i.verifierStates, j.tasks) && j.verifierStates == i.verifierStates
    requires KeysMatch(def, i.tasks) && Initialised(def, i) && Dormant(loops, i.tasks, i.verifierStates)
    ensures KeysMatch(def, j.tasks) && Initialised(def, j) && Dormant(loops, j.tasks, j.verifierStates)
  {
    forall v | v in loops.body && v !in j.verifierStates ensures Untouched(j.tasks, loops.body[v]) {
      assert Untouched(i.tasks, loops.body[v]);
      assert forall x :: x in i.tasks && x.taskDefId in loops.body[v] ==> j.tasks[x] == i.tasks[x];
    }
  }

  lemma MovesKeepLoops(loops: Loops, i: WorkflowInstance, j: WorkflowInstance)
    requires Moves(loops, i.tasks, i.verifierStates, j.tasks) && j.verifierStates == i.verifierStates
    requires SatisfiedIsSelected(loops, i.tasks, i.verifierStates) && VerifierChain(loops, i.tasks)
    requires SettledIsFinal(loops, i.tasks, i.verifierStates)
    ensures SatisfiedIsSelected(loops, j.tasks, j.verifierStates) && VerifierChain(loops, j.tasks)
    ensures SettledIsFinal(loops, j.tasks, j.verifierStates)
  {
    forall v | v in loops.body && v in j.verifierStates && j.verifierStates[v].Settled()
      ensures FinalAttempt(j.tasks, v, j.verifierStates[v].selectedGeneration)
    {
      assert FinalAttempt(i.tasks, v, i.verifierStates[v].selectedGeneration);
    }
    forall x | x in j.tasks && x.taskDefId in loops.body && x.generation >= 2
      ensures Previous(x) in j.tasks && Finished(j.tasks[Previous(x)])
    {
      assert Finished(i.tasks[Previous(x)]);
    }
  }

  lemma MovesKeepInv(def: WorkflowDef, loops: Loops, i: WorkflowInstance, j: WorkflowInstance)
    requires Inv(def, loops, i)
    requires Moves(loops, i.tasks, i.verifierStates, j.tasks) && j.verifierStates == i.verifierStates
    requires FailureIsTerminal(j)
    ensures Inv(def, loops, j) && Evolves(i, j)
  {
    MovesEvolve(loops, i, j);
    MovesKeepShape(def, loops, i, j);
    MovesKeepLoops(loops, i, j);
    ProvenanceEvolves(def, loops, i, j);
  }

  /** An attempt that has left Pending and Skipped belongs to an opened loop, or to none. */
  lemma LiveMayMove(loops: Loops, tasks: Tasks, states: States, x: AttemptId)
    requires Dormant(loops, tasks, states) && x in tasks
    requires !tasks[x].status.Pending? && !tasks[x].status.Skipped?
    ensures MayMove(loops, states, x)
  {
    forall v | v in loops.body && x.taskDefId in loops.body[v] ensures v in states {
      assert v !in states ==> Untouched(tasks, loops.body[v]);
    }
  }

  function Started(i: WorkflowInstance, id: AttemptId): WorkflowInstance
    requires id in i.tasks
  {
    WithTask(i, id, i.tasks[id].(status := TaskStatus.Running))
  }

  lemma StartMoves(loops: Loops, i: WorkflowInstance, id: AttemptId)
    requires id in i.tasks && i.tasks[id].status.Pending? && MayMove(loops, i.verifierStates, id)
    ensures Moves(loops, i.tasks, i.verifierStates, Started(i, id).tasks)
  {
  }

  lemma StartKeepsFailure(i: WorkflowInstance, id: AttemptId)
    requires FailureIsTerminal(i) && id in i.tasks
    ensures FailureIsTerminal(Started(i, id))
  {
    assert forall x :: x in Started(i, id).tasks && Started(i, id).tasks[x].status.Failed?
             ==> i.tasks[x].status.Failed?;
  }

  lemma StartKeepsInv(def: WorkflowDef, loops: Loops, i: WorkflowInstance, id: AttemptId)
    requires Inv(def, loops, i) && id in i.tasks && i.tasks[id].status.Pending? && MayMove(loops, i.verifierStates, id)
    ensures ApplyEvent(i, TaskStatusChanged(id, TaskStatus.Running)) == Result.Success(Started(i, id))
    ensures Inv(def, loops, Started(i, id)) && Evolves(i, Started(i, id))
  {
    hide KeysMatch, Initialised, StatesBounded, Dormant, SatisfiedIsSelected, VerifierChain, SettledIsFinal,
      FailureIsTerminal, Provenance, Moves, Evolves;
    StartMoves(loops, i, id);
    StartKeepsFailure(i, id);
    MovesKeepInv(def, loops, i, Started(i, id));
  }

  lemma RecoveryMoves(loops: Loops, i: WorkflowInstance, ids: seq<AttemptId>)
    requires Dormant(loops, i.tasks, i.verifierStates) && ApplyEvent(i, StartupRecoveryApplied(ids)).Success?
    ensures Moves(loops, i.tasks, i.verifierStates, ApplyEvent(i, StartupRecoveryApplied(ids)).value.tasks)
    ensures ApplyEvent(i, StartupRecoveryApplied(ids)).value.verifierStates == i.verifierStates
  {
    var j := ApplyEvent(i, StartupRecoveryApplied(ids)).value;
    RecoverAttemptsFrame(i.tasks, ids);
    forall x | x in i.tasks && j.tasks[x] != i.tasks[x] ensures MayMove(loops, i.verifierStates, x) {
      LiveMayMove(loops, i.tasks, i.verifierStates, x);
    }
  }

  lemma RecoveryKeepsFailure(i: WorkflowInstance, ids: seq<AttemptId>)
    requires FailureIsTerminal(i) && ApplyEvent(i, StartupRecoveryApplied(ids)).Success?
    ensures FailureIsTerminal(ApplyEvent(i, StartupRecoveryApplied(ids)).value)
  {
    RecoverAttemptsFrame(i.tasks, ids);
  }

  lemma RecoveryKeepsInv(def: WorkflowDef, loops: Loops, i: WorkflowInstance, ids: seq<AttemptId>)
    requires Inv(def, loops, i) && ApplyEvent(i, StartupRecoveryApplied(ids)).Success?
    ensures Inv(def, loops, ApplyEvent(i, StartupRecoveryApplied(ids)).value)
    ensures Evolves(i, ApplyEvent(i, StartupRecoveryApplied(ids)).value)
  {
    hide Moves, Evolves, FailureIsTerminal, ApplyEvent;
    RecoveryMoves(loops, i, ids);
    RecoveryKeepsFailure(i, ids);
    MovesKeepInv(def, loops, i, ApplyEvent(i, StartupRecoveryApplied(ids)).value);
  }

  lemma RetryMoves(loops: Loops, i: WorkflowInstance, id: AttemptId)
    requires ResetFailedTask(i, id).Success? && MayMove(loops, i.verifierStates, id)
    ensures Moves(loops, i.tasks, i.verifierStates, ResetFailedTask(i, id).value.tasks)
  {
  }

  /** The only failed attempt is the one reset, so none is left in the workflow that runs again. */
  lemma RetryClearsFailure(i: WorkflowInstance, id: AttemptId)
    requires FailureIsTerminal(i) && ResetFailedTask(i, id).Success?
    ensures FailureIsTerminal(ResetFailedTask(i, id).value)
    ensures var j := ResetFailedTask(i, id).value; forall x :: x in j.tasks ==> !j.tasks[x].status.Failed?
  {
    var j := ResetFailedTask(i, id).value;
    forall x | x in j.tasks ensures !j.tasks[x].status.Failed? {
      assert x != id ==> j.tasks[x] == i.tasks[x];
    }
  }

  lemma RetryKeepsInv(def: WorkflowDef, loops: Loops, i: WorkflowInstance, id: AttemptId)
    requires Inv(def, loops, i) && ResetFailedTask(i, id).Success?
    ensures Inv(def, loops, ResetFailedTask(i, id).value) && Evolves(i, ResetFailedTask(i, id).value)
  {
    LiveMayMove(loops, i.tasks, i.verifierStates, id);
    RetryMoves(loops, i, id);
    RetryClearsFailure(i, id);
    MovesKeepInv(def, loops, i, ResetFailedTask(i, id).value);
  }

  // ---------------------------------------------------------------------------
  // Human input

  function Continued(i: WorkflowInstance, id: AttemptId, input: Json): WorkflowInstance
    requires id in i.tasks
  {
    i.(tasks := i.tasks[AttemptId(id.taskDefId, id.generation + 1) :=
      FreshTask(id.taskDefId, id.generation + 1, Some(input), [])],
       status := WorkflowStatus.Pending)
  }

  lemma HumanShape(def: WorkflowDef, loops: Loops, i: WorkflowInstance, id: AttemptId, input: Json)
    requires KeysMatch(def, i.tasks) && Initialised(def, i) && Dormant(loops, i.tasks, i.verifierStates)
    requires id in i.tasks && i.tasks[id].status.InputNeeded? && AttemptId(id.taskDefId, id.generation + 1) !in i.tasks
    ensures KeysMatch(def, Continued(i, id, input).tasks) && Initialised(def, Continued(i, id, input))
    ensures Dormant(loops, Continued(i, id, input).tasks, i.verifierStates)
  {
    var j := Continued(i, id, input);
    LiveMayMove(loops, i.tasks, i.verifierStates, id);
    forall v | v in loops.body && v !in i.verifierStates ensures Untouched(j.tasks, loops.body[v]) {
      assert Untouched(i.tasks, loops.body[v]);
      assert forall x :: x in j.tasks && x.taskDefId in loops.body[v] ==> x in i.tasks && j.tasks[x] == i.tasks[x];
    }
  }

  lemma HumanLoops(def: WorkflowDef, loops: Loops, i: WorkflowInstance, id: AttemptId, input: Json)
    requires KeysMatch(def, i.tasks)
    requires SatisfiedIsSelected(loops, i.tasks, i.verifierStates) && VerifierChain(loops, i.tasks)
    requires SettledIsFinal(loops, i.tasks, i.verifierStates)
    requires id in i.tasks && i.tasks[id].status.InputNeeded? && AttemptId(id.taskDefId, id.generation + 1) !in i.tasks
    ensures SatisfiedIsSelected(loops, Continued(i, id, input).tasks, i.verifierStates)
    ensures VerifierChain(loops, Continued(i, id, input).tasks)
    ensures SettledIsFinal(loops, Continued(i, id, input).tasks, i.verifierStates)
  {
    var j := Continued(i, id, input);
    forall x | x in j.tasks && x.taskDefId in loops.body && x.generation >= 2
      ensures Previous(x) in j.tasks && Finished(j.tasks[Previous(x)])
    {
      if x in i.tasks {
        assert Finished(i.tasks[Previous(x)]);
      } else {
        assert Previous(x) == id;
      }
    }
    forall v | v in loops.body && v in i.verifierStates && i.verifierStates[v].Settled()
      ensures FinalAttempt(j.tasks, v, i.verifierStates[v].selectedGeneration)
    {
      assert FinalAttempt(i.tasks, v, i.verifierStates[v].selectedGeneration);
    }
  }

  lemma HumanEvolves(i: WorkflowInstance, id: AttemptId, input: Json)
    requires id in i.tasks && AttemptId(id.taskDefId, id.generation + 1) !in i.tasks
    ensures Evolves(i, Continued(i, id, input))
  {
  }

  lemma HumanKeepsFailure(i: WorkflowInstance, id: AttemptId, input: Json)
    requires FailureIsTerminal(i) && !i.status.Failed? && id in i.tasks
    ensures FailureIsTerminal(Continued(i, id, input))
  {
  }

  lemma HumanKeepsProvenance(def: WorkflowDef, loops: Loops, i: WorkflowInstance, id: AttemptId, input: Json)
    requires Provenance(def, loops, i.tasks, i.verifierStates)
    requires id in i.tasks && AttemptId(id.taskDefId, id.generation + 1) !in i.tasks
    ensures Provenance(def, loops, Continued(i, id, input).tasks, i.verifierStates)
  {
    HumanEvolves(i, id, input);
    ProvenanceEvolves(def, loops, i, Continued(i, id, input));
  }

  lemma HumanAccepted(def: WorkflowDef, i: WorkflowInstance, id: AttemptId, continuationId: AttemptId, input: Json)
    requires KeysMatch(def, i.tasks)
    requires ApplyEvent(i, HumanInputSubmitted(id, continuationId, input)).Success?
    ensures id in i.tasks && i.tasks[id].status.InputNeeded? && AttemptId(id.taskDefId, id.generation + 1) !in i.tasks
    ensures ApplyEvent(i, HumanInputSubmitted(id, continuationId, input)) == Result.Success(Continued(i, id, input))
  {
  }

  lemma HumanKeepsInv(def: WorkflowDef, loops: Loops, i: WorkflowInstance, id: AttemptId, continuationId: AttemptId,
      input: Json)
    requires Inv(def, loops, i) && !i.status.Failed?
    requires ApplyEvent(i, HumanInputSubmitted(id, continuationId, input)).Success?
    ensures id in i.tasks
    ensures ApplyEvent(i, HumanInputSubmitted(id, continuationId, input)) == Result.Success(Continued(i, id, input))
    ensures Inv(def, loops, Continued(i, id, input)) && Evolves(i, Continued(i, id, input))
  {
    HumanAccepted(def, i, id, continuationId, input);
    HumanShape(def, loops, i, id, input);
    HumanLoops(def, loops, i, id, input);
    HumanEvolves(i, id, input);
    HumanKeepsFailure(i, id, input);
    HumanKeepsProvenance(def, loops, i, id, input);
  }

  // ---------------------------------------------------------------------------
  // First pass

  ghost predicate FreshFirst(def: WorkflowDef, tasks: Tasks) {
    forall id :: id in tasks ==>
      id.generation == 1 && id.taskDefId in TaskIds(def)
      && tasks[id] == FreshTask(id.taskDefId, 1, None, tasks[id].inputData)
  }

  lemma {:induction false} InitialEventsReduce(i: WorkflowInstance, def: WorkflowDef, tasks: seq<TaskDef>,
      at: WorkflowInstance)
    requires forall a, b :: 0 <= a < b < |tasks| ==> tasks[a].id != tasks[b].id
    requires forall t :: t in tasks ==> t.id in TaskIds(def) && AttemptId(t.id, 1) !in at.tasks
    requires FreshFirst(def, at.tasks)
    ensures Reduce(at, InitialTaskEvents(i, def, tasks)).Success?
    ensures var j := Reduce(at, InitialTaskEvents(i, def, tasks)).value;
      && j == at.(tasks := j.tasks) && FreshFirst(def, j.tasks)
      && at.tasks.Keys <= j.tasks.Keys && (forall t :: t in tasks ==> AttemptId(t.id, 1) in j.tasks)
    decreases |tasks|
  {
    if tasks != [] {
      var id := AttemptId(tasks[0].id, 1);
      var event := TaskMaterialized(id, FreshTask(tasks[0].id, 1, None, InitialInput(i, def, tasks[0])));
      var next := WithTask(at, id, event.task);
      Reduce1(at, event);
      ReduceAppend(at, [event], InitialTaskEvents(i, def, tasks[1..]));
      InitialEventsReduce(i, def, tasks[1..], next);
    }
  }

  lemma FreshKeepsInv(def: WorkflowDef, loops: Loops, i: WorkflowInstance, j: WorkflowInstance)
    requires i.tasks == map[] && i.verifierStates == map[] && j == i.(tasks := j.tasks)
    requires FreshFirst(def, j.tasks) && forall t :: t in TaskIds(def) ==> AttemptId(t, 1) in j.tasks
    ensures Inv(def, loops, j) && Evolves(i, j)
  {
  }

  /** The first pass gives every task one pending attempt. */
  lemma InitialKeepsInv(def: WorkflowDef, loops: Loops, i: WorkflowInstance)
    requires UniqueIds(def) && Inv(def, loops, i) && i.tasks == map[]
    ensures Reduce(i, InitialTaskEvents(i, def, def.tasks)).Success?
    ensures var j := Reduce(i, InitialTaskEvents(i, def, def.tasks)).value;
      Inv(def, loops, j) && Evolves(i, j) && j.status == i.status && (def.tasks != [] ==> j.tasks != map[])
  {
    assert forall t :: t in def.tasks ==> t.id in TaskIds(def);
    InitialEventsReduce(i, def, def.tasks, i);
    var j := Reduce(i, InitialTaskEvents(i, def, def.tasks)).value;
    assert i.verifierStates == map[];
    FreshKeepsInv(def, loops, i, j);
    if def.tasks != [] { assert AttemptId(def.tasks[0].id, 1) in j.tasks; }
  }

  // ---------------------------------------------------------------------------
  // Opening loops

  ghost predicate Opened(def: WorkflowDef, loops: Loops, i: WorkflowInstance, order: seq<TaskId>, j: WorkflowInstance) {
    && (forall v :: v in j.verifierStates <==> v in i.verifierStates || (v in order && Eligible(i, def, loops, v)))
    && (forall v :: v in i.verifierStates ==> j.verifierStates[v] == i.verifierStates[v])
    && (forall v :: v in j.verifierStates && v !in i.verifierStates ==> j.verifierStates[v] == FirstState(def, v))
  }

  /** Attempts added by opening loops are fresh first attempts of opened slices. */
  ghost predicate OpenedTasks(def: WorkflowDef, loops: Loops, i: WorkflowInstance, j: WorkflowInstance) {
    && (forall x :: x in i.tasks ==> x in j.tasks && j.tasks[x] == i.tasks[x])
    && (forall x :: x in j.tasks && x !in i.tasks ==>
          x.generation == 1 && j.tasks[x] == FreshTask(x.taskDefId, 1, None, [])
          && exists v :: v in loops.body && Eligible(i, def, loops, v) && x.taskDefId in loops.body[v])
  }

  /**
   The batch that opens loops is accepted in every iteration order, also when slices overlap: `at` is the
   snapshot after the slices before `order`, and `planned` what they materialised.
   */
  lemma {:induction false} OpeningReduces(def: WorkflowDef, loops: Loops, i: WorkflowInstance, done: seq<TaskId>,
      order: seq<TaskId>, planned: set<AttemptId>, at: WorkflowInstance)
    requires at == i.(tasks := at.tasks, verifierStates := at.verifierStates)
    requires at.tasks.Keys == i.tasks.Keys + planned && OpenedTasks(def, loops, i, at)
      && Opened(def, loops, i, done, at)
    ensures Reduce(at, InitialGenerationEvents(i, def, loops, order, planned)).Success?
    ensures var j := Reduce(at, InitialGenerationEvents(i, def, loops, order, planned)).value;
      && j == i.(tasks := j.tasks, verifierStates := j.verifierStates)
      && OpenedTasks(def, loops, i, j) && Opened(def, loops, i, done + order, j)
    decreases |order|
  {
    hide OpenedTasks, Opened, Eligible, Reduce, Materialize, NewIds, GenerationEvents, FirstState;
    if order == [] {
      ReduceNothing(at);
      assert done + order == done;
    } else {
      var v := order[0];
      assert done + order == done + [v] + order[1..];
      if !Eligible(i, def, loops, v) {
        IneligibleOpensNothing(def, loops, i, done, v, at);
        OpeningReduces(def, loops, i, done + [v], order[1..], planned, at);
      } else {
        EligibleHasSlice(def, loops, i, v);
        var (tasks, all) := GenerationEvents(i.tasks, loops.body[v], 1, planned);
        var upsert := VerifierStateUpserted(v, FirstState(def, v));
        var next := at.(verifierStates := at.verifierStates[v := FirstState(def, v)],
                        tasks := Materialize(at.tasks, NewIds(at.tasks, loops.body[v], 1)));
        OneOpening(def, loops, i, v, planned, at, next);
        OpeningStep(def, loops, i, done, v, planned, at, next);
        ReduceAppend(at, [upsert] + tasks, InitialGenerationEvents(i, def, loops, order[1..], all));
        OpeningReduces(def, loops, i, done + [v], order[1..], all, next);
      }
    }
  }

  lemma ReduceNothing(i: WorkflowInstance)
    ensures Reduce(i, []) == Result.Success(i)
  {
  }

  lemma EligibleHasSlice(def: WorkflowDef, loops: Loops, i: WorkflowInstance, v: TaskId)
    requires Eligible(i, def, loops, v)
    ensures v in loops.body
  {
  }

  lemma IneligibleOpensNothing(def: WorkflowDef, loops: Loops, i: WorkflowInstance, done: seq<TaskId>, v: TaskId,
      at: WorkflowInstance)
    requires Opened(def, loops, i, done, at) && !Eligible(i, def, loops, v)
    ensures Opened(def, loops, i, done + [v], at)
  {
    hide Eligible;
  }

  /** The events of one slice that opens. */
  lemma OneOpening(def: WorkflowDef, loops: Loops, i: WorkflowInstance, v: TaskId, planned: set<AttemptId>,
      at: WorkflowInstance, next: WorkflowInstance)
    requires at.tasks.Keys == i.tasks.Keys + planned && Eligible(i, def, loops, v)
    requires next == at.(verifierStates := at.verifierStates[v := FirstState(def, v)],
                         tasks := Materialize(at.tasks, NewIds(at.tasks, loops.body[v], 1)))
    ensures v in loops.body
    ensures var (tasks, all) := GenerationEvents(i.tasks, loops.body[v], 1, planned);
      && all == planned + NewIds(at.tasks, loops.body[v], 1)
      && Reduce(at, [VerifierStateUpserted(v, FirstState(def, v))] + tasks) == Result.Success(next)
  {
    hide Reduce, Materialize, NewIds, FirstState, ReadyOutsideSlice;
    var upsert := VerifierStateUpserted(v, FirstState(def, v));
    var mid := at.(verifierStates := at.verifierStates[v := FirstState(def, v)]);
    Reduce1(at, upsert);
    GenerationTasksReduce(mid, i.tasks, loops.body[v], 1, planned);
    ReduceAppend(at, [upsert], GenerationEvents(i.tasks, loops.body[v], 1, planned).0);
  }

  lemma OpeningStep(def: WorkflowDef, loops: Loops, i: WorkflowInstance, done: seq<TaskId>, v: TaskId,
      planned: set<AttemptId>, at: WorkflowInstance, next: WorkflowInstance)
    requires at == i.(tasks := at.tasks, verifierStates := at.verifierStates) && Eligible(i, def, loops, v)
    requires at.tasks.Keys == i.tasks.Keys + planned && OpenedTasks(def, loops, i, at)
      && Opened(def, loops, i, done, at)
    requires next == i.(verifierStates := at.verifierStates[v := FirstState(def, v)],
                        tasks := Materialize(at.tasks, NewIds(at.tasks, loops.body[v], 1)))
    ensures OpenedTasks(def, loops, i, next) && Opened(def, loops, i, done + [v], next)
    ensures next.tasks.Keys == i.tasks.Keys + (planned + NewIds(at.tasks, loops.body[v], 1))
  {
    forall x | x in next.tasks && x !in at.tasks ensures x.generation == 1 && x.taskDefId in loops.body[v] {
      assert x in NewIds(at.tasks, loops.body[v], 1);
    }
  }

  lemma FirstAttemptExists(def: WorkflowDef, loops: Loops, i: WorkflowInstance, x: AttemptId)
    requires SlicesDefined(def, loops) && Initialised(def, i) && i.tasks != map[]
    requires x.generation == 1 && exists v ::
      v in loops.body && Eligible(i, def, loops, v) && x.taskDefId in loops.body[v]
    ensures x in i.tasks
  {
    assert x == AttemptId(x.taskDefId, 1);
  }

  /** Once first attempts exist, opening loops adds states and no attempts. */
  lemma OpeningAddsStates(def: WorkflowDef, loops: Loops, i: WorkflowInstance, j: WorkflowInstance)
    requires SlicesDefined(def, loops) && Initialised(def, i) && i.tasks != map[]
    requires OpenedTasks(def, loops, i, j)
    ensures j.tasks == i.tasks
  {
    forall x | x in j.tasks ensures x in i.tasks {
      if x !in i.tasks { FirstAttemptExists(def, loops, i, x); }
    }
  }

  lemma OpeningKeepsInv(def: WorkflowDef, loops: Loops, i: WorkflowInstance)
    requires LoopShape(def, loops) && Inv(def, loops, i) && i.tasks != map[]
    ensures Reduce(i, InitialGenerationEvents(i, def, loops, loops.order, {})).Success?
    ensures var j := Reduce(i, InitialGenerationEvents(i, def, loops, loops.order, {})).value;
      && j == i.(verifierStates := j.verifierStates) && Opened(def, loops, i, loops.order, j)
      && Inv(def, loops, j) && Evolves(i, j)
  {
    hide Inv, LoopShape, Opened, OpenedTasks, SlicesDefined, Initialised, Evolves, InitialGenerationEvents;
    NothingOpened(def, loops, i);
    OpeningBasics(def, loops, i);
    OpeningReduces(def, loops, i, [], loops.order, {}, i);
    assert [] + loops.order == loops.order;
    var j := Reduce(i, InitialGenerationEvents(i, def, loops, loops.order, {})).value;
    OpeningAddsStates(def, loops, i, j);
    OpenedKeepsInv(def, loops, i, j);
  }

  lemma OpeningBasics(def: WorkflowDef, loops: Loops, i: WorkflowInstance)
    requires LoopShape(def, loops) && Inv(def, loops, i)
    ensures SlicesDefined(def, loops) && Initialised(def, i) && Distinct(loops.order)
  {
  }

  lemma NothingOpened(def: WorkflowDef, loops: Loops, i: WorkflowInstance)
    ensures Opened(def, loops, i, [], i) && OpenedTasks(def, loops, i, i)
  {
  }

  lemma OpenedKeepsInv(def: WorkflowDef, loops: Loops, i: WorkflowInstance, j: WorkflowInstance)
    requires Inv(def, loops, i) && i.tasks != map[]
    requires j == i.(verifierStates := j.verifierStates) && Opened(def, loops, i, loops.order, j)
    ensures Inv(def, loops, j) && Evolves(i, j)
  {
    assert Evolves(i, j);
    ProvenanceEvolves(def, loops, i, j);
    OpenedStates(def, loops, i, j);
  }

  lemma OpenedStates(def: WorkflowDef, loops: Loops, i: WorkflowInstance, j: WorkflowInstance)
    requires StatesBounded(def, i.verifierStates) && Dormant(loops, i.tasks, i.verifierStates)
    requires SatisfiedIsSelected(loops, i.tasks, i.verifierStates) && SettledIsFinal(loops, i.tasks, i.verifierStates)
    requires Opened(def, loops, i, loops.order, j)
    ensures StatesBounded(def, j.verifierStates) && Dormant(loops, i.tasks, j.verifierStates)
    ensures SatisfiedIsSelected(loops, i.tasks, j.verifierStates) && SettledIsFinal(loops, i.tasks, j.verifierStates)
  {
    hide SatisfiedIsSelected, SettledIsFinal;
    OpenedSatisfied(def, loops, i, j);
    OpenedSettled(def, loops, i, j);
  }

  lemma OpenedSatisfied(def: WorkflowDef, loops: Loops, i: WorkflowInstance, j: WorkflowInstance)
    requires SatisfiedIsSelected(loops, i.tasks, i.verifierStates) && Opened(def, loops, i, loops.order, j)
    ensures SatisfiedIsSelected(loops, i.tasks, j.verifierStates)
  {
    forall v, id | v in loops.body && id in i.tasks && id.taskDefId in loops.body[v]
           && i.tasks[id].satisfaction.Satisfied?
      ensures Selected(j.verifierStates, v, id.generation)
    {
      assert Selected(i.verifierStates, v, id.generation);
    }
  }

  lemma OpenedSettled(def: WorkflowDef, loops: Loops, i: WorkflowInstance, j: WorkflowInstance)
    requires SettledIsFinal(loops, i.tasks, i.verifierStates) && Opened(def, loops, i, loops.order, j)
    ensures SettledIsFinal(loops, i.tasks, j.verifierStates)
  {
    forall v | v in loops.body && v in j.verifierStates && j.verifierStates[v].Settled()
      ensures FinalAttempt(i.tasks, v, j.verifierStates[v].selectedGeneration)
    {
      assert v in i.verifierStates;
    }
  }

  /** After the opening batch no loop is left to open. */
  lemma NothingLeftToOpen(def: WorkflowDef, loops: Loops, i: WorkflowInstance, j: WorkflowInstance, v: TaskId)
    requires SlicesOfVerifiers(def, loops)
    requires j == i.(verifierStates := j.verifierStates) && Opened(def, loops, i, loops.order, j)
    ensures !Eligible(j, def, loops, v)
  {
  }

  /** The batch is empty exactly when no loop is eligible. */
  lemma {:induction false} OpeningEmpty(def: WorkflowDef, loops: Loops, i: WorkflowInstance, order: seq<TaskId>,
      planned: set<AttemptId>)
    ensures InitialGenerationEvents(i, def, loops, order, planned) == []
      <==> forall v :: v in order ==> !Eligible(i, def, loops, v)
  {
    if order != [] && !Eligible(i, def, loops, order[0]) {
      OpeningEmpty(def, loops, i, order[1..], planned);
      assert forall v :: v in order <==> v == order[0] || v in order[1..];
    }
  }
}
