/**
 What holds of every snapshot an instance goes through: ids match their attempts, no loop body moves
 before its verifier has a state, only the selected generation of a settled loop is satisfied, a settled
 loop has no live verifier attempt, recorded inputs are the outputs of the attempts they name.
 */
module EngineInvariants {
  import opened Prelude
  import opened JsonValues
  import opened AttemptIds
  import opened Model
  import opened Reducer
  import opened LoopSlices
  import opened Engine
  import opened EngineEffects

  type States = map<TaskId, VerifierState>

  ghost predicate KeysMatch(def: WorkflowDef, tasks: Tasks) {
    forall id :: id in tasks ==>
      tasks[id].taskDefId == id.taskDefId && tasks[id].generationIndex == id.generation >= 1
        && id.taskDefId in TaskIds(def)
  }

  /** Every task has its first attempt once any attempt exists. */
  ghost predicate Initialised(def: WorkflowDef, i: WorkflowInstance) {
    if i.tasks == map[] then i.verifierStates == map[]
    else forall t :: t in TaskIds(def) ==> AttemptId(t, 1) in i.tasks
  }

  function IterationBound(def: WorkflowDef, v: TaskId): nat {
    match VerifierOf(def, v)
    case Some(config) => if config.maxIterations < 1 then 1 else config.maxIterations
    case None => 1
  }

  ghost predicate StatesBounded(def: WorkflowDef, states: States) {
    forall v :: v in states ==> VerifierOf(def, v).Some? && 1 <= states[v].latestGeneration <= IterationBound(def, v)
  }

  /** A slice whose verifier has no state has not moved: all first attempts pending, or all skipped. */
  ghost predicate Untouched(tasks: Tasks, slice: seq<TaskId>) {
    && (forall id :: id in tasks && id.taskDefId in slice ==>
          id.generation == 1 && !tasks[id].earlyExit && !tasks[id].satisfaction.Satisfied?
          && (tasks[id].status.Pending? || tasks[id].status.Skipped?))
    && ((forall id :: id in tasks && id.taskDefId in slice ==> tasks[id].status.Pending?)
        || (forall id :: id in tasks && id.taskDefId in slice ==> tasks[id].status.Skipped?))
  }

  ghost predicate Dormant(loops: Loops, tasks: Tasks, states: States) {
    forall v :: v in loops.body && v !in states ==> Untouched(tasks, loops.body[v])
  }

  ghost predicate Selected(states: States, v: TaskId, generation: nat) {
    v in states && states[v].Settled() && states[v].selectedGeneration == Some(generation)
  }

  ghost predicate SatisfiedIsSelected(loops: Loops, tasks: Tasks, states: States) {
    forall v, id :: v in loops.body && id in tasks && id.taskDefId in loops.body[v] && tasks[id].satisfaction.Satisfied?
      ==> Selected(states, v, id.generation)
  }

  predicate Finished(task: TaskInstance) {
    task.status.Completed? || task.status.InputNeeded?
  }

  /** A verifier's attempts succeed one another: only the last one can be live. */
  ghost predicate VerifierChain(loops: Loops, tasks: Tasks) {
    forall id {:trigger Previous(id)} :: id in tasks && id.taskDefId in loops.body && id.generation >= 2 ==>
      Previous(id) in tasks && Finished(tasks[Previous(id)])
  }

  function Previous(id: AttemptId): AttemptId
    requires id.generation >= 1
  {
    AttemptId(id.taskDefId, id.generation - 1)
  }

  ghost predicate SettledIsFinal(loops: Loops, tasks: Tasks, states: States) {
    forall v :: v in loops.body && v in states && states[v].Settled()
           ==> FinalAttempt(tasks, v, states[v].selectedGeneration)
  }

  ghost predicate FinalAttempt(tasks: Tasks, v: TaskId, selected: Option<nat>) {
    && selected.Some? && selected.value >= 1
    && AttemptId(v, selected.value) in tasks && tasks[AttemptId(v, selected.value)].status.Completed?
    && AttemptId(v, selected.value + 1) !in tasks
  }

  /** A failed attempt exists only in a failed workflow, and there is at most one. */
  ghost predicate FailureIsTerminal(i: WorkflowInstance) {
    && (forall id :: id in i.tasks && i.tasks[id].status.Failed? ==> i.status.Failed?)
    && (forall x, y :: x in i.tasks && y in i.tasks && i.tasks[x].status.Failed? && i.tasks[y].status.Failed?
          ==> x == y)
  }

  /**
   One recorded input: it is the frozen output of the attempt it names, the accepted one if the source is a loop the
   consumer is outside of.
   */
  ghost predicate InputFrom(loops: Loops, tasks: Tasks, states: States, t: TaskId, source: TaskId, value: Json,
      m: TaskInputMapping)
  {
    var from := AttemptId(m.taskId, m.generation);
    && m.taskId == source
    && from in tasks && tasks[from].status.Completed? && tasks[from].outputData.GetOr(JNull) == value
    && forall v :: v in loops.body && source in loops.body[v] && t !in loops.body[v]
         ==> Selected(states, v, m.generation)
  }

  ghost predicate InputsFrom(def: WorkflowDef, loops: Loops, tasks: Tasks, states: States, t: TaskId,
      values: seq<Json>, mapping: seq<TaskInputMapping>)
  {
    var inbound := Inbound(def.dataBindings, t);
    mapping == [] ||
    (|mapping| == |values| == |inbound|
     && forall k :: 0 <= k < |mapping| ==> InputFrom(loops, tasks, states, t, inbound[k].source, values[k], mapping[k]))
  }

  ghost predicate Provenance(def: WorkflowDef, loops: Loops, tasks: Tasks, states: States) {
    forall id :: id in tasks ==>
      InputsFrom(def, loops, tasks, states, id.taskDefId, tasks[id].inputData, tasks[id].inputMapping)
  }

  ghost predicate Inv(def: WorkflowDef, loops: Loops, i: WorkflowInstance) {
    && KeysMatch(def, i.tasks)
    && Initialised(def, i)
    && StatesBounded(def, i.verifierStates)
    && Dormant(loops, i.tasks, i.verifierStates)
    && SatisfiedIsSelected(loops, i.tasks, i.verifierStates)
    && VerifierChain(loops, i.tasks)
    && SettledIsFinal(loops, i.tasks, i.verifierStates)
    && FailureIsTerminal(i)
    && Provenance(def, loops, i.tasks, i.verifierStates)
  }

  // ---------------------------------------------------------------------------
  // How a snapshot may change

  /** A completed attempt keeps everything but its satisfaction. */
  ghost predicate CompletedFrozen(before: Tasks, after: Tasks) {
    forall id :: id in before && before[id].status.Completed? ==>
      id in after && after[id] == before[id].(satisfaction := after[id].satisfaction)
  }

  ghost predicate SkippedAbsorbing(before: Tasks, after: Tasks) {
    forall id :: id in before && before[id].status.Skipped? ==> id in after && after[id].status.Skipped?
  }

  /** A settled loop keeps its verdict for good. */
  ghost predicate VerdictsStand(before: States, after: States) {
    forall v :: v in before ==> v in after && (before[v].Settled() ==> after[v] == before[v])
  }

  /** Feedback is only ever appended. */
  ghost predicate FeedbackGrows(before: States, after: States) {
    forall v :: v in before ==> v in after && before[v].feedbackHistory <= after[v].feedbackHistory
  }

  ghost predicate Evolves(i: WorkflowInstance, j: WorkflowInstance) {
    && i.tasks.Keys <= j.tasks.Keys
    && CompletedFrozen(i.tasks, j.tasks)
    && SkippedAbsorbing(i.tasks, j.tasks)
    && VerdictsStand(i.verifierStates, j.verifierStates)
    && FeedbackGrows(i.verifierStates, j.verifierStates)
  }

  lemma EvolvesTransitive(i: WorkflowInstance, j: WorkflowInstance, k: WorkflowInstance)
    requires Evolves(i, j) && Evolves(j, k)
    ensures Evolves(i, k)
  {
  }

  /** What a task result may do to the snapshot `i` on which attempt `id` was Running. */
  ghost predicate ResultStep(def: WorkflowDef, loops: Loops, i: WorkflowInstance, id: AttemptId, r: ResolvedInputs,
      j: WorkflowInstance)
  {
    && id in i.tasks
    && OthersStay(i.tasks, id, j.tasks)
    && SkipsAllOrNone(i.tasks, id, j.tasks)
    && id in j.tasks && RanAttempt(i.tasks[id], r, j.tasks[id])
    && NewAttempts(def, loops, i, id, j)
    && StatesStay(def, i, id, j)
    && SatisfiedBy(loops, i.tasks, id, j)
    && JudgesOwn(loops, i.tasks, id, j.tasks) && WholeGeneration(loops, i.tasks, id, j.tasks)
    && j.status == (if j.tasks[id].status.Failed? then WorkflowStatus.Failed
                    else if j.tasks[id].status.InputNeeded? then WorkflowStatus.InputNeeded else i.status)
  }

  ghost predicate OthersStay(before: Tasks, id: AttemptId, after: Tasks) {
    forall x :: x in before && x != id ==>
      && x in after
      && after[x] == before[x].(status := after[x].status, satisfaction := after[x].satisfaction)
      && (after[x].status == before[x].status || (before[x].status.Pending? && after[x].status.Skipped?))
  }

  ghost predicate SkipsAllOrNone(before: Tasks, id: AttemptId, after: Tasks) {
    || (forall x :: x in before && x != id && x in after ==> after[x].status == before[x].status)
    || (forall x :: x in before && x != id && x in after && before[x].status.Pending? ==> after[x].status.Skipped?)
  }

  ghost predicate RanAttempt(before: TaskInstance, r: ResolvedInputs, after: TaskInstance) {
    && after.taskDefId == before.taskDefId && after.generationIndex == before.generationIndex
    && after.inputData == r.values && after.inputMapping == r.mapping
    && (after.status.Completed? || after.status.Failed? || after.status.InputNeeded?)
  }

  ghost predicate NewAttempts(def: WorkflowDef, loops: Loops, i: WorkflowInstance, id: AttemptId, j: WorkflowInstance) {
    forall x :: x in j.tasks && x !in i.tasks ==>
      var v := id.taskDefId;
      && v in loops.body && x.taskDefId in loops.body[v]
      && x.generation == id.generation + 1 <= IterationBound(def, v)
      && j.tasks[x] == FreshTask(x.taskDefId, x.generation, None, [])
      && v in j.verifierStates && !j.verifierStates[v].Settled()
      && id in j.tasks && j.tasks[id].status.Completed?
      && !SliceInterruptedByExit(j.tasks, loops.body[v])
  }

  ghost predicate StatesStay(def: WorkflowDef, i: WorkflowInstance, id: AttemptId, j: WorkflowInstance) {
    && j.verifierStates.Keys == i.verifierStates.Keys
    && (forall v :: v in i.verifierStates && v != id.taskDefId ==> j.verifierStates[v] == i.verifierStates[v])
    && (id.taskDefId in i.verifierStates
      ==> VerdictState(def, i, id, j, i.verifierStates[id.taskDefId], j.verifierStates[id.taskDefId]))
  }

  ghost predicate VerdictState(def: WorkflowDef, i: WorkflowInstance, id: AttemptId, j: WorkflowInstance,
      before: VerifierState, after: VerifierState)
  {
    && before.feedbackHistory <= after.feedbackHistory
    && (after.latestGeneration == before.latestGeneration
      || 1 <= after.latestGeneration <= IterationBound(def, id.taskDefId))
    && (after == before || (after.Settled() ==>
          after.selectedGeneration == Some(id.generation) && id in j.tasks && j.tasks[id].status.Completed?
          && j.tasks.Keys == i.tasks.Keys))
  }

  ghost predicate SatisfiedBy(loops: Loops, before: Tasks, id: AttemptId, j: WorkflowInstance) {
    forall x :: x in j.tasks && j.tasks[x].satisfaction.Satisfied? ==>
      || (x in before && before[x].satisfaction.Satisfied?)
      || (x == id && !IsTaskInLoopSlice(loops, id.taskDefId))
      || (id.taskDefId in loops.body && x.taskDefId in loops.body[id.taskDefId]
        && Selected(j.verifierStates, id.taskDefId, x.generation))
  }

  /** Besides the attempt itself and what it skips, only its own slice is judged, and only its own generation. */
  ghost predicate JudgesOwn(loops: Loops, before: Tasks, id: AttemptId, after: Tasks) {
    forall x :: x in before && x != id && x in after && after[x].satisfaction != before[x].satisfaction ==>
      || after[x].status.Skipped?
      || (id.taskDefId in loops.body && x.taskDefId in loops.body[id.taskDefId] && x.generation == id.generation)
  }

  /** If a next generation is created, it is created for the whole slice. */
  ghost predicate WholeGeneration(loops: Loops, before: Tasks, id: AttemptId, after: Tasks) {
    (exists x :: x in after && x !in before) ==>
      id.taskDefId in loops.body && forall t :: t in loops.body[id.taskDefId]
                                      ==> AttemptId(t, id.generation + 1) in after
  }

  // ---------------------------------------------------------------------------
  // Live verifier attempts

  lemma {:induction false} ChainReachesDown(loops: Loops, tasks: Tasks, v: TaskId, from: nat, to: nat)
    requires VerifierChain(loops, tasks) && v in loops.body
    requires 1 <= to <= from && AttemptId(v, from) in tasks
    ensures AttemptId(v, to) in tasks
    decreases from
  {
    if to < from {
      assert Previous(AttemptId(v, from)) in tasks;
      ChainReachesDown(loops, tasks, v, from - 1, to);
    }
  }

  /** While one of its attempts is unfinished, a verifier has not settled and has no later attempt. */
  lemma LiveVerifierUnsettled(def: WorkflowDef, loops: Loops, i: WorkflowInstance, id: AttemptId)
    requires KeysMatch(def, i.tasks) && VerifierChain(loops, i.tasks)
      && SettledIsFinal(loops, i.tasks, i.verifierStates)
    requires id in i.tasks && id.taskDefId in loops.body && !Finished(i.tasks[id])
    ensures AttemptId(id.taskDefId, id.generation + 1) !in i.tasks
    ensures id.taskDefId in i.verifierStates ==> !i.verifierStates[id.taskDefId].Settled()
  {
    var v := id.taskDefId;
    var next := AttemptId(v, id.generation + 1);
    assert Previous(next) == id;
    if v in i.verifierStates && i.verifierStates[v].Settled() {
      var g := i.verifierStates[v].selectedGeneration.value;
      if id.generation > g {
        ChainReachesDown(loops, i.tasks, v, id.generation, g + 1);
      } else if id.generation < g {
        ChainReachesDown(loops, i.tasks, v, g, id.generation + 1);
      }
    }
  }

  // ---------------------------------------------------------------------------
  // Results keep the invariant, one conjunct at a time

  lemma ResultKeepsKeys(def: WorkflowDef, loops: Loops, i: WorkflowInstance, id: AttemptId, r: ResolvedInputs,
      j: WorkflowInstance)
    requires SlicesDefined(def, loops) && KeysMatch(def, i.tasks)
    requires id in i.tasks && id in j.tasks && RanAttempt(i.tasks[id], r, j.tasks[id])
    requires OthersStay(i.tasks, id, j.tasks) && NewAttempts(def, loops, i, id, j)
    ensures KeysMatch(def, j.tasks)
  {
  }

  lemma ResultKeepsStates(def: WorkflowDef, i: WorkflowInstance, id: AttemptId, j: WorkflowInstance)
    requires StatesBounded(def, i.verifierStates) && StatesStay(def, i, id, j)
    ensures StatesBounded(def, j.verifierStates)
  {
  }

  lemma ResultKeepsDormant(def: WorkflowDef, loops: Loops, i: WorkflowInstance, id: AttemptId, r: ResolvedInputs,
      j: WorkflowInstance)
    requires SlicesDisjoint(loops) && Dormant(loops, i.tasks, i.verifierStates)
    requires id in i.tasks && i.tasks[id].status.Running?
    requires OthersStay(i.tasks, id, j.tasks) && SkipsAllOrNone(i.tasks, id, j.tasks)
    requires NewAttempts(def, loops, i, id, j) && StatesStay(def, i, id, j) && SatisfiedBy(loops, i.tasks, id, j)
    ensures Dormant(loops, j.tasks, j.verifierStates)
  {
    forall u | u in loops.body && u !in j.verifierStates ensures Untouched(j.tasks, loops.body[u]) {
      var slice := loops.body[u];
      assert Untouched(i.tasks, slice);
      assert id.taskDefId !in slice;
      assert forall x :: x in j.tasks && x.taskDefId in slice ==> x in i.tasks && x != id;
      if forall x :: x in i.tasks && x.taskDefId in slice ==> i.tasks[x].status.Skipped? {
        assert forall x :: x in j.tasks && x.taskDefId in slice ==> j.tasks[x].status.Skipped?;
      }
    }
  }

  lemma ResultKeepsSatisfied(loops: Loops, i: WorkflowInstance, id: AttemptId, j: WorkflowInstance)
    requires SlicesDisjoint(loops) && SatisfiedIsSelected(loops, i.tasks, i.verifierStates)
    requires SatisfiedBy(loops, i.tasks, id, j) && VerdictsStand(i.verifierStates, j.verifierStates)
    ensures SatisfiedIsSelected(loops, j.tasks, j.verifierStates)
  {
    forall u, x | u in loops.body && x in j.tasks && x.taskDefId in loops.body[u] && j.tasks[x].satisfaction.Satisfied?
      ensures Selected(j.verifierStates, u, x.generation)
    {
      if x in i.tasks && i.tasks[x].satisfaction.Satisfied? {
        assert Selected(i.verifierStates, u, x.generation);
      }
    }
  }

  lemma NewVerifierFollows(def: WorkflowDef, loops: Loops, i: WorkflowInstance, id: AttemptId, j: WorkflowInstance,
      x: AttemptId)
    requires SlicesDisjoint(loops) && VerifiersInOwnSlice(loops) && NewAttempts(def, loops, i, id, j)
    requires x in j.tasks && x !in i.tasks && x.taskDefId in loops.body && x.generation >= 2
    ensures Previous(x) == id && id in j.tasks && Finished(j.tasks[id])
  {
    assert x.taskDefId in loops.body[x.taskDefId];
  }

  lemma OldVerifierFollows(loops: Loops, before: Tasks, id: AttemptId, after: Tasks, x: AttemptId)
    requires VerifierChain(loops, before) && OthersStay(before, id, after) && id in before && before[id].status.Running?
    requires x in before && x.taskDefId in loops.body && x.generation >= 2
    ensures Previous(x) in after && Finished(after[Previous(x)])
  {
    assert Previous(x) in before && Finished(before[Previous(x)]);
    assert Previous(x) != id;
  }

  lemma ResultKeepsChain(def: WorkflowDef, loops: Loops, i: WorkflowInstance, id: AttemptId, r: ResolvedInputs,
      j: WorkflowInstance)
    requires SlicesDisjoint(loops) && VerifiersInOwnSlice(loops) && VerifierChain(loops, i.tasks)
    requires id in i.tasks && i.tasks[id].status.Running?
    requires OthersStay(i.tasks, id, j.tasks) && NewAttempts(def, loops, i, id, j)
    ensures VerifierChain(loops, j.tasks)
  {
    hide SlicesDisjoint, VerifiersInOwnSlice, OthersStay, NewAttempts, Previous, Finished;
    forall x | x in j.tasks && x.taskDefId in loops.body && x.generation >= 2
      ensures Previous(x) in j.tasks && Finished(j.tasks[Previous(x)])
    {
      if x !in i.tasks {
        NewVerifierFollows(def, loops, i, id, j, x);
      } else {
        OldVerifierFollows(loops, i.tasks, id, j.tasks, x);
      }
    }
  }

  lemma ResultKeepsSettled(def: WorkflowDef, loops: Loops, i: WorkflowInstance, id: AttemptId, r: ResolvedInputs,
      j: WorkflowInstance)
    requires KeysMatch(def, i.tasks)
    requires SlicesDisjoint(loops) && VerifiersInOwnSlice(loops) && VerifierChain(loops, i.tasks)
    requires SettledIsFinal(loops, i.tasks, i.verifierStates)
    requires id in i.tasks && i.tasks[id].status.Running?
    requires OthersStay(i.tasks, id, j.tasks) && NewAttempts(def, loops, i, id, j) && StatesStay(def, i, id, j)
    ensures SettledIsFinal(loops, j.tasks, j.verifierStates)
  {
    if id.taskDefId in loops.body { LiveVerifierUnsettled(def, loops, i, id); }
    forall u | u in loops.body && u in j.verifierStates && j.verifierStates[u].Settled()
      ensures FinalAttempt(j.tasks, u, j.verifierStates[u].selectedGeneration)
    {
      if u != id.taskDefId {
        assert FinalAttempt(i.tasks, u, i.verifierStates[u].selectedGeneration);
        var next := AttemptId(u, i.verifierStates[u].selectedGeneration.value + 1);
        assert next !in j.tasks;
      } else {
        assert VerdictState(def, i, id, j, i.verifierStates[u], j.verifierStates[u]);
      }
    }
  }

  lemma ResultKeepsFailure(def: WorkflowDef, loops: Loops, i: WorkflowInstance, id: AttemptId, j: WorkflowInstance)
    requires FailureIsTerminal(i) && !i.status.Failed? && id in i.tasks && id in j.tasks
    requires OthersStay(i.tasks, id, j.tasks) && NewAttempts(def, loops, i, id, j)
    requires j.tasks[id].status.Failed? ==> j.status.Failed?
    ensures FailureIsTerminal(j)
  {
    assert forall x :: x in j.tasks && j.tasks[x].status.Failed? ==> x == id;
  }

  lemma ResultKeepsInitialised(def: WorkflowDef, i: WorkflowInstance, id: AttemptId, j: WorkflowInstance)
    requires Initialised(def, i) && id in i.tasks && id in j.tasks && OthersStay(i.tasks, id, j.tasks)
    ensures Initialised(def, j)
  {
  }

  lemma ResultKeepsProvenance(def: WorkflowDef, loops: Loops, i: WorkflowInstance, id: AttemptId, r: ResolvedInputs,
      j: WorkflowInstance)
    requires Evolves(i, j) && Provenance(def, loops, i.tasks, i.verifierStates)
    requires id in i.tasks && id in j.tasks && RanAttempt(i.tasks[id], r, j.tasks[id])
    requires InputsFrom(def, loops, i.tasks, i.verifierStates, id.taskDefId, r.values, r.mapping)
    requires OthersStay(i.tasks, id, j.tasks) && NewAttempts(def, loops, i, id, j)
    ensures Provenance(def, loops, j.tasks, j.verifierStates)
  {
    ProvenanceEvolves(def, loops, i, j);
  }

  lemma ResultEvolves(def: WorkflowDef, loops: Loops, i: WorkflowInstance, id: AttemptId, j: WorkflowInstance)
    requires id in i.tasks && i.tasks[id].status.Running? && id in j.tasks
    requires OthersStay(i.tasks, id, j.tasks) && StatesStay(def, i, id, j)
    requires id.taskDefId in i.verifierStates ==> !i.verifierStates[id.taskDefId].Settled()
    ensures Evolves(i, j)
  {
    forall v | v in i.verifierStates
      ensures i.verifierStates[v].feedbackHistory <= j.verifierStates[v].feedbackHistory
    {
      if v == id.taskDefId { assert VerdictState(def, i, id, j, i.verifierStates[v], j.verifierStates[v]); }
    }
  }

  /** Provenance of recorded inputs survives any evolution: sources and verdicts are frozen. */
  lemma InputsFromEvolves(def: WorkflowDef, loops: Loops, i: WorkflowInstance, j: WorkflowInstance, t: TaskId,
      values: seq<Json>, mapping: seq<TaskInputMapping>)
    requires Evolves(i, j) && InputsFrom(def, loops, i.tasks, i.verifierStates, t, values, mapping)
    ensures InputsFrom(def, loops, j.tasks, j.verifierStates, t, values, mapping)
  {
    var inbound := Inbound(def.dataBindings, t);
    if mapping != [] {
      forall k | 0 <= k < |mapping|
        ensures InputFrom(loops, j.tasks, j.verifierStates, t, inbound[k].source, values[k], mapping[k])
      {
        assert InputFrom(loops, i.tasks, i.verifierStates, t, inbound[k].source, values[k], mapping[k]);
      }
    }
  }

  lemma ProvenanceEvolves(def: WorkflowDef, loops: Loops, i: WorkflowInstance, j: WorkflowInstance)
    requires Evolves(i, j) && Provenance(def, loops, i.tasks, i.verifierStates)
    requires forall x :: x in j.tasks ==>
      || j.tasks[x].inputMapping == []
      || (x in i.tasks && j.tasks[x].inputData == i.tasks[x].inputData
        && j.tasks[x].inputMapping == i.tasks[x].inputMapping)
      || InputsFrom(def, loops, i.tasks, i.verifierStates, x.taskDefId, j.tasks[x].inputData, j.tasks[x].inputMapping)
    ensures Provenance(def, loops, j.tasks, j.verifierStates)
  {
    forall x | x in j.tasks
      ensures InputsFrom(def, loops, j.tasks, j.verifierStates, x.taskDefId, j.tasks[x].inputData,
        j.tasks[x].inputMapping)
    {
      if j.tasks[x].inputMapping != [] {
        InputsFromEvolves(def, loops, i, j, x.taskDefId, j.tasks[x].inputData, j.tasks[x].inputMapping);
      }
    }
  }

  lemma ResultKeepsBasics(def: WorkflowDef, loops: Loops, i: WorkflowInstance, id: AttemptId, r: ResolvedInputs,
      j: WorkflowInstance)
    requires SlicesDefined(def, loops)
    requires KeysMatch(def, i.tasks) && Initialised(def, i) && StatesBounded(def, i.verifierStates)
      && FailureIsTerminal(i)
    requires !i.status.Failed?
    requires ResultStep(def, loops, i, id, r, j)
    ensures KeysMatch(def, j.tasks) && Initialised(def, j) && StatesBounded(def, j.verifierStates)
      && FailureIsTerminal(j)
  {
    ResultKeepsKeys(def, loops, i, id, r, j);
    ResultKeepsInitialised(def, i, id, j);
    ResultKeepsStates(def, i, id, j);
    ResultKeepsFailure(def, loops, i, id, j);
  }

  lemma ResultKeepsLoops(def: WorkflowDef, loops: Loops, i: WorkflowInstance, id: AttemptId, r: ResolvedInputs,
      j: WorkflowInstance)
    requires LoopShape(def, loops)
    requires KeysMatch(def, i.tasks) && Dormant(loops, i.tasks, i.verifierStates) && VerifierChain(loops, i.tasks)
    requires SettledIsFinal(loops, i.tasks, i.verifierStates)
    requires id in i.tasks && i.tasks[id].status.Running?
    requires ResultStep(def, loops, i, id, r, j)
    ensures Dormant(loops, j.tasks, j.verifierStates) && VerifierChain(loops, j.tasks)
    ensures SettledIsFinal(loops, j.tasks, j.verifierStates)
  {
    ResultKeepsDormant(def, loops, i, id, r, j);
    ResultKeepsChain(def, loops, i, id, r, j);
    ResultKeepsSettled(def, loops, i, id, r, j);
  }

  lemma ResultStepEvolves(def: WorkflowDef, loops: Loops, i: WorkflowInstance, id: AttemptId, r: ResolvedInputs,
      j: WorkflowInstance)
    requires SlicesOfVerifiers(def, loops)
    requires KeysMatch(def, i.tasks) && StatesBounded(def, i.verifierStates) && VerifierChain(loops, i.tasks)
    requires SettledIsFinal(loops, i.tasks, i.verifierStates)
    requires id in i.tasks && i.tasks[id].status.Running?
    requires ResultStep(def, loops, i, id, r, j)
    ensures Evolves(i, j)
  {
    if id.taskDefId in i.verifierStates {
      assert id.taskDefId in loops.body;
      LiveVerifierUnsettled(def, loops, i, id);
    }
    ResultEvolves(def, loops, i, id, j);
  }

  /** A task result keeps every invariant. */
  lemma ResultKeepsInv(def: WorkflowDef, loops: Loops, i: WorkflowInstance, id: AttemptId, r: ResolvedInputs,
      j: WorkflowInstance)
    requires LoopShape(def, loops) && Inv(def, loops, i) && !i.status.Failed?
    requires id in i.tasks && i.tasks[id].status.Running?
    requires InputsFrom(def, loops, i.tasks, i.verifierStates, id.taskDefId, r.values, r.mapping)
    requires ResultStep(def, loops, i, id, r, j)
    ensures Inv(def, loops, j) && Evolves(i, j)
  {
    ResultKeepsBasics(def, loops, i, id, r, j);
    ResultKeepsLoops(def, loops, i, id, r, j);
    ResultStepEvolves(def, loops, i, id, r, j);
    ResultKeepsSatisfied(loops, i, id, j);
    ResultKeepsProvenance(def, loops, i, id, r, j);
  }
}
