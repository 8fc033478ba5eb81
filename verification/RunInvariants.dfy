/**
 Every reachable state of a run is good: the snapshot is the replay of its log, the invariants of the
 engine hold of it, and the snapshot an engine holds differs from the stored one in its status at most.
 */
module RunInvariants {
  import opened Prelude
  import opened JsonValues
  import opened AttemptIds
  import opened Model
  import opened Reducer
  import opened LoopSlices
  import opened Engine
  import opened EngineEffects
  import opened EngineInvariants
  import opened EngineSteps
  import opened OpeningAndRecovery
  import opened WorkflowRuns

  /** The snapshot is the replay of the log, and its version counts the events. */
  ghost predicate Replayed(s: Sys) {
    && ReduceEvents(None, s.log).Success?
    && s.snapshot == ReduceEvents(None, s.log).value.(version := |s.log|)
  }

  ghost predicate NoneFailed(tasks: Tasks) {
    forall id :: id in tasks ==> !tasks[id].status.Failed?
  }

  /** What others may have done to the store since an engine read `base`: nothing but status changes. */
  ghost predicate Quiet(base: WorkflowInstance, now: WorkflowInstance) {
    && now == base.(status := now.status, version := now.version)
    && base.version <= now.version && (base.version == now.version ==> now == base)
    && (MayRun(base.status) || base.status.Paused?)
    && (MayRun(now.status) || now.status.Paused? || now.status.Failed?)
    && NoneFailed(base.tasks)
  }

  /** The attempts still to do in this pass may be started. */
  ghost predicate Plan(loops: Loops, base: WorkflowInstance, todo: seq<AttemptId>) {
    forall x :: x in todo ==> x in base.tasks && MayMove(loops, base.verifierStates, x)
  }

  /** Nothing has moved in this pass: the plan is every runnable attempt, and no loop can open. */
  ghost predicate Untried(setup: Setup, s: Sys, base: WorkflowInstance, todo: seq<AttemptId>) {
    todo == SortIds(RunnableIds(base.tasks, setup.def, s.loops)) && Openings(setup, s, base) == []
  }

  ghost predicate Awaiting(setup: Setup, s: Sys, base: WorkflowInstance, todo: seq<AttemptId>) {
    base.status.Running? && todo != [] && todo[0] in base.tasks && base.tasks[todo[0]].status.Running?
      && Plan(s.loops, base, todo)
  }

  ghost predicate PhaseOk(setup: Setup, s: Sys) {
    match s.phase
    case Idle => true
    case Loaded(base) => Quiet(base, s.snapshot)
    case Ready(base) => Quiet(base, s.snapshot) && base.status.Running?
    case Top(base) => Quiet(base, s.snapshot) && base.status.Running? && (base.tasks == map[] ==> setup.def.tasks == [])
    case Passing(base, todo, progress) =>
      && Quiet(base, s.snapshot) && base.status.Running? && (base.tasks == map[] ==> setup.def.tasks == [])
      && Plan(s.loops, base, todo) && (!progress ==> Untried(setup, s, base, todo))
    case Starting(base, todo) =>
      && Quiet(base, s.snapshot) && base.status.Running?
      && Plan(s.loops, base, todo) && todo != [] && base.tasks[todo[0]].status.Pending?
    case Waiting(base, todo) => Quiet(base, s.snapshot) && Awaiting(setup, s, base, todo)
    case Recording(base, todo, onto, answer) =>
      && Quiet(base, s.snapshot) && Awaiting(setup, s, base, todo)
      && Quiet(onto, s.snapshot) && (onto == base || onto == base.(status := Paused, version := onto.version))
    case Boundary(base) => Quiet(base, s.snapshot) && base.status.Paused?
  }

  ghost predicate GoodStore(setup: Setup, s: Sys) {
    && LoopsOf(setup.def, s.loops)
    && Replayed(s)
    && Inv(setup.def, s.loops, s.snapshot)
    && (s.snapshot.status.Completed? ==> WorkflowAllCompleted(s.snapshot, setup.def, s.loops))
  }

  ghost predicate Good(setup: Setup, s: Sys) {
    GoodStore(setup, s) && PhaseOk(setup, s)
  }

  ghost predicate NoneStarted(before: Tasks, after: Tasks) {
    forall id :: id in after && after[id].status.Running? ==> id in before && before[id].status.Running?
  }

  /** How one step may change the stored snapshot: history is kept, and attempts start in running workflows only. */
  ghost predicate Follows(i: WorkflowInstance, j: WorkflowInstance) {
    Evolves(i, j) && (i.status.Running? || NoneStarted(i.tasks, j.tasks))
  }

  // ---------------------------------------------------------------------------
  // Versions and statuses do not matter to the invariants

  lemma StoreReplays(s: Sys, events: seq<Event>)
    requires Replayed(s) && Store(s, s.snapshot, events).Some?
    ensures Replayed(Store(s, s.snapshot, events).value)
  {
    var before := ReduceEvents(None, s.log).value;
    ReduceIgnoresVersion(s.snapshot, events, before.version);
    assert s.snapshot.(version := before.version) == before;
    ReduceEventsAppend(None, s.log, events);
    ChangedIdsFrame(s.snapshot, events);
  }

  lemma VersionKeepsInv(def: WorkflowDef, loops: Loops, i: WorkflowInstance, version: nat)
    requires Inv(def, loops, i)
    ensures Inv(def, loops, i.(version := version))
  {
  }

  lemma AnyStatusKeepsInv(def: WorkflowDef, loops: Loops, i: WorkflowInstance, j: WorkflowInstance)
    requires Inv(def, loops, i) && NoneFailed(i.tasks) && j == i.(status := j.status, version := j.version)
    ensures Inv(def, loops, j)
  {
  }

  /** The invariants do not depend on the order in which a run iterates over the slices. */
  lemma OrderKeepsInv(def: WorkflowDef, loops: Loops, other: Loops, i: WorkflowInstance)
    requires Inv(def, loops, i) && loops.body == other.body
    ensures Inv(def, other, i)
  {
    forall id | id in i.tasks
      ensures InputsFrom(def, other, i.tasks, i.verifierStates, id.taskDefId, i.tasks[id].inputData,
        i.tasks[id].inputMapping)
    {
      InputsFromOrder(def, loops, other, i.tasks, i.verifierStates, id.taskDefId, i.tasks[id].inputData,
        i.tasks[id].inputMapping);
    }
  }

  lemma InputsFromOrder(def: WorkflowDef, loops: Loops, other: Loops, tasks: Tasks, states: States, t: TaskId,
      values: seq<Json>, mapping: seq<TaskInputMapping>)
    requires loops.body == other.body && InputsFrom(def, loops, tasks, states, t, values, mapping)
    ensures InputsFrom(def, other, tasks, states, t, values, mapping)
  {
    var inbound := Inbound(def.dataBindings, t);
    forall k | mapping != [] && 0 <= k < |mapping|
      ensures InputFrom(other, tasks, states, t, inbound[k].source, values[k], mapping[k])
    {
      assert InputFrom(loops, tasks, states, t, inbound[k].source, values[k], mapping[k]);
    }
  }

  lemma SameSlices(def: WorkflowDef, loops: Loops, other: Loops)
    requires UniqueIds(def) && LoopsOf(def, loops) && LoopsOf(def, other)
    ensures loops.body == other.body
  {
    forall v | v in loops.body ensures loops.body[v] == other.body[v] {
      var task := TaskOfVerifier(def, v);
    }
  }
}
