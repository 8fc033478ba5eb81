/**
 The event reducer: every change of a workflow instance is an event, and the snapshot is the fold of
 its events. ApplyEvent and Reduce are the specification; InstanceCell updates a snapshot in place.
 */
module Reducer {
  import opened Prelude
  import opened JsonValues
  import opened AttemptIds
  import opened Model

  datatype Event =
    | WorkflowCreated(instance: WorkflowInstance)
    | WorkflowStatusChanged(workflowStatus: WorkflowStatus)
    | TaskEarlyExitSet(id: AttemptId, earlyExit: bool)
    | StartupRecoveryApplied(ids: seq<AttemptId>)
    | TaskMaterialized(id: AttemptId, task: TaskInstance)
    | TaskStatusChanged(id: AttemptId, status: TaskStatus)
    | TaskInputDataSet(id: AttemptId, inputData: seq<Json>)
    | TaskInputMappingSet(id: AttemptId, inputMapping: seq<TaskInputMapping>)
    | TaskOutputRecorded(id: AttemptId, outputData: Option<Json>)
    | TaskSatisfactionChanged(id: AttemptId, satisfaction: Satisfaction)
    | TaskVerifierMetadataSet(id: AttemptId, metadata: Option<VerifierMetadata>)
    | VerifierStateUpserted(verifierId: TaskId, state: VerifierState)
    | VerifierFeedbackRecorded(verifierId: TaskId, feedback: FeedbackEntry)
    | VerifierStateStatusChanged(
        verifierId: TaskId, stateStatus: VerifierStateStatus,
        selectedGeneration: Option<nat>, exitReason: Option<string>)
    | HumanInputSubmitted(id: AttemptId, continuationId: AttemptId, submittedInput: Json)
    | TaskRetryRequested(id: AttemptId)
    | TaskForceRetryRequested(
        id: AttemptId, previousHost: Option<HostId>, targetHost: HostId, localContextMayBeLost: bool)

  datatype ReduceError =
    | CreateOnExisting
    | AttemptMissing(id: AttemptId)
    | AttemptExists(id: AttemptId)
    | VerifierStateMissing(verifierId: TaskId)
    | NotWaitingForInput(id: AttemptId)
    | WrongContinuation(expected: AttemptId)
    | WorkflowNotFailed
    | AttemptNotFailed(id: AttemptId)
    | PreviousHostMismatch
    | ContextLossFlagMismatch
    | FirstEventMustCreate
    | EmptyBatch

  function FreshTask(taskDefId: TaskId, generation: nat, humanInput: Option<Json>, inputData: seq<Json>): TaskInstance {
    TaskInstance(taskDefId, TaskStatus.Pending, Satisfaction.Pending, false, humanInput, inputData, [], None,
      generation, None)
  }

  function Recovered(task: TaskInstance): TaskInstance {
    if task.status.Running? then task.(status := TaskStatus.Pending) else task
  }

  /** The loop of `StartupRecoveryApplied` over the named attempts. */
  function RecoverAttempts(tasks: map<AttemptId, TaskInstance>, ids: seq<AttemptId>)
    : Result<map<AttemptId, TaskInstance>, ReduceError>
  {
    if ids == [] then Success(tasks)
    else if ids[0] !in tasks then Failure(AttemptMissing(ids[0]))
    else RecoverAttempts(tasks[ids[0] := Recovered(tasks[ids[0]])], ids[1..])
  }

  function ResetTask(task: TaskInstance): TaskInstance {
    task.(status := TaskStatus.Pending, satisfaction := Satisfaction.Pending, outputData := None,
          earlyExit := false, verifierMetadata := None)
  }

  /** `reset_failed_task_for_retry` */
  function ResetFailedTask(i: WorkflowInstance, id: AttemptId): Result<WorkflowInstance, ReduceError> {
    if !i.status.Failed? then Failure(WorkflowNotFailed)
    else if id !in i.tasks then Failure(AttemptMissing(id))
    else if !i.tasks[id].status.Failed? then Failure(AttemptNotFailed(id))
    else Success(i.(tasks := i.tasks[id := ResetTask(i.tasks[id])], status := WorkflowStatus.Pending))
  }

  /** Events that overwrite fields of one existing attempt. */
  predicate UpdatesTask(event: Event) {
    event.TaskEarlyExitSet? || event.TaskStatusChanged? || event.TaskInputDataSet? || event.TaskInputMappingSet?
    || event.TaskOutputRecorded? || event.TaskSatisfactionChanged? || event.TaskVerifierMetadataSet?
  }

  function UpdatedTask(task: TaskInstance, event: Event): TaskInstance {
    match event
    case TaskEarlyExitSet(_, b) => task.(earlyExit := b)
    case TaskStatusChanged(_, s) => task.(status := s)
    case TaskInputDataSet(_, d) => task.(inputData := d)
    case TaskInputMappingSet(_, m) => task.(inputMapping := m)
    case TaskOutputRecorded(_, o) => task.(outputData := o)
    case TaskSatisfactionChanged(_, s) => task.(satisfaction := s)
    case TaskVerifierMetadataSet(_, m) => task.(verifierMetadata := m)
    case _ => task
  }

  /** `task_mut(instance, id)?.field = ...` */
  function UpdateTask(i: WorkflowInstance, id: AttemptId, event: Event): Result<WorkflowInstance, ReduceError> {
    if id in i.tasks then Success(i.(tasks := i.tasks[id := UpdatedTask(i.tasks[id], event)]))
    else Failure(AttemptMissing(id))
  }

  function UpdatedState(state: VerifierState, event: Event): VerifierState {
    match event
    case VerifierFeedbackRecorded(_, entry) => state.(feedbackHistory := state.feedbackHistory + [entry])
    case VerifierStateStatusChanged(_, s, g, reason) =>
      state.(status := s, selectedGeneration := g, exitReason := reason)
    case _ => state
  }

  /** `verifier_state_mut(instance, v)?.field = ...` */
  function UpdateState(i: WorkflowInstance, v: TaskId, event: Event): Result<WorkflowInstance, ReduceError> {
    if v in i.verifierStates
    then Success(i.(verifierStates := i.verifierStates[v := UpdatedState(i.verifierStates[v], event)]))
    else Failure(VerifierStateMissing(v))
  }

  function ApplyEvent(i: WorkflowInstance, event: Event): Result<WorkflowInstance, ReduceError> {
    match event
    case WorkflowCreated(_) => Failure(CreateOnExisting)
    case WorkflowStatusChanged(s) => Success(i.(status := s))
    case StartupRecoveryApplied(ids) =>
      var tasks :- RecoverAttempts(i.tasks, ids);
      Success(i.(status := if i.status.Running? then WorkflowStatus.Pending else i.status, tasks := tasks))
    case TaskMaterialized(id, task) =>
      if id in i.tasks then Failure(AttemptExists(id)) else Success(i.(tasks := i.tasks[id := task]))
    case VerifierStateUpserted(v, state) => Success(i.(verifierStates := i.verifierStates[v := state]))
    case HumanInputSubmitted(id, continuationId, input) =>
      if id !in i.tasks then Failure(AttemptMissing(id))
      else if !i.tasks[id].status.InputNeeded? then Failure(NotWaitingForInput(id))
      else
        var taskDefId, generation := i.tasks[id].taskDefId, i.tasks[id].generationIndex + 1;
        var expected := AttemptId(taskDefId, generation);
        if continuationId != expected then Failure(WrongContinuation(expected))
        else if continuationId in i.tasks then Failure(AttemptExists(continuationId))
        else Success(i.(tasks := i.tasks[continuationId := FreshTask(taskDefId, generation, Some(input), [])],
                        status := WorkflowStatus.Pending))
    case TaskRetryRequested(id) => ResetFailedTask(i, id)
    case TaskForceRetryRequested(id, previous, target, lost) =>
      if i.pinnedWorkerHost != previous then Failure(PreviousHostMismatch)
      else if lost != (previous != Some(target)) then Failure(ContextLossFlagMismatch)
      else
        var j :- ResetFailedTask(i, id);
        Success(j.(pinnedWorkerHost := Some(target)))
    case TaskEarlyExitSet(id, _) => UpdateTask(i, id, event)
    case TaskStatusChanged(id, _) => UpdateTask(i, id, event)
    case TaskInputDataSet(id, _) => UpdateTask(i, id, event)
    case TaskInputMappingSet(id, _) => UpdateTask(i, id, event)
    case TaskOutputRecorded(id, _) => UpdateTask(i, id, event)
    case TaskSatisfactionChanged(id, _) => UpdateTask(i, id, event)
    case TaskVerifierMetadataSet(id, _) => UpdateTask(i, id, event)
    case VerifierFeedbackRecorded(v, _) => UpdateState(i, v, event)
    case VerifierStateStatusChanged(v, _, _, _) => UpdateState(i, v, event)
  }

  function Reduce(i: WorkflowInstance, events: seq<Event>): Result<WorkflowInstance, ReduceError>
    decreases |events|
  {
    if events == [] then Success(i)
    else
      var j :- ApplyEvent(i, events[0]);
      Reduce(j, events[1..])
  }

  /** `reduce_workflow_instance_events` */
  function ReduceEvents(current: Option<WorkflowInstance>, events: seq<Event>): Result<WorkflowInstance, ReduceError> {
    match current
    case Some(i) => Reduce(i, events)
    case None =>
      if events == [] then Failure(EmptyBatch)
      else if events[0].WorkflowCreated? then Reduce(events[0].instance, events[1..])
      else Failure(FirstEventMustCreate)
  }

  // ---------------------------------------------------------------------------
  // Folding

  lemma {:induction false} ReduceAppend(i: WorkflowInstance, xs: seq<Event>, ys: seq<Event>)
    requires Reduce(i, xs).Success?
    ensures Reduce(i, xs + ys) == Reduce(Reduce(i, xs).value, ys)
    decreases |xs|
  {
    if xs == [] {
      assert xs + ys == ys;
    } else {
      assert (xs + ys)[1..] == xs[1..] + ys;
      ReduceAppend(ApplyEvent(i, xs[0]).value, xs[1..], ys);
    }
  }

  /** A batch rejected halfway is rejected whatever follows. */
  lemma {:induction false} ReduceAppendFailure(i: WorkflowInstance, xs: seq<Event>, ys: seq<Event>)
    requires Reduce(i, xs).Failure?
    ensures Reduce(i, xs + ys) == Reduce(i, xs)
    decreases |xs|
  {
    assert (xs + ys)[1..] == xs[1..] + ys;
    if ApplyEvent(i, xs[0]).Success? {
      ReduceAppendFailure(ApplyEvent(i, xs[0]).value, xs[1..], ys);
    }
  }

  /** The snapshot is the replay of its log: two batches reduced in turn are one batch. */
  lemma ReduceEventsAppend(current: Option<WorkflowInstance>, xs: seq<Event>, ys: seq<Event>)
    requires ReduceEvents(current, xs).Success?
    ensures ReduceEvents(current, xs + ys) == Reduce(ReduceEvents(current, xs).value, ys)
  {
    match current {
      case Some(i) => ReduceAppend(i, xs, ys);
      case None =>
        assert (xs + ys)[1..] == xs[1..] + ys;
        ReduceAppend(xs[0].instance, xs[1..], ys);
    }
  }

  /** The version is the store's business: reduction neither reads nor changes it. */
  lemma ApplyIgnoresVersion(i: WorkflowInstance, event: Event, version: nat)
    requires ApplyEvent(i, event).Success?
    ensures ApplyEvent(i.(version := version), event) == Result.Success(ApplyEvent(i, event).value.(version := version))
  {
  }

  lemma {:induction false} ReduceIgnoresVersion(i: WorkflowInstance, events: seq<Event>, version: nat)
    requires Reduce(i, events).Success?
    ensures Reduce(i.(version := version), events) == Result.Success(Reduce(i, events).value.(version := version))
    decreases |events|
  {
    hide ApplyEvent;
    if events != [] {
      ApplyIgnoresVersion(i, events[0], version);
      ReduceIgnoresVersion(ApplyEvent(i, events[0]).value, events[1..], version);
    }
  }

  // ---------------------------------------------------------------------------
  // Which attempts a batch changes

  /** `changed_task_attempt_ids`, one event. */
  function ChangedBy(event: Event): set<AttemptId> {
    match event
    case WorkflowCreated(instance) => instance.tasks.Keys
    case WorkflowStatusChanged(_) => {}
    case VerifierStateUpserted(_, _) => {}
    case VerifierFeedbackRecorded(_, _) => {}
    case VerifierStateStatusChanged(_, _, _, _) => {}
    case StartupRecoveryApplied(ids) => set k | 0 <= k < |ids| :: ids[k]
    case HumanInputSubmitted(_, continuationId, _) => {continuationId}
    case _ => {event.id}
  }

  function ChangedIds(events: seq<Event>): set<AttemptId> {
    if events == [] then {} else ChangedBy(events[0]) + ChangedIds(events[1..])
  }

  method ChangedTaskAttemptIds(events: seq<Event>) returns (ids: set<AttemptId>)
    ensures ids == ChangedIds(events)
  {
    ids := {};
    var k := 0;
    while k < |events|
      invariant 0 <= k <= |events|
      invariant ids + ChangedIds(events[k..]) == ChangedIds(events)
    {
      ids := ids + ChangedBy(events[k]);
      k := k + 1;
    }
  }

  /**
   The attempts an event writes: all of a new instance, those a recovery lists, a continuation, or the one it names.
   */
  ghost predicate Writes(event: Event, x: AttemptId) {
    || (event.WorkflowCreated? && x in event.instance.tasks)
    || (event.StartupRecoveryApplied? && x in event.ids)
    || (event.HumanInputSubmitted? && x == event.continuationId)
    || ((UpdatesTask(event) || event.TaskMaterialized? || event.TaskRetryRequested? || event.TaskForceRetryRequested?)
        && x == event.id)
  }

  /** An attempt is reported as changed exactly if some event of the batch writes it. */
  lemma {:induction false} ChangedExactlyWhen(events: seq<Event>, x: AttemptId)
    ensures x in ChangedIds(events) <==> exists k :: 0 <= k < |events| && Writes(events[k], x)
  {
    hide Writes;
    if events != [] {
      WritesOne(events[0], x);
      ChangedExactlyWhen(events[1..], x);
      if k: nat :| k < |events[1..]| && Writes(events[1..][k], x) { assert events[k + 1] == events[1..][k]; }
      if k: nat :| k < |events| && Writes(events[k], x) { if k > 0 { assert events[1..][k - 1] == events[k]; } }
    }
  }

  lemma WritesOne(event: Event, x: AttemptId)
    ensures x in ChangedBy(event) <==> Writes(event, x)
  {
  }

  lemma {:induction false} RecoverAttemptsFrame(tasks: map<AttemptId, TaskInstance>, ids: seq<AttemptId>)
    requires RecoverAttempts(tasks, ids).Success?
    ensures var after := RecoverAttempts(tasks, ids).value;
      && after.Keys == tasks.Keys
      && (forall k :: 0 <= k < |ids| ==> ids[k] in tasks)
      && (forall id :: id in tasks ==> after[id] == if id in ids then Recovered(tasks[id]) else tasks[id])
  {
    if ids != [] {
      RecoverAttemptsFrame(tasks[ids[0] := Recovered(tasks[ids[0]])], ids[1..]);
    }
  }

  lemma {:induction false} RecoverAttemptsSucceeds(tasks: map<AttemptId, TaskInstance>, ids: seq<AttemptId>)
    requires forall k :: 0 <= k < |ids| ==> ids[k] in tasks
    ensures RecoverAttempts(tasks, ids).Success?
  {
    if ids != [] {
      RecoverAttemptsSucceeds(tasks[ids[0] := Recovered(tasks[ids[0]])], ids[1..]);
    }
  }

  lemma ApplyEventFrame(i: WorkflowInstance, event: Event)
    requires ApplyEvent(i, event).Success?
    ensures var j := ApplyEvent(i, event).value;
      && i.tasks.Keys <= j.tasks.Keys
      && i.verifierStates.Keys <= j.verifierStates.Keys
      && ChangedBy(event) <= j.tasks.Keys
      && j.tasks.Keys <= i.tasks.Keys + ChangedBy(event)
      && (forall id :: id in i.tasks && id !in ChangedBy(event) ==> j.tasks[id] == i.tasks[id])
      && j.id == i.id && j.workflowDefId == i.workflowDefId && j.version == i.version
        && j.triggerInput == i.triggerInput
  {
    if event.StartupRecoveryApplied? {
      RecoverAttemptsFrame(i.tasks, event.ids);
    }
  }

  /**
   No accepted batch removes an attempt or a verifier state, every attempt it names is in the reduced
   snapshot, and every other attempt is untouched.
   */
  lemma {:induction false} ChangedIdsFrame(i: WorkflowInstance, events: seq<Event>)
    requires Reduce(i, events).Success?
    ensures var j := Reduce(i, events).value;
      && i.tasks.Keys <= j.tasks.Keys
      && i.verifierStates.Keys <= j.verifierStates.Keys
      && ChangedIds(events) <= j.tasks.Keys
      && j.tasks.Keys <= i.tasks.Keys + ChangedIds(events)
      && (forall id :: id in i.tasks && id !in ChangedIds(events) ==> j.tasks[id] == i.tasks[id])
      && j.id == i.id && j.workflowDefId == i.workflowDefId && j.version == i.version
        && j.triggerInput == i.triggerInput
    decreases |events|
  {
    if events != [] {
      ApplyEventFrame(i, events[0]);
      ChangedIdsFrame(ApplyEvent(i, events[0]).value, events[1..]);
    }
  }

  // ---------------------------------------------------------------------------
  // In-place reduction

  /** The `&mut WorkflowInstance` the reducer updates. */
  class InstanceCell {
    const id: string
    const workflowDefId: string
    const version: nat
    const triggerInput: Option<Json>
    var status: WorkflowStatus
    var pinnedWorkerHost: Option<HostId>
    var tasks: map<AttemptId, TaskInstance>
    var verifierStates: map<TaskId, VerifierState>

    constructor (i: WorkflowInstance)
      ensures Snapshot() == i
    {
      id, workflowDefId, version, triggerInput := i.id, i.workflowDefId, i.version, i.triggerInput;
      status, pinnedWorkerHost, tasks, verifierStates := i.status, i.pinnedWorkerHost, i.tasks, i.verifierStates;
    }

    function Snapshot(): WorkflowInstance
      reads this
    {
      WorkflowInstance(id, workflowDefId, version, status, triggerInput, pinnedWorkerHost, tasks, verifierStates)
    }

    /** `StartupRecoveryApplied`: one pass over the named attempts. */
    method RecoverAll(ids: seq<AttemptId>) returns (error: Option<ReduceError>)
      modifies `tasks
      ensures error.None? <==> RecoverAttempts(old(tasks), ids).Success?
      ensures error.None? ==> tasks == RecoverAttempts(old(tasks), ids).value
      ensures error.Some? ==> RecoverAttempts(old(tasks), ids) == Failure(error.value)
    {
      var k := 0;
      while k < |ids|
        invariant 0 <= k <= |ids|
        invariant RecoverAttempts(tasks, ids[k..]) == RecoverAttempts(old(tasks), ids)
      {
        if ids[k] !in tasks { return Some(AttemptMissing(ids[k])); }
        if tasks[ids[k]].status.Running? {
          tasks := tasks[ids[k] := tasks[ids[k]].(status := TaskStatus.Pending)];
        }
        assert tasks[ids[k] := tasks[ids[k]]] == tasks;
        k := k + 1;
      }
      return None;
    }

    method SetTask(id: AttemptId, event: Event) returns (error: Option<ReduceError>)
      modifies `tasks
      ensures error.None? <==> id in old(tasks)
      ensures error.None? ==> tasks == old(tasks)[id := UpdatedTask(old(tasks)[id], event)]
      ensures error.Some? ==> error.value == AttemptMissing(id) && tasks == old(tasks)
    {
      if id !in tasks { return Some(AttemptMissing(id)); }
      tasks := tasks[id := UpdatedTask(tasks[id], event)];
      return None;
    }

    method SetState(v: TaskId, event: Event) returns (error: Option<ReduceError>)
      modifies `verifierStates
      ensures error.None? <==> v in old(verifierStates)
      ensures error.None? ==> verifierStates == old(verifierStates)[v := UpdatedState(old(verifierStates)[v], event)]
      ensures error.Some? ==> error.value == VerifierStateMissing(v) && verifierStates == old(verifierStates)
    {
      if v !in verifierStates { return Some(VerifierStateMissing(v)); }
      verifierStates := verifierStates[v := UpdatedState(verifierStates[v], event)];
      return None;
    }

    method ResetFailed(id: AttemptId) returns (error: Option<ReduceError>)
      modifies `tasks, `status
      ensures error.None? <==> ResetFailedTask(old(Snapshot()), id).Success?
      ensures error.None? ==> Snapshot() == ResetFailedTask(old(Snapshot()), id).value
      ensures error.Some? ==> ResetFailedTask(old(Snapshot()), id) == Failure(error.value)
    {
      if !status.Failed? { return Some(WorkflowNotFailed); }
      if id !in tasks { return Some(AttemptMissing(id)); }
      if !tasks[id].status.Failed? { return Some(AttemptNotFailed(id)); }
      tasks := tasks[id := ResetTask(tasks[id])];
      status := WorkflowStatus.Pending;
      return None;
    }

    /** `apply_workflow_instance_event` */
    method SubmitInput(id: AttemptId, continuationId: AttemptId, input: Json) returns (error: Option<ReduceError>)
      modifies `tasks, `status
      ensures error.None? <==> ApplyEvent(old(Snapshot()), HumanInputSubmitted(id, continuationId, input)).Success?
      ensures error.None? ==>
        Snapshot() == ApplyEvent(old(Snapshot()), HumanInputSubmitted(id, continuationId, input)).value
      ensures error.Some? ==>
        ApplyEvent(old(Snapshot()), HumanInputSubmitted(id, continuationId, input)) == Failure(error.value)
    {
      if id !in tasks { return Some(AttemptMissing(id)); }
      if !tasks[id].status.InputNeeded? { return Some(NotWaitingForInput(id)); }
      var expected := AttemptId(tasks[id].taskDefId, tasks[id].generationIndex + 1);
      if continuationId != expected { return Some(WrongContinuation(expected)); }
      if continuationId in tasks { return Some(AttemptExists(continuationId)); }
      tasks := tasks[continuationId := FreshTask(expected.taskDefId, expected.generation, Some(input), [])];
      status := WorkflowStatus.Pending;
      return None;
    }

    method ForceReset(id: AttemptId, previous: Option<HostId>, target: HostId, lost: bool)
      returns (error: Option<ReduceError>)
      modifies `tasks, `status, `pinnedWorkerHost
      ensures error.None? <==> ApplyEvent(old(Snapshot()), TaskForceRetryRequested(id, previous, target, lost)).Success?
      ensures error.None? ==>
        Snapshot() == ApplyEvent(old(Snapshot()), TaskForceRetryRequested(id, previous, target, lost)).value
      ensures error.Some? ==>
        ApplyEvent(old(Snapshot()), TaskForceRetryRequested(id, previous, target, lost)) == Failure(error.value)
    {
      hide ResetFailedTask;
      if pinnedWorkerHost != previous { return Some(PreviousHostMismatch); }
      if lost != (previous != Some(target)) { return Some(ContextLossFlagMismatch); }
      error := ResetFailed(id);
      if error.None? { pinnedWorkerHost := Some(target); }
    }

    method Apply(event: Event) returns (error: Option<ReduceError>)
      modifies this
      ensures error.None? <==> ApplyEvent(old(Snapshot()), event).Success?
      ensures error.None? ==> Snapshot() == ApplyEvent(old(Snapshot()), event).value
      ensures error.Some? ==> ApplyEvent(old(Snapshot()), event) == Failure(error.value)
    {
      hide ResetFailedTask, RecoverAttempts, UpdatedTask, UpdatedState, FreshTask;
      error := None;
      match event {
        case WorkflowCreated(_) => error := Some(CreateOnExisting);
        case WorkflowStatusChanged(s) => status := s;
        case StartupRecoveryApplied(ids) =>
          if status.Running? { status := WorkflowStatus.Pending; }
          error := RecoverAll(ids);
        case TaskMaterialized(a, task) =>
          if a in tasks { return Some(AttemptExists(a)); }
          tasks := tasks[a := task];
        case VerifierStateUpserted(v, state) => verifierStates := verifierStates[v := state];
        case HumanInputSubmitted(a, continuationId, input) => error := SubmitInput(a, continuationId, input);
        case TaskRetryRequested(a) => error := ResetFailed(a);
        case TaskForceRetryRequested(a, previous, target, lost) => error := ForceReset(a, previous, target, lost);
        case VerifierFeedbackRecorded(v, _) => error := SetState(v, event);
        case VerifierStateStatusChanged(v, _, _, _) => error := SetState(v, event);
        case _ => error := SetTask(event.id, event);
      }
    }
  }

  /** `reduce_workflow_instance_events` over a cell updated event by event. */
  method ReduceInPlace(current: Option<WorkflowInstance>, events: seq<Event>)
    returns (result: Result<WorkflowInstance, ReduceError>)
    ensures result == ReduceEvents(current, events)
  {
    var start := 0;
    var cell: InstanceCell;
    match current {
      case Some(i) => cell := new InstanceCell(i);
      case None =>
        if events == [] { return Failure(EmptyBatch); }
        if !events[0].WorkflowCreated? { return Failure(FirstEventMustCreate); }
        cell := new InstanceCell(events[0].instance);
        start := 1;
    }
    var k := start;
    while k < |events|
      invariant start <= k <= |events|
      invariant Reduce(cell.Snapshot(), events[k..]) == ReduceEvents(current, events)
    {
      var error := cell.Apply(events[k]);
      assert events[k..][1..] == events[k + 1..];
      if error.Some? { return Failure(error.value); }
      k := k + 1;
    }
    return Success(cell.Snapshot());
  }
}
