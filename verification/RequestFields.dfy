/**
 What everyone but the engine may write to a workflow instance, said of the fields of its snapshot alone: when a
 request is accepted, and what the snapshot is after it. A request that is not accepted changes nothing.
 */
module RequestFields {
  import opened Prelude
  import opened JsonValues
  import opened AttemptIds
  import opened Model
  import opened Reducer
  import opened LoopSlices
  import opened Engine
  import opened EngineEffects
  import opened EngineInvariants
  import opened WorkflowRuns

  /** One event is committed: it is logged, and the version counts it. */
  function Logged(s: Sys, event: Event, i: WorkflowInstance): Sys {
    s.(log := s.log + [event], snapshot := i.(version := s.snapshot.version + 1))
  }

  lemma WrittenByFields(s: Sys, guard: bool, event: Event, i: WorkflowInstance)
    requires guard ==> ApplyEvent(s.snapshot, event) == Result.Success(i)
    ensures Written(s, guard, event) == if guard then Logged(s, event, i) else s
  {
    Reduce1(s.snapshot, event);
  }

  /** A workflow can be paused while it is Pending or Running; only its status changes. */
  lemma PausedExactlyWhen(setup: Setup, s: Sys)
    ensures Next(setup, s, Pause) ==
      if s.snapshot.status.Pending? || s.snapshot.status.Running?
      then Logged(s, WorkflowStatusChanged(Paused), s.snapshot.(status := Paused)) else s
  {
    WrittenByFields(s, MayRun(s.snapshot.status), WorkflowStatusChanged(Paused), s.snapshot.(status := Paused));
  }

  /** A paused workflow is resumed as Pending, whatever it was before the pause. */
  lemma ResumedExactlyWhen(setup: Setup, s: Sys)
    ensures Next(setup, s, Resume) ==
      if s.snapshot.status.Paused?
      then Logged(s, WorkflowStatusChanged(WorkflowStatus.Pending), s.snapshot.(status := WorkflowStatus.Pending))
        else s
  {
    WrittenByFields(s, s.snapshot.status.Paused?, WorkflowStatusChanged(WorkflowStatus.Pending),
      s.snapshot.(status := WorkflowStatus.Pending));
  }

  /**
   The loss of a host fails every workflow pinned to it that is neither Completed nor Failed, and no attempt of it.
   */
  lemma FailedWithHostExactlyWhen(setup: Setup, s: Sys, host: HostId)
    ensures Next(setup, s, LoseHost(host)) ==
      if s.snapshot.pinnedWorkerHost == Some(host) && !s.snapshot.status.Completed? && !s.snapshot.status.Failed?
      then Logged(s, WorkflowStatusChanged(WorkflowStatus.Failed), s.snapshot.(status := WorkflowStatus.Failed)) else s
  {
    WrittenByFields(s, !s.snapshot.status.Completed? && !s.snapshot.status.Failed?
      && s.snapshot.pinnedWorkerHost == Some(host), WorkflowStatusChanged(WorkflowStatus.Failed),
      s.snapshot.(status := WorkflowStatus.Failed));
  }

  /** A failed attempt made ready again: it keeps what it was given, and nothing of what became of it. */
  function Again(task: TaskInstance): TaskInstance {
    TaskInstance(task.taskDefId, TaskStatus.Pending, Satisfaction.Pending, false, task.humanInput, task.inputData,
      task.inputMapping, None, task.generationIndex, None)
  }

  /**
   A retry is accepted for a failed attempt of a failed workflow. The attempt is Pending again with its inputs and
   without output, judgement, exit flag and verdict; the workflow is Pending.
   */
  lemma RetriedExactlyWhen(setup: Setup, s: Sys, id: AttemptId)
    ensures Next(setup, s, Retry(id)) ==
      if s.snapshot.status.Failed? && id in s.snapshot.tasks && s.snapshot.tasks[id].status.Failed?
      then Logged(s, TaskRetryRequested(id), s.snapshot.(
             tasks := s.snapshot.tasks[id := Again(s.snapshot.tasks[id])], status := WorkflowStatus.Pending))
      else s
  {
    if Retryable(s.snapshot, id) {
      WrittenByFields(s, true, TaskRetryRequested(id), s.snapshot.(
        tasks := s.snapshot.tasks[id := Again(s.snapshot.tasks[id])], status := WorkflowStatus.Pending));
    }
  }

  /**
   A forced retry is accepted for the same attempts. It also pins the workflow to the host it names, and its event
   tells that local context may be lost exactly if that is not the host the workflow was pinned to.
   */
  lemma ForceRetriedExactlyWhen(setup: Setup, s: Sys, id: AttemptId, target: HostId)
    ensures Next(setup, s, ForceRetry(id, target)) ==
      if s.snapshot.status.Failed? && id in s.snapshot.tasks && s.snapshot.tasks[id].status.Failed?
      then
        var pin := s.snapshot.pinnedWorkerHost;
        Logged(s, TaskForceRetryRequested(id, pin, target, pin.None? || pin.value != target), s.snapshot.(
          tasks := s.snapshot.tasks[id := Again(s.snapshot.tasks[id])], status := WorkflowStatus.Pending,
          pinnedWorkerHost := Some(target)))
      else s
  {
    var pin := s.snapshot.pinnedWorkerHost;
    if Retryable(s.snapshot, id) {
      WrittenByFields(s, true, TaskForceRetryRequested(id, pin, target, pin != Some(target)), s.snapshot.(
        tasks := s.snapshot.tasks[id := Again(s.snapshot.tasks[id])], status := WorkflowStatus.Pending,
        pinnedWorkerHost := Some(target)));
    }
  }

  /**
   Input is accepted for an attempt that asked for it, in a workflow that waits for it, if the task has no attempt of
   the next generation. That attempt is made, pending, with the human input and without any other; the one that asked
   stays as it is, and the workflow is Pending.
   */
  lemma ContinuedExactlyWhen(setup: Setup, s: Sys, id: AttemptId, input: Json)
    requires KeysMatch(setup.def, s.snapshot.tasks)
    ensures var next := AttemptId(id.taskDefId, id.generation + 1);
      Next(setup, s, SubmitInput(id, input)) ==
        if s.snapshot.status.InputNeeded? && id in s.snapshot.tasks && s.snapshot.tasks[id].status.InputNeeded?
           && next !in s.snapshot.tasks
        then Logged(s, HumanInputSubmitted(id, next, input), s.snapshot.(
               tasks := s.snapshot.tasks[next := TaskInstance(
                 id.taskDefId, TaskStatus.Pending, Satisfaction.Pending, false, Some(input), [], [], None,
                 id.generation + 1, None)],
               status := WorkflowStatus.Pending))
        else s
  {
    hide Written, Logged, RecoverAttempts, ResetFailedTask, UpdateTask, UpdateState;
    var next := AttemptId(id.taskDefId, id.generation + 1);
    if id in s.snapshot.tasks {
      WrittenByFields(s, s.snapshot.status.InputNeeded? && s.snapshot.tasks[id].status.InputNeeded?
        && next !in s.snapshot.tasks, HumanInputSubmitted(id, next, input), s.snapshot.(
        tasks := s.snapshot.tasks[next := FreshTask(id.taskDefId, id.generation + 1, Some(input), [])],
        status := WorkflowStatus.Pending));
    }
  }

  lemma NamesTheRunning(tasks: map<AttemptId, TaskInstance>, ids: seq<AttemptId>)
    ensures (set x | x in ids) == RunningIds(tasks) <==>
      forall x :: x in ids <==> x in tasks && tasks[x].status.Running?
  {
    if (set x | x in ids) == RunningIds(tasks) {
      forall x ensures x in ids <==> x in tasks && tasks[x].status.Running? {
        assert x in (set y | y in ids) <==> x in RunningIds(tasks);
      }
    }
  }

  lemma AllRecovered(tasks: map<AttemptId, TaskInstance>, ids: seq<AttemptId>)
    requires forall x :: x in ids <==> x in tasks && tasks[x].status.Running?
    ensures RecoverAttempts(tasks, ids) == Result.Success(
      map x | x in tasks :: if tasks[x].status.Running? then tasks[x].(status := TaskStatus.Pending) else tasks[x])
  {
    RecoverAttemptsSucceeds(tasks, ids);
    RecoverAttemptsFrame(tasks, ids);
    var after := map x | x in tasks ::
      if tasks[x].status.Running? then tasks[x].(status := TaskStatus.Pending) else tasks[x];
    assert RecoverAttempts(tasks, ids).value == after;
  }

  /**
   Startup recovery, while no engine holds the instance, takes a Pending or Running workflow that is Running or has
   attempts that are. It names each running attempt once, and makes all of them and the workflow Pending.
   */
  lemma RecoveredExactlyWhen(setup: Setup, s: Sys, ids: seq<AttemptId>)
    ensures Next(setup, s, Recover(ids)) ==
      if s.phase.Idle? && (s.snapshot.status.Running? || (s.snapshot.status.Pending? && ids != []))
         && (forall a, b :: 0 <= a < b < |ids| ==> ids[a] != ids[b])
         && (forall x :: x in ids <==> x in s.snapshot.tasks && s.snapshot.tasks[x].status.Running?)
      then Logged(s, StartupRecoveryApplied(ids), s.snapshot.(
             tasks := map x | x in s.snapshot.tasks ::
               if s.snapshot.tasks[x].status.Running? then s.snapshot.tasks[x].(status := TaskStatus.Pending)
               else s.snapshot.tasks[x],
             status := WorkflowStatus.Pending))
      else s
  {
    var i := s.snapshot;
    var guard := s.phase.Idle? && MayRun(i.status) && Distinct(ids) && (set x | x in ids) == RunningIds(i.tasks)
      && (i.status.Running? || ids != []);
    hide RecoverAttempts, RunningIds, Written;
    NamesTheRunning(i.tasks, ids);
    if guard {
      AllRecovered(i.tasks, ids);
      WrittenByFields(s, guard, StartupRecoveryApplied(ids),
        i.(tasks := RecoverAttempts(i.tasks, ids).value, status := WorkflowStatus.Pending));
    } else {
      WrittenByFields(s, guard, StartupRecoveryApplied(ids), i);
    }
  }

  /** An engine takes up an instance that is Pending or Running, and no other. */
  lemma TakenUpExactlyWhen(setup: Setup, s: Sys, loops: Loops)
    requires s.phase.Idle? && LoopsOf(setup.def, loops)
    ensures Next(setup, s, Load(loops)) ==
      if s.snapshot.status.Pending? || s.snapshot.status.Running?
      then s.(loops := loops, phase := Loaded(s.snapshot)) else s
  {
  }
}
