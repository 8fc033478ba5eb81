/**
 Which attempts a run creates and which it forgets: an exit closes a slice to the engine for good, and an
 attempt that is Running while no engine attends to it stays Running until the next startup recovery.
 */
module RunAttempts {
  import opened Prelude
  import opened JsonValues
  import opened AttemptIds
  import opened Model
  import opened Reducer
  import opened LoopSlices
  import opened Engine
  import opened EngineEffects
  import opened EngineInvariants
  import opened EngineSteps
  import opened OpeningAndRecovery
  import opened WorkflowRuns
  import opened RunInvariants
  import opened RunSafety
  import opened RunHistory

  /** New attempts of a slice appear only while the slice is not interrupted, exits of the same batch included. */
  ghost predicate ExitsClose(loops: Loops, before: Tasks, after: Tasks) {
    forall v, x :: v in loops.body && x in after && x !in before && x.taskDefId in loops.body[v]
      ==> !SliceInterruptedByExit(after, loops.body[v])
  }

  /** Attempts other than `except` that were Running still are. */
  ghost predicate RunningStay(before: Tasks, after: Tasks, except: Option<AttemptId>) {
    forall x :: x in before && before[x].status.Running? && Some(x) != except ==> x in after && after[x].status.Running?
  }

  ghost predicate Changes(loops: Loops, before: Tasks, after: Tasks, except: Option<AttemptId>) {
    ExitsClose(loops, before, after) && RunningStay(before, after, except)
  }

  /** The attempt whose result the engine is waiting for or recording. */
  function Attended(phase: Phase): Option<AttemptId> {
    if (phase.Waiting? || phase.Recording?) && phase.todo != [] then Some(phase.todo[0]) else None
  }

  lemma StoreTasks(s: Sys, base: WorkflowInstance, events: seq<Event>)
    requires Store(s, base, events).Some?
    ensures Store(s, base, events).value.snapshot.tasks == Reduce(base, events).value.tasks
  {
  }

  lemma StatusKeepsTasks(s: Sys, base: WorkflowInstance, status: WorkflowStatus)
    requires Store(s, base, [WorkflowStatusChanged(status)]).Some?
    ensures Store(s, base, [WorkflowStatusChanged(status)]).value.snapshot.tasks == base.tasks
  {
    Reduce1(base, WorkflowStatusChanged(status));
  }

  lemma InitialChanges(setup: Setup, s: Sys)
    requires UniqueIds(setup.def) && Inv(setup.def, s.loops, s.snapshot)
    requires s.phase.Ready? ==> Quiet(s.phase.base, s.snapshot)
    ensures Changes(s.loops, s.snapshot.tasks, AfterInitialise(setup, s).snapshot.tasks, None)
  {
    if s.phase.Ready? && s.phase.base.tasks == map[] && setup.def.tasks != [] {
      var events := InitialTaskEvents(s.phase.base, setup.def, setup.def.tasks);
      if Store(s, s.phase.base, events).Some? {
        CurrentBase(s, s.phase.base, events);
        InitialAreFresh(setup, s.snapshot);
        StoreTasks(s, s.phase.base, events);
        FreshNotInterrupted(setup, s.loops, Reduce(s.snapshot, events).value.tasks);
      }
    }
  }

  lemma InitialAreFresh(setup: Setup, i: WorkflowInstance)
    requires UniqueIds(setup.def) && i.tasks == map[]
    ensures Reduce(i, InitialTaskEvents(i, setup.def, setup.def.tasks)).Success?
    ensures FreshFirst(setup.def, Reduce(i, InitialTaskEvents(i, setup.def, setup.def.tasks)).value.tasks)
  {
    assert forall t :: t in setup.def.tasks ==> t.id in TaskIds(setup.def);
    InitialEventsReduce(i, setup.def, setup.def.tasks, i);
  }

  lemma FreshNotInterrupted(setup: Setup, loops: Loops, tasks: Tasks)
    requires FreshFirst(setup.def, tasks)
    ensures forall v :: v in loops.body ==> !SliceInterruptedByExit(tasks, loops.body[v])
  {
    forall id | id in tasks ensures !tasks[id].status.Skipped? && !tasks[id].earlyExit {
      assert tasks[id] == FreshTask(id.taskDefId, 1, None, tasks[id].inputData);
    }
  }

  lemma OpenChanges(setup: Setup, s: Sys)
    requires LoopShape(setup.def, s.loops) && Inv(setup.def, s.loops, s.snapshot)
    requires s.phase.Top? ==> Quiet(s.phase.base, s.snapshot) && (s.phase.base.tasks == map[] ==> setup.def.tasks == [])
    ensures AfterOpen(setup, s).snapshot.tasks == s.snapshot.tasks
  {
    if s.phase.Top? && Openings(setup, s, s.phase.base) != [] {
      var events := Openings(setup, s, s.phase.base);
      if Store(s, s.phase.base, events).Some? {
        CurrentBase(s, s.phase.base, events);
        TasksExist(setup, s, s.snapshot);
        OpeningKeepsInv(setup.def, s.loops, s.snapshot);
      }
    }
  }

  lemma StartChanges(s: Sys)
    requires s.phase.Starting?
      ==> Quiet(s.phase.base, s.snapshot) && s.phase.todo != [] && s.phase.todo[0] in s.phase.base.tasks
    ensures Changes(s.loops, s.snapshot.tasks, AfterStart(s).snapshot.tasks, None)
  {
    if s.phase.Starting? {
      var events := [TaskStatusChanged(s.phase.todo[0], TaskStatus.Running)];
      if Store(s, s.phase.base, events).Some? {
        CurrentBase(s, s.phase.base, events);
        Reduce1(s.snapshot, events[0]);
      }
    }
  }

  lemma ResultChanges(def: WorkflowDef, loops: Loops, i: WorkflowInstance, id: AttemptId, r: ResolvedInputs,
      j: WorkflowInstance)
    requires SlicesDisjoint(loops) && ResultStep(def, loops, i, id, r, j)
    ensures Changes(loops, i.tasks, j.tasks, Some(id))
  {
    assert NewAttempts(def, loops, i, id, j) && OthersStay(i.tasks, id, j.tasks);
  }

  lemma RejectChanges(setup: Setup, s: Sys)
    requires LoopShape(setup.def, s.loops)
    requires s.phase.Waiting? ==> Quiet(s.phase.base, s.snapshot) && Awaiting(setup, s, s.phase.base, s.phase.todo)
    ensures Changes(s.loops, s.snapshot.tasks, AfterReject(setup, s).snapshot.tasks, Attended(s.phase))
  {
    if s.phase.Waiting? && Dispatching(setup, s.phase) && !InputsAccepted(setup, s) {
      var id, r := s.phase.todo[0], InputsOf(setup, s);
      var events := InputEvents(id, r) + FailTask(id) + FailWorkflow;
      if Store(s, s.phase.base, events).Some? {
        CurrentBase(s, s.phase.base, events);
        FailureAccepted(setup.def, s.loops, s.snapshot, id, r);
        ResultChanges(setup.def, s.loops, s.snapshot, id, r, Reduce(s.snapshot, events).value);
        StoreTasks(s, s.snapshot, events);
      }
    }
  }

  lemma RecordBatchChanges(def: WorkflowDef, s: Sys, todo: seq<AttemptId>, onto: WorkflowInstance, r: ResolvedInputs,
      batch: ResultBatch)
    requires SlicesDisjoint(s.loops) && todo != [] && Quiet(onto, s.snapshot)
    requires AcceptedBatch(def, s.loops, onto, todo[0], r, batch)
    ensures Changes(s.loops, s.snapshot.tasks, RecordBatch(s, todo, onto, batch).snapshot.tasks, Some(todo[0]))
  {
    SameChanges(s.loops, s.snapshot.tasks, Some(todo[0]));
    if Store(s, onto, batch.events).Some? {
      CurrentBase(s, onto, batch.events);
      ResultChanges(def, s.loops, s.snapshot, todo[0], r, Reduce(s.snapshot, batch.events).value);
      StoreTasks(s, s.snapshot, batch.events);
    }
  }

  lemma RecordChanges(setup: Setup, s: Sys)
    requires LoopShape(setup.def, s.loops) && GoodStore(setup, s)
    requires s.phase.Recording? ==>
      && Quiet(s.phase.base, s.snapshot) && Awaiting(setup, s, s.phase.base, s.phase.todo)
        && Quiet(s.phase.onto, s.snapshot)
      && (s.phase.onto == s.phase.base
        || s.phase.onto == s.phase.base.(status := Paused, version := s.phase.onto.version))
    ensures Changes(s.loops, s.snapshot.tasks, AfterRecord(setup, s).snapshot.tasks, Attended(s.phase))
  {
    if s.phase.Recording? && Dispatching(setup, s.phase) {
      RecordStores(setup, s, s.phase.base, s.phase.todo, s.phase.onto, TaskOf(setup, s.phase), s.phase.answer);
      RecordBatchChanges(setup.def, s, s.phase.todo, s.phase.onto, InputsOf(setup, s),
        BatchOf(setup, s, s.phase.answer));
    } else {
      SameChanges(s.loops, s.snapshot.tasks, Attended(s.phase));
    }
  }

  lemma ConcludedKeepsTasks(setup: Setup, s: Sys, base: WorkflowInstance)
    requires Quiet(base, s.snapshot)
    ensures Concluded(setup, s, base).snapshot.tasks == s.snapshot.tasks
  {
    if Store(s, base, [WorkflowStatusChanged(WorkflowStatus.Completed)]).Some? {
      StatusKeepsTasks(s, base, WorkflowStatus.Completed);
    }
  }

  lemma BeginKeepsTasks(s: Sys)
    requires s.phase.Loaded? ==> Quiet(s.phase.base, s.snapshot)
    ensures AfterBegin(s).snapshot.tasks == s.snapshot.tasks
  {
    if s.phase.Loaded? && Store(s, s.phase.base, [WorkflowStatusChanged(WorkflowStatus.Running)]).Some? {
      StatusKeepsTasks(s, s.phase.base, WorkflowStatus.Running);
    }
  }

  predicate IsEngineStep(step: Step) {
    step.Load? || step.Begin? || step.Initialise? || step.Open? || step.Pick? || step.Start? || step.Reject?
    || step.Answer? || step.Record? || step.Settle? || step.Crash?
  }

  lemma SameChanges(loops: Loops, tasks: Tasks, except: Option<AttemptId>)
    ensures Changes(loops, tasks, tasks, except)
  {
  }

  lemma MostKeepTasks(setup: Setup, s: Sys, step: Step)
    requires LoopShape(setup.def, s.loops) && Inv(setup.def, s.loops, s.snapshot) && PhaseOk(setup, s)
    requires step.Load? || step.Begin? || step.Open? || step.Pick? || step.Answer? || step.Settle? || step.Crash?
    ensures Next(setup, s, step).snapshot.tasks == s.snapshot.tasks
  {
    hide LoopShape, Inv, Reduce, Store, Concluded, AfterBegin, AfterOpen, BatchOf, InputsAccepted, Untried, LoopsOf;
    match step {
      case Begin => BeginKeepsTasks(s);
      case Open => OpenChanges(setup, s);
      case Pick => if s.phase.Passing? { ConcludedKeepsTasks(setup, s, s.phase.base); }
      case Settle => if s.phase.Boundary? { ConcludedKeepsTasks(setup, s, s.phase.base); }
      case _ =>
    }
  }

  lemma Excepting(loops: Loops, before: Tasks, after: Tasks, except: Option<AttemptId>)
    requires Changes(loops, before, after, None)
    ensures Changes(loops, before, after, except)
  {
  }

  lemma EngineChanges(setup: Setup, s: Sys, step: Step)
    requires Registered(setup.def) && Good(setup, s) && IsEngineStep(step)
    ensures Changes(s.loops, s.snapshot.tasks, Next(setup, s, step).snapshot.tasks, Attended(s.phase))
  {
    hide Registered, Inv, Changes, Replayed, WorkflowAllCompleted, AfterInitialise, AfterReject, AfterRecord,
      AfterBegin,
      AfterOpen, AfterPick, AfterSettle, Attended;
    RegisteredSlices(setup.def, s.loops);
    if step.Initialise? {
      InitialChanges(setup, s);
      Excepting(s.loops, s.snapshot.tasks, AfterInitialise(setup, s).snapshot.tasks, Attended(s.phase));
    } else if step.Start? {
      StartChanges(s);
      Excepting(s.loops, s.snapshot.tasks, AfterStart(s).snapshot.tasks, Attended(s.phase));
    } else if step.Reject? {
      RejectChanges(setup, s);
    } else if step.Record? {
      RecordChanges(setup, s);
    } else {
      MostKeepTasks(setup, s, step);
      SameChanges(s.loops, s.snapshot.tasks, Attended(s.phase));
    }
  }

  /** Once a slice holds a skipped or exiting attempt, no engine step adds an attempt to it. */
  lemma InterruptedSliceStaysClosed(setup: Setup, s: Sys, step: Step, v: TaskId, x: AttemptId)
    requires Registered(setup.def) && Good(setup, s) && IsEngineStep(step) && v in s.loops.body
    requires SliceInterruptedByExit(Next(setup, s, step).snapshot.tasks, s.loops.body[v])
    requires x in Next(setup, s, step).snapshot.tasks && x.taskDefId in s.loops.body[v]
    ensures x in s.snapshot.tasks
  {
    EngineChanges(setup, s, step);
  }

  /** An attempt of the slice was skipped, or completed with an early exit: for good. */
  ghost predicate ClosedByExit(tasks: Tasks, slice: seq<TaskId>) {
    exists id :: id in tasks && tasks[id].taskDefId in slice
      && (tasks[id].status.Skipped? || (tasks[id].status.Completed? && tasks[id].earlyExit))
  }

  lemma ClosedStays(def: WorkflowDef, i: WorkflowInstance, j: WorkflowInstance, slice: seq<TaskId>)
    requires ClosedByExit(i.tasks, slice) && Evolves(i, j) && KeysMatch(def, i.tasks) && KeysMatch(def, j.tasks)
    ensures ClosedByExit(j.tasks, slice) && SliceInterruptedByExit(j.tasks, slice)
  {
    var id :| id in i.tasks && i.tasks[id].taskDefId in slice
      && (i.tasks[id].status.Skipped? || (i.tasks[id].status.Completed? && i.tasks[id].earlyExit));
    assert id in j.tasks && j.tasks[id].taskDefId == i.tasks[id].taskDefId;
  }

  /** Apart from human input, nobody but the engine creates attempts. */
  lemma OthersCreateNothing(setup: Setup, s: Sys, step: Step)
    requires !IsEngineStep(step) && !step.SubmitInput?
    ensures Next(setup, s, step).snapshot.tasks.Keys == s.snapshot.tasks.Keys
  {
    match step {
      case Pause => WrittenKeys(s, MayRun(s.snapshot.status), WorkflowStatusChanged(Paused));
      case Resume => WrittenKeys(s, s.snapshot.status.Paused?, WorkflowStatusChanged(WorkflowStatus.Pending));
      case LoseHost(host) =>
        WrittenKeys(s, !s.snapshot.status.Completed? && !s.snapshot.status.Failed?
          && s.snapshot.pinnedWorkerHost == Some(host),
                    WorkflowStatusChanged(WorkflowStatus.Failed));
      case Retry(id) => WrittenKeys(s, Retryable(s.snapshot, id), TaskRetryRequested(id));
      case ForceRetry(id, target) =>
        var pin := s.snapshot.pinnedWorkerHost;
        WrittenKeys(s, Retryable(s.snapshot, id), TaskForceRetryRequested(id, pin, target, pin != Some(target)));
      case Recover(ids) =>
        WrittenKeys(s, s.phase.Idle? && MayRun(s.snapshot.status) && Distinct(ids)
          && (set x | x in ids) == RunningIds(s.snapshot.tasks)
                       && (s.snapshot.status.Running? || ids != []), StartupRecoveryApplied(ids));
    }
  }

  lemma WrittenKeys(s: Sys, guard: bool, event: Event)
    requires event.WorkflowStatusChanged? || event.TaskRetryRequested? || event.TaskForceRetryRequested?
      || event.StartupRecoveryApplied?
    ensures Written(s, guard, event).snapshot.tasks.Keys == s.snapshot.tasks.Keys
  {
    Reduce1(s.snapshot, event);
    if event.StartupRecoveryApplied? && RecoverAttempts(s.snapshot.tasks, event.ids).Success? {
      RecoverAttemptsFrame(s.snapshot.tasks, event.ids);
    }
  }

  lemma ClosedSliceStep(setup: Setup, s: Sys, step: Step, v: TaskId)
    requires Registered(setup.def) && Good(setup, s) && !step.SubmitInput?
    requires v in s.loops.body && ClosedByExit(s.snapshot.tasks, s.loops.body[v])
    ensures var t := Next(setup, s, step);
      && Good(setup, t) && t.loops.body == s.loops.body && ClosedByExit(t.snapshot.tasks, s.loops.body[v])
      && AttemptsOf(t.snapshot.tasks, s.loops.body[v]) <= AttemptsOf(s.snapshot.tasks, s.loops.body[v])
  {
    hide Good, Registered, Next, LoopsOf, KeysMatch, ClosedByExit, SliceInterruptedByExit;
    var t := Next(setup, s, step);
    StepIsGood(setup, s, step);
    StepFollows(setup, s, step);
    GoodBasics(setup, s);
    GoodBasics(setup, t);
    UniqueWhenRegistered(setup.def);
    SameSlices(setup.def, s.loops, t.loops);
    ClosedStays(setup.def, s.snapshot, t.snapshot, s.loops.body[v]);
    if IsEngineStep(step) {
      forall x | x in t.snapshot.tasks && x.taskDefId in s.loops.body[v] ensures x in s.snapshot.tasks {
        InterruptedSliceStaysClosed(setup, s, step, v, x);
      }
    } else {
      OthersCreateNothing(setup, s, step);
    }
  }

  lemma UniqueWhenRegistered(def: WorkflowDef)
    requires Registered(def)
    ensures UniqueIds(def)
  {
  }

  lemma GoodBasics(setup: Setup, s: Sys)
    requires Good(setup, s)
    ensures LoopsOf(setup.def, s.loops) && KeysMatch(setup.def, s.snapshot.tasks)
  {
  }

  /** Nobody submits human input. */
  ghost predicate WithoutInput(steps: seq<Step>) {
    forall k :: 0 <= k < |steps| ==> !steps[k].SubmitInput?
  }

  lemma WithoutInputTail(steps: seq<Step>)
    requires WithoutInput(steps) && steps != []
    ensures !steps[0].SubmitInput? && WithoutInput(steps[1..])
  {
  }

  /** The attempts of one slice. */
  function AttemptsOf(tasks: Tasks, slice: seq<TaskId>): set<AttemptId> {
    set id | id in tasks && id.taskDefId in slice
  }

  /**
   Over every run without human input, a slice that holds a skipped attempt or one that completed with an early
   exit never gains an attempt.
   */
  lemma {:induction false} ClosedSliceNeverGrows(setup: Setup, s: Sys, steps: seq<Step>, v: TaskId)
    requires Registered(setup.def) && Good(setup, s) && WithoutInput(steps)
    requires v in s.loops.body && ClosedByExit(s.snapshot.tasks, s.loops.body[v])
    ensures AttemptsOf(Run(setup, s, steps).snapshot.tasks, s.loops.body[v]) <= AttemptsOf(s.snapshot.tasks,
      s.loops.body[v])
    decreases |steps|
  {
    hide Good, Registered, Next, ClosedByExit, WithoutInput, AttemptsOf;
    if steps != [] {
      WithoutInputTail(steps);
      ClosedSliceStep(setup, s, steps[0], v);
      ClosedSliceNeverGrows(setup, Next(setup, s, steps[0]), steps[1..], v);
    }
  }

  // ---------------------------------------------------------------------------
  // Everyone else

  lemma WrittenStay(s: Sys, guard: bool, event: Event)
    requires guard && ApplyEvent(s.snapshot, event).Success?
      ==> RunningStay(s.snapshot.tasks, ApplyEvent(s.snapshot, event).value.tasks, None)
    ensures RunningStay(s.snapshot.tasks, Written(s, guard, event).snapshot.tasks, None)
  {
    Reduce1(s.snapshot, event);
  }

  predicate IsRequest(event: Event) {
    event.WorkflowStatusChanged? || event.HumanInputSubmitted? || event.TaskRetryRequested?
      || event.TaskForceRetryRequested?
  }

  lemma RequestStays(i: WorkflowInstance, event: Event)
    requires IsRequest(event) && ApplyEvent(i, event).Success?
    ensures RunningStay(i.tasks, ApplyEvent(i, event).value.tasks, None)
  {
  }

  lemma RequestWritten(s: Sys, guard: bool, event: Event)
    requires IsRequest(event)
    ensures RunningStay(s.snapshot.tasks, Written(s, guard, event).snapshot.tasks, None)
  {
    hide ApplyEvent, Written;
    if ApplyEvent(s.snapshot, event).Success? { RequestStays(s.snapshot, event); }
    WrittenStay(s, guard, event);
  }

  lemma OthersKeepRunning(setup: Setup, s: Sys, step: Step)
    requires !IsEngineStep(step) && !step.Recover?
    ensures RunningStay(s.snapshot.tasks, Next(setup, s, step).snapshot.tasks, None)
  {
    hide Written, ApplyEvent;
    match step {
      case Pause => RequestWritten(s, MayRun(s.snapshot.status), WorkflowStatusChanged(Paused));
      case Resume => RequestWritten(s, s.snapshot.status.Paused?, WorkflowStatusChanged(WorkflowStatus.Pending));
      case LoseHost(host) =>
        RequestWritten(s, !s.snapshot.status.Completed? && !s.snapshot.status.Failed?
          && s.snapshot.pinnedWorkerHost == Some(host),
                       WorkflowStatusChanged(WorkflowStatus.Failed));
      case SubmitInput(id, input) =>
        if id in s.snapshot.tasks {
          var next := AttemptId(s.snapshot.tasks[id].taskDefId, s.snapshot.tasks[id].generationIndex + 1);
          RequestWritten(s, s.snapshot.status.InputNeeded? && s.snapshot.tasks[id].status.InputNeeded?
            && next !in s.snapshot.tasks,
                         HumanInputSubmitted(id, next, input));
        }
      case Retry(id) => RequestWritten(s, Retryable(s.snapshot, id), TaskRetryRequested(id));
      case ForceRetry(id, target) =>
        var pin := s.snapshot.pinnedWorkerHost;
        RequestWritten(s, Retryable(s.snapshot, id), TaskForceRetryRequested(id, pin, target, pin != Some(target)));
    }
  }

  /** Running in the store, and no engine is waiting for it. */
  ghost predicate Orphaned(s: Sys, id: AttemptId) {
    id in s.snapshot.tasks && s.snapshot.tasks[id].status.Running? && Attended(s.phase) != Some(id)
  }

  lemma StillUnattended(setup: Setup, s: Sys, step: Step, id: AttemptId)
    requires PhaseOk(setup, s) && Orphaned(s, id)
    ensures Attended(Next(setup, s, step).phase) != Some(id)
  {
    hide Reduce, Untried, NoneFailed, WorkflowAllCompleted, ResultEvents, InputsAccepted, RunnableIds, Openings,
      InitialTaskEvents, FindTask, SortIds, Distinct, RunningIds;
  }

  lemma OrphanStays(setup: Setup, s: Sys, step: Step, id: AttemptId)
    requires Registered(setup.def) && Good(setup, s) && Orphaned(s, id) && !step.Recover?
    ensures Orphaned(Next(setup, s, step), id)
  {
    StillUnattended(setup, s, step, id);
    if IsEngineStep(step) { EngineChanges(setup, s, step); } else { OthersKeepRunning(setup, s, step); }
  }

  /** Without a startup recovery an orphaned attempt is never run again, whatever anyone does. */
  lemma {:induction false} OrphansNeedRecovery(setup: Setup, s: Sys, steps: seq<Step>, id: AttemptId)
    requires Registered(setup.def) && Good(setup, s) && Orphaned(s, id)
    requires forall k :: 0 <= k < |steps| ==> !steps[k].Recover?
    ensures Orphaned(Run(setup, s, steps), id)
    decreases |steps|
  {
    hide Registered, Good, Orphaned, Next;
    if steps != [] {
      OrphanStays(setup, s, steps[0], id);
      StepIsGood(setup, s, steps[0]);
      OrphansNeedRecovery(setup, Next(setup, s, steps[0]), steps[1..], id);
    }
  }

  /** A recovery, which only a runnable workflow gets, leaves nothing Running and changes nothing else. */
  lemma RecoveryClears(setup: Setup, s: Sys, ids: seq<AttemptId>)
    requires s.phase.Idle? && MayRun(s.snapshot.status) && Distinct(ids)
      && (set x | x in ids) == RunningIds(s.snapshot.tasks)
    ensures var t := AfterRecover(s, ids);
      && t.snapshot.status.Pending? && RunningIds(t.snapshot.tasks) == {}
      && t.snapshot.tasks.Keys == s.snapshot.tasks.Keys
      && (forall id :: id in s.snapshot.tasks ==> t.snapshot.tasks[id] == Recovered(s.snapshot.tasks[id]))
      && t.snapshot.verifierStates == s.snapshot.verifierStates
        && t.snapshot.pinnedWorkerHost == s.snapshot.pinnedWorkerHost
      && AfterRecover(t, []) == t
  {
    var event := StartupRecoveryApplied(ids);
    assert forall k :: 0 <= k < |ids| ==> ids[k] in RunningIds(s.snapshot.tasks);
    RecoverAttemptsSucceeds(s.snapshot.tasks, ids);
    RecoverAttemptsFrame(s.snapshot.tasks, ids);
    Reduce1(s.snapshot, event);
    if ids == [] {
      assert RunningIds(s.snapshot.tasks) == {};
    }
    forall id | id in s.snapshot.tasks
           ensures AfterRecover(s, ids).snapshot.tasks[id] == Recovered(s.snapshot.tasks[id]) {
      assert s.snapshot.tasks[id].status.Running? ==> id in RunningIds(s.snapshot.tasks);
    }
  }
}
