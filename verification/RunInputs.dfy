/**
 The inputs an attempt is dispatched with are resolved a second time, after it has become Running, and default to
 none. Over runs without human input the default is never used; with it, exactly if a result of the same pass has
 put a pending attempt in front of a source in the attempt's own slice.
 */
module RunInputs {
  import opened Prelude
  import opened JsonValues
  import opened AttemptIds
  import opened Model
  import opened Reducer
  import opened LoopSlices
  import opened Engine
  import opened EngineEffects
  import opened EngineInvariants
  import opened EngineSteps
  import opened OpeningAndRecovery
  import opened WorkflowRuns
  import opened RunInvariants
  import opened RunSafety
  import opened RunHistory
  import opened RunAttempts
  import opened WholeGenerations

  predicate Resolves(setup: Setup, loops: Loops, tasks: Tasks, id: AttemptId) {
    id in tasks && ResolveInputs(tasks, setup.def, loops, tasks[id]).Some?
  }

  /** What the pass has still to do can be done: every pending attempt of the plan is runnable. */
  ghost predicate PlanRunnable(setup: Setup, loops: Loops, tasks: Tasks, todo: seq<AttemptId>) {
    forall x :: x in todo && x in tasks && tasks[x].status.Pending? ==> Runnable(tasks, setup.def, loops, x)
  }

  /** What the engine has planned or started resolves on the snapshot it holds. */
  ghost predicate PhaseResolves(setup: Setup, loops: Loops, phase: Phase) {
    match phase
    case Passing(base, todo, progress) => PlanRunnable(setup, loops, base.tasks, todo)
    case Starting(base, todo) => PlanRunnable(setup, loops, base.tasks, todo)
    case Waiting(base, todo) =>
      PlanRunnable(setup, loops, base.tasks, todo) && todo != [] && Resolves(setup, loops, base.tasks, todo[0])
    case Recording(base, todo, onto, answer) =>
      PlanRunnable(setup, loops, base.tasks, todo) && todo != [] && Resolves(setup, loops, base.tasks, todo[0])
    case _ => true
  }

  // ---------------------------------------------------------------------------
  // The engine

  lemma InitialInStep(setup: Setup, s: Sys)
    requires Registered(setup.def) && Good(setup, s) && InStep(setup.def, s.loops, s.snapshot.tasks)
    ensures InStep(setup.def, s.loops, AfterInitialise(setup, s).snapshot.tasks)
  {
    RegisteredSlices(setup.def, s.loops);
    if s.phase.Ready? && s.phase.base.tasks == map[] && setup.def.tasks != [] {
      var events := InitialTaskEvents(s.phase.base, setup.def, setup.def.tasks);
      if Store(s, s.phase.base, events).Some? {
        CurrentBase(s, s.phase.base, events);
        InitialIsWhole(setup, s.snapshot);
        StoreTasks(s, s.phase.base, events);
        FirstInStep(setup.def, s.loops, Reduce(s.snapshot, events).value.tasks);
      }
    }
  }

  lemma InitialIsWhole(setup: Setup, i: WorkflowInstance)
    requires UniqueIds(setup.def) && i.tasks == map[]
    ensures Reduce(i, InitialTaskEvents(i, setup.def, setup.def.tasks)).Success?
    ensures var tasks := Reduce(i, InitialTaskEvents(i, setup.def, setup.def.tasks)).value.tasks;
      FreshFirst(setup.def, tasks) && forall t :: t in TaskIds(setup.def) ==> AttemptId(t, 1) in tasks
  {
    assert forall t :: t in setup.def.tasks ==> t.id in TaskIds(setup.def);
    InitialEventsReduce(i, setup.def, setup.def.tasks, i);
  }

  lemma FirstInStep(def: WorkflowDef, loops: Loops, tasks: Tasks)
    requires LoopShape(def, loops) && FreshFirst(def, tasks)
    requires forall t :: t in TaskIds(def) ==> AttemptId(t, 1) in tasks
    ensures InStep(def, loops, tasks)
  {
  }

  lemma OpenPlans(setup: Setup, s: Sys)
    ensures s.phase.Top? ==> PhaseResolves(setup, s.loops, AfterOpen(setup, s).phase)
  {
  }

  lemma PickPlans(setup: Setup, s: Sys)
    requires PhaseResolves(setup, s.loops, s.phase)
    ensures PhaseResolves(setup, s.loops, AfterPick(setup, s).phase)
  {
  }

  lemma StartResolves(setup: Setup, s: Sys)
    requires Registered(setup.def) && Good(setup, s) && InStep(setup.def, s.loops, s.snapshot.tasks)
    requires s.phase.Starting? && PhaseResolves(setup, s.loops, s.phase)
    ensures InStep(setup.def, s.loops, AfterStart(s).snapshot.tasks)
    ensures PhaseResolves(setup, s.loops, AfterStart(s).phase)
  {
    hide Inv, LoopsOf, Replayed, Registered, LoopShape, InStep, KeysMatch, WorkflowAllCompleted;
    RegisteredSlices(setup.def, s.loops);
    StoreBasics(setup, s);
    var events := [TaskStatusChanged(s.phase.todo[0], TaskStatus.Running)];
    if Store(s, s.phase.base, events).Some? {
      CurrentBase(s, s.phase.base, events);
      var id := s.phase.todo[0];
      StartedTasks(setup, s, id);
      StartKeepsInStep(setup.def, s.loops, s.snapshot, id);
      StartKeepsPlan(setup, s.loops, s.snapshot, id, s.phase.todo);
    }
  }

  lemma StartedTasks(setup: Setup, s: Sys, id: AttemptId)
    requires id in s.snapshot.tasks
    ensures Store(s, s.snapshot, [TaskStatusChanged(id, TaskStatus.Running)]).Some? ==>
      Store(s, s.snapshot, [TaskStatusChanged(id, TaskStatus.Running)]).value.snapshot.tasks
        == Started(s.snapshot, id).tasks
  {
    Reduce1(s.snapshot, TaskStatusChanged(id, TaskStatus.Running));
  }

  lemma StartKeepsPlan(setup: Setup, loops: Loops, i: WorkflowInstance, id: AttemptId, todo: seq<AttemptId>)
    requires KeysMatch(setup.def, i.tasks) && PlanRunnable(setup, loops, i.tasks, todo)
    requires id in todo && id in i.tasks && i.tasks[id].status.Pending?
    ensures PlanRunnable(setup, loops, Started(i, id).tasks, todo) && Resolves(setup, loops, Started(i, id).tasks, id)
  {
    hide ResolveInputs, KeysMatch;
    ResolvesAfterStart(setup.def, loops, i, id, id);
    forall x | x in todo && x in i.tasks && Started(i, id).tasks[x].status.Pending?
      ensures Runnable(Started(i, id).tasks, setup.def, loops, x)
    {
      ResolvesAfterStart(setup.def, loops, i, id, x);
    }
  }

  lemma ResultKeepsPlan(setup: Setup, loops: Loops, i: WorkflowInstance, id: AttemptId, r: ResolvedInputs,
      j: WorkflowInstance, todo: seq<AttemptId>)
    requires Registered(setup.def) && LoopsOf(setup.def, loops) && LoopShape(setup.def, loops)
    requires Inv(setup.def, loops, i) && KeysMatch(setup.def, j.tasks) && InStep(setup.def, loops, i.tasks)
    requires ResultStep(setup.def, loops, i, id, r, j) && Evolves(i, j) && i.tasks[id].status.Running?
    requires PlanRunnable(setup, loops, i.tasks, todo) && forall x :: x in todo ==> x in i.tasks
    ensures PlanRunnable(setup, loops, j.tasks, todo)
  {
    forall x | x in todo && x in j.tasks && j.tasks[x].status.Pending? ensures Runnable(j.tasks, setup.def, loops, x) {
      PendingBefore(setup.def, loops, i, id, r, j, x);
      StaysRunnable(setup.def, loops, i, id, r, j, x);
    }
  }

  lemma PendingBefore(def: WorkflowDef, loops: Loops, i: WorkflowInstance, id: AttemptId, r: ResolvedInputs,
      j: WorkflowInstance, x: AttemptId)
    requires ResultStep(def, loops, i, id, r, j) && x in i.tasks && x in j.tasks && j.tasks[x].status.Pending?
    ensures i.tasks[x].status.Pending?
  {
  }

  /** A commit of a result keeps the slices in step, and the rest of the plan runnable. */
  lemma ResultInStep(setup: Setup, s: Sys, id: AttemptId, r: ResolvedInputs, events: seq<Event>, todo: seq<AttemptId>)
    requires Registered(setup.def) && GoodStore(setup, s) && InStep(setup.def, s.loops, s.snapshot.tasks)
    requires Store(s, s.snapshot, events).Some? && GoodStore(setup, Store(s, s.snapshot, events).value)
    requires id in s.snapshot.tasks && s.snapshot.tasks[id].status.Running?
    requires ResultStep(setup.def, s.loops, s.snapshot, id, r, Reduce(s.snapshot, events).value)
    requires Evolves(s.snapshot, Reduce(s.snapshot, events).value)
    requires PlanRunnable(setup, s.loops, s.snapshot.tasks, todo) && forall x :: x in todo ==> x in s.snapshot.tasks
    ensures InStep(setup.def, s.loops, Store(s, s.snapshot, events).value.snapshot.tasks)
    ensures PlanRunnable(setup, s.loops, Store(s, s.snapshot, events).value.snapshot.tasks, todo)
  {
    RegisteredSlices(setup.def, s.loops);
    StoreTasks(s, s.snapshot, events);
    StoreBasics(setup, s);
    StoreBasics(setup, Store(s, s.snapshot, events).value);
    hide Registered, LoopsOf, Inv, InStep, ResultStep, Evolves, Store, Reduce, GoodStore, KeysMatch, PlanRunnable;
    var j := Reduce(s.snapshot, events).value;
    ResultKeepsInStep(setup.def, s.loops, s.snapshot, id, r, j);
    ResultKeepsPlan(setup, s.loops, s.snapshot, id, r, j, todo);
  }

  lemma StoreBasics(setup: Setup, s: Sys)
    requires GoodStore(setup, s)
    ensures LoopsOf(setup.def, s.loops) && Inv(setup.def, s.loops, s.snapshot) && KeysMatch(setup.def, s.snapshot.tasks)
  {
  }

  /** Refused inputs fail the attempt: a result step of the stored snapshot. */
  lemma RejectedStep(setup: Setup, loops: Loops, i: WorkflowInstance, id: AttemptId)
    requires LoopShape(setup.def, loops) && Inv(setup.def, loops, i) && id in i.tasks && i.tasks[id].status.Running?
    requires MayMove(loops, i.verifierStates, id) && !i.status.Failed?
    ensures var r := DispatchInputs(i.tasks, setup.def, loops, id);
      var j := Reduce(i, InputEvents(id, r) + FailTask(id) + FailWorkflow);
      j.Success? && ResultStep(setup.def, loops, i, id, r, j.value) && Evolves(i, j.value)
  {
    var r := DispatchInputs(i.tasks, setup.def, loops, id);
    FailureAccepted(setup.def, loops, i, id, r);
    ResolvedInputsFrom(setup.def, loops, i, id);
    hide Inv, ResultStep, Evolves, Reduce;
    ResultKeepsInv(setup.def, loops, i, id, r, Reduce(i, InputEvents(id, r) + FailTask(id) + FailWorkflow).value);
  }

  lemma PhaseApart(setup: Setup, t: Sys)
    requires Good(setup, t.(phase := Idle))
    ensures GoodStore(setup, t)
  {
  }

  lemma RejectInStep(setup: Setup, s: Sys)
    requires Registered(setup.def) && Good(setup, s) && InStep(setup.def, s.loops, s.snapshot.tasks)
    requires s.phase.Waiting?
    ensures InStep(setup.def, s.loops, AfterReject(setup, s).snapshot.tasks)
  {
    hide Inv, InStep, ResultStep, Evolves, Registered, LoopsOf, LoopShape, Reduce, Replayed, WorkflowAllCompleted,
      FindTask,
      InputsAccepted;
    RegisteredSlices(setup.def, s.loops);
    if Dispatching(setup, s.phase) && !InputsAccepted(setup, s) {
      var id, r := s.phase.todo[0], InputsOf(setup, s);
      var events := InputEvents(id, r) + FailTask(id) + FailWorkflow;
      if Store(s, s.phase.base, events).Some? {
        CurrentBase(s, s.phase.base, events);
        RejectIsGood(setup, s);
        PhaseApart(setup, Store(s, s.snapshot, events).value);
        RejectedStep(setup, s.loops, s.snapshot, id);
        ResultInStep(setup, s, id, r, events, []);
      }
    }
  }

  lemma RecordInStep(setup: Setup, s: Sys)
    requires Registered(setup.def) && Good(setup, s) && InStep(setup.def, s.loops, s.snapshot.tasks)
    requires s.phase.Recording? && Dispatching(setup, s.phase) && PhaseResolves(setup, s.loops, s.phase)
    ensures InStep(setup.def, s.loops, AfterRecord(setup, s).snapshot.tasks)
    ensures PhaseResolves(setup, s.loops, AfterRecord(setup, s).phase)
  {
    RegisteredSlices(setup.def, s.loops);
    var base, todo, onto := s.phase.base, s.phase.todo, s.phase.onto;
    var batch := BatchOf(setup, s, s.phase.answer);
    RecordStores(setup, s, base, todo, onto, TaskOf(setup, s.phase), s.phase.answer);
    if Store(s, onto, batch.events).Some? {
      CurrentBase(s, onto, batch.events);
      ResultInStep(setup, s, todo[0], InputsOf(setup, s), batch.events, todo);
    }
    RecordBatchPlans(setup, s, todo, onto, batch);
  }

  lemma RecordBatchPlans(setup: Setup, s: Sys, todo: seq<AttemptId>, onto: WorkflowInstance, batch: ResultBatch)
    requires todo != [] && batch.Batch? && InStep(setup.def, s.loops, s.snapshot.tasks)
    requires Store(s, onto, batch.events).Some? ==>
      var tasks := Store(s, onto, batch.events).value.snapshot.tasks;
      InStep(setup.def, s.loops, tasks) && PlanRunnable(setup, s.loops, tasks, todo)
    ensures InStep(setup.def, s.loops, RecordBatch(s, todo, onto, batch).snapshot.tasks)
    ensures PhaseResolves(setup, s.loops, RecordBatch(s, todo, onto, batch).phase)
  {
    hide InStep, Reduce, Runnable;
  }

  lemma EngineInStep(setup: Setup, s: Sys, step: Step)
    requires Registered(setup.def) && Good(setup, s) && IsEngineStep(step) && !step.Load?
    requires InStep(setup.def, s.loops, s.snapshot.tasks) && PhaseResolves(setup, s.loops, s.phase)
    ensures InStep(setup.def, s.loops, Next(setup, s, step).snapshot.tasks)
    ensures PhaseResolves(setup, s.loops, Next(setup, s, step).phase)
  {
    hide InStep, Good, Registered, PlanRunnable, Resolves;
    if step.Initialise? {
      InitialInStep(setup, s);
    } else if step.Start? {
      if s.phase.Starting? { StartResolves(setup, s); }
    } else if step.Reject? {
      if s.phase.Waiting? { RejectInStep(setup, s); }
    } else if step.Record? {
      if s.phase.Recording? && Dispatching(setup, s.phase) { RecordInStep(setup, s); }
    } else {
      SameTasks(setup, s, step);
      if step.Open? { OpenPlans(setup, s); }
      if step.Pick? { PickPlans(setup, s); }
    }
  }

  lemma SameTasks(setup: Setup, s: Sys, step: Step)
    requires Registered(setup.def) && Good(setup, s)
    requires step.Load? || step.Begin? || step.Open? || step.Pick? || step.Answer? || step.Settle? || step.Crash?
    ensures Next(setup, s, step).snapshot.tasks == s.snapshot.tasks
  {
    RegisteredSlices(setup.def, s.loops);
    MostKeepTasks(setup, s, step);
  }

  // ---------------------------------------------------------------------------
  // Everyone else

  predicate OnlyResets(before: Tasks, after: Tasks) {
    before.Keys == after.Keys
    && forall x :: x in before ==>
      && (before[x].status.Completed? ==> after[x].status.Completed?)
      && (HasStarted(after[x]) ==> HasStarted(before[x]))
  }

  lemma WrittenResets(s: Sys, guard: bool, event: Event)
    requires event.WorkflowStatusChanged? || event.TaskRetryRequested? || event.TaskForceRetryRequested?
      || event.StartupRecoveryApplied?
    ensures OnlyResets(s.snapshot.tasks, Written(s, guard, event).snapshot.tasks)
  {
    Reduce1(s.snapshot, event);
    if event.StartupRecoveryApplied? && RecoverAttempts(s.snapshot.tasks, event.ids).Success? {
      RecoverAttemptsFrame(s.snapshot.tasks, event.ids);
    }
  }

  /** Apart from human input, the others reset attempts at most. */
  lemma OthersReset(setup: Setup, s: Sys, step: Step)
    requires !IsEngineStep(step) && !step.SubmitInput?
    ensures OnlyResets(s.snapshot.tasks, Next(setup, s, step).snapshot.tasks)
    ensures Next(setup, s, step).phase == s.phase && Next(setup, s, step).loops == s.loops
  {
    hide OnlyResets;
    match step {
      case Pause => WrittenResets(s, MayRun(s.snapshot.status), WorkflowStatusChanged(Paused));
      case Resume => WrittenResets(s, s.snapshot.status.Paused?, WorkflowStatusChanged(WorkflowStatus.Pending));
      case LoseHost(host) =>
        WrittenResets(s, !s.snapshot.status.Completed? && !s.snapshot.status.Failed?
          && s.snapshot.pinnedWorkerHost == Some(host),
                      WorkflowStatusChanged(WorkflowStatus.Failed));
      case Retry(id) => WrittenResets(s, Retryable(s.snapshot, id), TaskRetryRequested(id));
      case ForceRetry(id, target) =>
        var pin := s.snapshot.pinnedWorkerHost;
        WrittenResets(s, Retryable(s.snapshot, id), TaskForceRetryRequested(id, pin, target, pin != Some(target)));
      case Recover(ids) =>
        WrittenResets(s, s.phase.Idle? && MayRun(s.snapshot.status) && Distinct(ids)
          && (set x | x in ids) == RunningIds(s.snapshot.tasks)
                         && (s.snapshot.status.Running? || ids != []), StartupRecoveryApplied(ids));
    }
  }

  // ---------------------------------------------------------------------------
  // Runs

  lemma LoadInStep(setup: Setup, s: Sys, loops: Loops)
    requires UniqueIds(setup.def) && LoopsOf(setup.def, s.loops)
    requires InStep(setup.def, s.loops, s.snapshot.tasks) && PhaseResolves(setup, s.loops, s.phase)
    ensures var t := AfterLoad(setup, s, loops);
      InStep(setup.def, t.loops, t.snapshot.tasks) && PhaseResolves(setup, t.loops, t.phase)
  {
    if LoopsOf(setup.def, loops) { SameSlices(setup.def, s.loops, loops); }
  }

  lemma StepInStep(setup: Setup, s: Sys, step: Step)
    requires Registered(setup.def) && Good(setup, s) && !step.SubmitInput?
    requires InStep(setup.def, s.loops, s.snapshot.tasks) && PhaseResolves(setup, s.loops, s.phase)
    ensures var t := Next(setup, s, step);
      Good(setup, t) && InStep(setup.def, t.loops, t.snapshot.tasks) && PhaseResolves(setup, t.loops, t.phase)
  {
    hide Good, InStep, PhaseResolves, OnlyResets;
    StepIsGood(setup, s, step);
    GoodBasics(setup, s);
    if step.Load? {
      LoadInStep(setup, s, step.loops);
    } else if IsEngineStep(step) {
      EngineInStep(setup, s, step);
      EngineKeepsLoops(setup, s, step);
    } else {
      OthersReset(setup, s, step);
      OnlyResetsInStep(setup.def, s.loops, s.snapshot.tasks, Next(setup, s, step).snapshot.tasks);
    }
  }

  lemma OnlyResetsInStep(def: WorkflowDef, loops: Loops, before: Tasks, after: Tasks)
    requires InStep(def, loops, before) && OnlyResets(before, after)
    ensures InStep(def, loops, after)
  {
    ResetKeepsInStep(def, loops, before, after);
  }

  lemma EngineKeepsLoops(setup: Setup, s: Sys, step: Step)
    requires IsEngineStep(step) && !step.Load?
    ensures Next(setup, s, step).loops == s.loops
  {
  }

  lemma {:induction false} RunInStep(setup: Setup, s: Sys, steps: seq<Step>)
    requires Registered(setup.def) && Good(setup, s) && WithoutInput(steps)
    requires InStep(setup.def, s.loops, s.snapshot.tasks) && PhaseResolves(setup, s.loops, s.phase)
    ensures var t := Run(setup, s, steps);
      Good(setup, t) && InStep(setup.def, t.loops, t.snapshot.tasks) && PhaseResolves(setup, t.loops, t.phase)
    decreases |steps|
  {
    hide Good, Registered, InStep, PhaseResolves, Next, WithoutInput;
    if steps != [] {
      WithoutInputTail(steps);
      StepInStep(setup, s, steps[0]);
      RunInStep(setup, Next(setup, s, steps[0]), steps[1..]);
    }
  }

  lemma CreatedInStep(setup: Setup, s: Sys)
    requires Created(setup, s)
    ensures InStep(setup.def, s.loops, s.snapshot.tasks) && PhaseResolves(setup, s.loops, s.phase)
  {
  }

  /**
   Over every run without human input, an attempt that has been dispatched is given the inputs its bindings resolve
   to: the empty default is never used.
   */
  lemma DispatchedInputsResolve(setup: Setup, s: Sys, steps: seq<Step>)
    requires Registered(setup.def) && Created(setup, s) && WithoutInput(steps)
    ensures var t := Run(setup, s, steps);
      t.phase.Waiting? || t.phase.Recording? ==>
        && Dispatching(setup, t.phase)
        && ResolveInputs(t.phase.base.tasks, setup.def, t.loops, t.phase.base.tasks[t.phase.todo[0]])
          == Some(InputsOf(setup, t))
  {
    CreatedIsGood(setup, s);
    CreatedInStep(setup, s);
    RunInStep(setup, s, steps);
    DispatchingResolves(setup, Run(setup, s, steps));
  }

  lemma DispatchingResolves(setup: Setup, t: Sys)
    requires Registered(setup.def) && Good(setup, t) && PhaseResolves(setup, t.loops, t.phase)
    ensures t.phase.Waiting? || t.phase.Recording? ==>
      && Dispatching(setup, t.phase)
      && ResolveInputs(t.phase.base.tasks, setup.def, t.loops, t.phase.base.tasks[t.phase.todo[0]])
        == Some(InputsOf(setup, t))
  {
    if t.phase.Waiting? || t.phase.Recording? { DispatchedIsKnown(setup, t); }
  }

  /**
   Over every run without human input, the generation a settled loop has accepted is whole: every task of its slice
   has completed it.
   */
  lemma AcceptedGenerationsAreWhole(setup: Setup, s: Sys, steps: seq<Step>, v: TaskId, t: TaskId)
    requires Registered(setup.def) && Created(setup, s) && WithoutInput(steps)
    requires var i, loops := Run(setup, s, steps).snapshot, Run(setup, s, steps).loops;
      v in loops.body && t in loops.body[v] && v in i.verifierStates && i.verifierStates[v].Settled()
    ensures var i := Run(setup, s, steps).snapshot;
      i.verifierStates[v].selectedGeneration.Some? && DoneAt(i.tasks, t, i.verifierStates[v].selectedGeneration.value)
  {
    CreatedIsGood(setup, s);
    CreatedInStep(setup, s);
    RunInStep(setup, s, steps);
    var z := Run(setup, s, steps);
    SelectedIsWhole(setup.def, z.loops, z.snapshot, v, t);
  }

  // ---------------------------------------------------------------------------
  // With human input as without it

  /** An attempt that is started has inputs exactly if it is still runnable: nothing in between is looked at again. */
  lemma DispatchResolvesExactlyWhen(setup: Setup, s: Sys)
    requires Registered(setup.def) && Good(setup, s) && s.phase.Starting? && AfterStart(s).phase.Waiting?
    ensures var t := AfterStart(s);
      && Dispatching(setup, t.phase)
      && (Resolves(setup, t.loops, t.phase.base.tasks, t.phase.todo[0])
          <==> Runnable(s.phase.base.tasks, setup.def, s.loops, s.phase.todo[0]))
  {
    hide Good, Registered, AfterStart, ResolveInputs, KeysMatch, Started, FindTask;
    StartIsGood(setup, s);
    GoodKeys(setup, s);
    StartedPhase(setup, s);
    DispatchedIsKnown(setup, AfterStart(s));
    ResolvesAfterStart(setup.def, s.loops, s.snapshot, s.phase.todo[0], s.phase.todo[0]);
  }

  lemma StartedPhase(setup: Setup, s: Sys)
    requires Good(setup, s) && s.phase.Starting? && AfterStart(s).phase.Waiting?
    ensures var t, id := AfterStart(s), s.phase.todo[0];
      && s.phase.base.tasks == s.snapshot.tasks && id in s.snapshot.tasks && s.snapshot.tasks[id].status.Pending?
      && t.loops == s.loops && t.phase.todo == s.phase.todo && t.phase.base.tasks == Started(s.snapshot, id).tasks
  {
    hide Inv, LoopsOf, Replayed, WorkflowAllCompleted;
    var id := s.phase.todo[0];
    CurrentBase(s, s.phase.base, [TaskStatusChanged(id, TaskStatus.Running)]);
    StartedTasks(setup, s, id);
  }

  lemma DispatchedIsKnown(setup: Setup, t: Sys)
    requires Registered(setup.def) && Good(setup, t) && (t.phase.Waiting? || t.phase.Recording?)
    ensures Dispatching(setup, t.phase)
  {
    RegisteredSlices(setup.def, t.loops);
    BaseIsGood(setup, t, t.phase.base);
    AwaitingIsDispatched(setup, t, t.phase.base, t.phase.todo);
  }

  /**
   What was runnable and is still to do after a result is runnable exactly if the result has created no attempt
   that is now the latest of a source in its own slice.
   */
  lemma PlanSurvivesExactlyWhen(setup: Setup, s: Sys, x: AttemptId)
    requires Registered(setup.def) && Good(setup, s) && s.phase.Recording? && AfterRecord(setup, s).phase.Passing?
    requires Runnable(s.phase.base.tasks, setup.def, s.loops, x)
    requires var after := AfterRecord(setup, s).snapshot.tasks; x in after && after[x].status.Pending?
    ensures var after := AfterRecord(setup, s).snapshot.tasks;
      Runnable(after, setup.def, s.loops, x)
      <==> forall b ::
             b in setup.def.dataBindings && b.target == x.taskDefId && InsideOf(s.loops, x.taskDefId, b.source)
             ==> LatestIsOld(s.phase.base.tasks, after, b.source)
  {
    RegisteredSlices(setup.def, s.loops);
    var id, r, j := RecordedStep(setup, s);
    StoreBasics(setup, s);
    RecordIsGood(setup, s);
    GoodKeys(setup, AfterRecord(setup, s));
    hide Good, Registered, Runnable, ResultStep, Evolves, AfterRecord, LoopsOf, LoopShape, LatestIsOld, InsideOf,
      KeysMatch;
    Unsettled(setup.def, s.loops, s.snapshot, id);
    SatisfiedPart(setup.def, s.loops, s.snapshot);
    StillRunnableExactlyWhen(setup.def, s.loops, s.snapshot, id, r, j, x);
  }

  lemma GoodKeys(setup: Setup, t: Sys)
    requires Good(setup, t)
    ensures KeysMatch(setup.def, t.snapshot.tasks)
  {
  }

  lemma SatisfiedPart(def: WorkflowDef, loops: Loops, i: WorkflowInstance)
    requires Inv(def, loops, i)
    ensures SatisfiedIsSelected(loops, i.tasks, i.verifierStates)
  {
  }

  /** A recorded result from which the pass goes on is a result step of the stored snapshot. */
  lemma RecordedStep(setup: Setup, s: Sys) returns (id: AttemptId, r: ResolvedInputs, j: WorkflowInstance)
    requires LoopShape(setup.def, s.loops) && Good(setup, s) && s.phase.Recording?
      && AfterRecord(setup, s).phase.Passing?
    ensures s.phase.base.tasks == s.snapshot.tasks && AfterRecord(setup, s).snapshot.tasks == j.tasks
    ensures ResultStep(setup.def, s.loops, s.snapshot, id, r, j) && Evolves(s.snapshot, j)
    ensures id in s.snapshot.tasks && s.snapshot.tasks[id].status.Running?
  {
    hide LoopShape, Inv, LoopsOf, Replayed, WorkflowAllCompleted, ResultStep, Evolves;
    var base, todo, onto := s.phase.base, s.phase.todo, s.phase.onto;
    var batch := BatchOf(setup, s, s.phase.answer);
    RecordStores(setup, s, base, todo, onto, TaskOf(setup, s.phase), s.phase.answer);
    CurrentBase(s, onto, batch.events);
    StoreTasks(s, s.snapshot, batch.events);
    id, r, j := todo[0], InputsOf(setup, s), Reduce(s.snapshot, batch.events).value;
  }
}
