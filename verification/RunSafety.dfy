/**
 Every step of a run keeps it good, so every reachable state is: one lemma per step, and the runs.
 */
module RunSafety {
  import opened Prelude
  import opened JsonValues
  import opened AttemptIds
  import opened Model
  import opened Reducer
  import opened LoopSlices
  import opened Engine
  import opened EngineEffects
  import opened EngineInvariants
  import opened EngineSteps
  import opened OpeningAndRecovery
  import opened PauseRebase
  import opened WorkflowRuns
  import opened RunInvariants

  // ---------------------------------------------------------------------------
  // Commits

  lemma StoredIsGood(setup: Setup, s: Sys, events: seq<Event>)
    requires GoodStore(setup, s) && Store(s, s.snapshot, events).Some?
    requires var j := Reduce(s.snapshot, events).value;
      Inv(setup.def, s.loops, j) && (j.status.Completed? ==> WorkflowAllCompleted(j, setup.def, s.loops))
    ensures GoodStore(setup, Store(s, s.snapshot, events).value)
  {
    var t := Store(s, s.snapshot, events).value;
    StoreReplays(s, events);
    VersionKeepsInv(setup.def, s.loops, Reduce(s.snapshot, events).value, t.snapshot.version);
  }

  /** What an engine holds satisfies the invariants whatever the store has become. */
  lemma BaseIsGood(setup: Setup, s: Sys, base: WorkflowInstance)
    requires Inv(setup.def, s.loops, s.snapshot) && Quiet(base, s.snapshot)
    ensures Inv(setup.def, s.loops, base)
  {
    AnyStatusKeepsInv(setup.def, s.loops, s.snapshot, base);
  }

  lemma NoneFailedYet(i: WorkflowInstance)
    requires FailureIsTerminal(i) && !i.status.Failed?
    ensures NoneFailed(i.tasks)
  {
  }

  // ---------------------------------------------------------------------------
  // Engine steps

  lemma LoadIsGood(setup: Setup, s: Sys, loops: Loops)
    requires UniqueIds(setup.def) && Good(setup, s)
    ensures Good(setup, AfterLoad(setup, s, loops))
  {
    var t := AfterLoad(setup, s, loops);
    if t != s {
      SameSlices(setup.def, s.loops, loops);
      OrderKeepsInv(setup.def, s.loops, loops, s.snapshot);
      NoneFailedYet(s.snapshot);
    }
  }

  lemma BeginIsGood(setup: Setup, s: Sys)
    requires Good(setup, s)
    ensures Good(setup, AfterBegin(s))
  {
    if s.phase.Loaded? {
      var events := [WorkflowStatusChanged(WorkflowStatus.Running)];
      if Store(s, s.phase.base, events).Some? {
        Reduce1(s.snapshot, events[0]);
        StatusKeepsInv(setup.def, s.loops, s.snapshot, WorkflowStatus.Running);
        StoredIsGood(setup, s, events);
      }
    }
  }

  lemma InitialiseIsGood(setup: Setup, s: Sys)
    requires UniqueIds(setup.def) && Good(setup, s)
    ensures Good(setup, AfterInitialise(setup, s))
  {
    if s.phase.Ready? && s.phase.base.tasks == map[] && setup.def.tasks != [] {
      var events := InitialTaskEvents(s.phase.base, setup.def, setup.def.tasks);
      if Store(s, s.phase.base, events).Some? {
        InitialKeepsInv(setup.def, s.loops, s.snapshot);
        StoredIsGood(setup, s, events);
        NoneFailedYet(Reduce(s.snapshot, events).value);
      }
    }
  }

  lemma ConcludedIsGood(setup: Setup, s: Sys, base: WorkflowInstance)
    requires GoodStore(setup, s) && Quiet(base, s.snapshot)
    ensures Good(setup, Concluded(setup, s, base))
  {
    var events := [WorkflowStatusChanged(WorkflowStatus.Completed)];
    if WorkflowAllCompleted(base, setup.def, s.loops) && Store(s, base, events).Some? {
      Reduce1(s.snapshot, events[0]);
      StatusKeepsInv(setup.def, s.loops, s.snapshot, WorkflowStatus.Completed);
      StoredIsGood(setup, s, events);
    }
  }

  lemma PickIsGood(setup: Setup, s: Sys)
    requires Good(setup, s)
    ensures Good(setup, AfterPick(setup, s))
  {
    if s.phase.Passing? {
      if s.phase.todo == [] {
        ConcludedIsGood(setup, s, s.phase.base);
      } else if !s.phase.progress {
        assert s.phase.todo[0] in RunnableIds(s.phase.base.tasks, setup.def, s.loops);
      }
    }
  }

  /** Once no loop can open, every runnable attempt may start. */
  lemma RunnableMayMove(setup: Setup, s: Sys, base: WorkflowInstance, x: AttemptId)
    requires SliceFacts(setup.def, s.loops)
    requires KeysMatch(setup.def, base.tasks) && Dormant(s.loops, base.tasks, base.verifierStates)
    requires forall v :: v in s.loops.body ==> !Eligible(base, setup.def, s.loops, v)
    requires x in RunnableIds(base.tasks, setup.def, s.loops)
    ensures MayMove(s.loops, base.verifierStates, x)
  {
    forall v | v in s.loops.body && x.taskDefId in s.loops.body[v] ensures v in base.verifierStates {
      if v !in base.verifierStates {
        RunnableMakesEligible(setup.def, s.loops, base, v, x);
        assert false;
      }
    }
  }

  lemma PassIsGood(setup: Setup, s: Sys, base: WorkflowInstance, progress: bool)
    requires SliceFacts(setup.def, s.loops) && GoodStore(setup, s)
    requires Quiet(base, s.snapshot) && base.status.Running? && (base.tasks == map[] ==> setup.def.tasks == [])
    requires forall v :: v in s.loops.body ==> !Eligible(base, setup.def, s.loops, v)
    requires !progress ==> Openings(setup, s, base) == []
    ensures Good(setup, PassOver(setup, s, base, progress))
  {
    BaseIsGood(setup, s, base);
    forall x | x in RunnableIds(base.tasks, setup.def, s.loops) ensures MayMove(s.loops, base.verifierStates, x) {
      RunnableMayMove(setup, s, base, x);
    }
  }

  lemma OpenIsGood(setup: Setup, s: Sys)
    requires SliceFacts(setup.def, s.loops) && Good(setup, s)
    ensures Good(setup, AfterOpen(setup, s))
  {
    if s.phase.Top? {
      var base := s.phase.base;
      var events := Openings(setup, s, base);
      OpeningEmpty(setup.def, s.loops, base, s.loops.order, {});
      if events == [] {
        assert forall v :: v in s.loops.body ==> v in s.loops.order;
        PassIsGood(setup, s, base, false);
      } else if Store(s, base, events).Some? {
        OpenedIsGood(setup, s, events);
      }
    }
  }

  lemma TasksExist(setup: Setup, s: Sys, base: WorkflowInstance)
    requires SlicesOfVerifiers(setup.def, s.loops) && Openings(setup, s, base) != []
    ensures setup.def.tasks != []
  {
    OpeningEmpty(setup.def, s.loops, base, s.loops.order, {});
  }

  lemma OpenedIsGood(setup: Setup, s: Sys, events: seq<Event>)
    requires SliceFacts(setup.def, s.loops) && GoodStore(setup, s)
    requires Quiet(s.snapshot, s.snapshot) && s.snapshot.status.Running?
      && (s.snapshot.tasks == map[] ==> setup.def.tasks == [])
    requires events == Openings(setup, s, s.snapshot) && Store(s, s.snapshot, events).Some?
    ensures var t := Store(s, s.snapshot, events).value; Good(setup, PassOver(setup, t, t.snapshot, true))
  {
    TasksExist(setup, s, s.snapshot);
    OpeningKeepsInv(setup.def, s.loops, s.snapshot);
    StoredIsGood(setup, s, events);
    var j := Reduce(s.snapshot, events).value;
    var t := Store(s, s.snapshot, events).value;
    forall v | v in s.loops.body ensures !Eligible(t.snapshot, setup.def, s.loops, v) {
      NothingLeftToOpen(setup.def, s.loops, s.snapshot, j, v);
      assert Eligible(t.snapshot, setup.def, s.loops, v) ==> Eligible(j, setup.def, s.loops, v);
    }
    PassIsGood(setup, t, t.snapshot, true);
  }

  lemma StartIsGood(setup: Setup, s: Sys)
    requires Good(setup, s)
    ensures Good(setup, AfterStart(s))
  {
    if s.phase.Starting? {
      var id := s.phase.todo[0];
      var events := [TaskStatusChanged(id, TaskStatus.Running)];
      if Store(s, s.phase.base, events).Some? {
        Reduce1(s.snapshot, events[0]);
        StartKeepsInv(setup.def, s.loops, s.snapshot, id);
        StoredIsGood(setup, s, events);
        NoneFailedYet(Started(s.snapshot, id));
      }
    }
  }

  // ---------------------------------------------------------------------------
  // Results, on the engine's base or on a paused snapshot

  lemma AwaitingIsDispatched(setup: Setup, s: Sys, base: WorkflowInstance, todo: seq<AttemptId>)
    requires LoopShape(setup.def, s.loops) && Inv(setup.def, s.loops, base) && Awaiting(setup, s, base, todo)
    ensures FindTask(setup.def.tasks, base.tasks[todo[0]].taskDefId).Some?
    ensures Dispatched(setup.def, s.loops, base, todo[0],
      FindTask(setup.def.tasks, base.tasks[todo[0]].taskDefId).value)
  {
  }

  /** A result, on whichever base it is committed: accepted, a result step, and good to store. */
  lemma ResultOnto(setup: Setup, s: Sys, base: WorkflowInstance, todo: seq<AttemptId>, onto: WorkflowInstance,
      task: TaskDef, answer: DispatchAnswer)
    requires LoopShape(setup.def, s.loops)
    requires Inv(setup.def, s.loops, base) && Awaiting(setup, s, base, todo)
    requires Inv(setup.def, s.loops, onto) && (onto == base || onto == base.(status := Paused, version := onto.version))
    requires Some(task) == FindTask(setup.def.tasks, base.tasks[todo[0]].taskDefId)
    ensures var r := DispatchInputs(base.tasks, setup.def, s.loops, todo[0]);
      var batch := ResultEvents(setup.valid, base, setup.def, s.loops, task, todo[0], r, answer);
      && AcceptedBatch(setup.def, s.loops, onto, todo[0], r, batch)
      && Inv(setup.def, s.loops, Reduce(onto, batch.events).value) && Evolves(onto, Reduce(onto, batch.events).value)
  {
    var id := todo[0];
    var r := DispatchInputs(base.tasks, setup.def, s.loops, id);
    AwaitingIsDispatched(setup, s, base, todo);
    BatchIgnoresStatus(setup.valid, setup.def, base, onto, s.loops, task, id, r, answer);
    assert Dispatched(setup.def, s.loops, onto, id, task);
    ResultAccepted(setup.valid, setup.def, s.loops, onto, id, task, r, answer);
    ResolvedInputsFrom(setup.def, s.loops, onto, id);
    var batch := ResultEvents(setup.valid, onto, setup.def, s.loops, task, id, r, answer);
    ResultKeepsInv(setup.def, s.loops, onto, id, r, Reduce(onto, batch.events).value);
  }

  lemma RejectIsGood(setup: Setup, s: Sys)
    requires LoopShape(setup.def, s.loops) && Good(setup, s)
    ensures Good(setup, AfterReject(setup, s))
  {
    hide KeysMatch, Initialised, StatesBounded, Dormant, SatisfiedIsSelected, VerifierChain, SettledIsFinal,
      FailureIsTerminal, Provenance, SlicesOfVerifiers, VerifiersInOwnSlice, SlicesDefined, SlicesDisjoint,
      LoopsOf, Evolves, FindTask, InputsAccepted, WorkflowAllCompleted, ResolveInputs, Reduce;
    if s.phase.Waiting? && Dispatching(setup, s.phase) && !InputsAccepted(setup, s) {
      var id, r := s.phase.todo[0], InputsOf(setup, s);
      var events := InputEvents(id, r) + FailTask(id) + FailWorkflow;
      if Store(s, s.phase.base, events).Some? {
        FailureAccepted(setup.def, s.loops, s.snapshot, id, r);
        ResolvedInputsFrom(setup.def, s.loops, s.snapshot, id);
        ResultKeepsInv(setup.def, s.loops, s.snapshot, id, r, Reduce(s.snapshot, events).value);
        StoredIsGood(setup, s, events);
      }
    }
  }

  lemma AnswerIsGood(setup: Setup, s: Sys, answer: DispatchAnswer)
    requires Good(setup, s)
    ensures Good(setup, AfterAnswer(setup, s, answer))
  {
    hide Inv, LoopsOf, WorkflowAllCompleted, BatchOf, InputsAccepted, Plan, NoneFailed;
  }

  /** What the commit of a result makes of the stored snapshot. */
  lemma RecordStores(setup: Setup, s: Sys, base: WorkflowInstance, todo: seq<AttemptId>, onto: WorkflowInstance,
      task: TaskDef, answer: DispatchAnswer)
    requires LoopShape(setup.def, s.loops) && GoodStore(setup, s)
    requires Quiet(base, s.snapshot) && Awaiting(setup, s, base, todo)
    requires Quiet(onto, s.snapshot) && (onto == base || onto == base.(status := Paused, version := onto.version))
    requires Some(task) == FindTask(setup.def.tasks, base.tasks[todo[0]].taskDefId)
    ensures var r := DispatchInputs(base.tasks, setup.def, s.loops, todo[0]);
      var batch := ResultEvents(setup.valid, base, setup.def, s.loops, task, todo[0], r, answer);
      && AcceptedBatch(setup.def, s.loops, onto, todo[0], r, batch)
      && Evolves(onto, Reduce(onto, batch.events).value) && FailureIsTerminal(Reduce(onto, batch.events).value)
      && (Store(s, onto, batch.events).Some? ==> GoodStore(setup, Store(s, onto, batch.events).value))
  {
    BaseIsGood(setup, s, base);
    BaseIsGood(setup, s, onto);
    ResultOnto(setup, s, base, todo, onto, task, answer);
    var r := DispatchInputs(base.tasks, setup.def, s.loops, todo[0]);
    var batch := ResultEvents(setup.valid, base, setup.def, s.loops, task, todo[0], r, answer);
    if Store(s, onto, batch.events).Some? {
      ResultNotCompleted(setup, s, onto, todo[0], r, batch);
      StoredIsGood(setup, s, batch.events);
    }
  }

  lemma ResultNotCompleted(setup: Setup, s: Sys, onto: WorkflowInstance, id: AttemptId, r: ResolvedInputs,
      batch: ResultBatch)
    requires Quiet(onto, s.snapshot) && AcceptedBatch(setup.def, s.loops, onto, id, r, batch)
    ensures !Reduce(onto, batch.events).value.status.Completed?
  {
  }

  ghost predicate MayContinue(t: Sys, todo: seq<AttemptId>) {
    && Quiet(t.snapshot, t.snapshot) && (t.snapshot.status.Paused? || t.snapshot.status.Running?)
    && Plan(t.loops, t.snapshot, todo) && t.snapshot.tasks != map[]
  }

  lemma RecordBatchIsGood(setup: Setup, s: Sys, todo: seq<AttemptId>, onto: WorkflowInstance, batch: ResultBatch)
    requires GoodStore(setup, s) && todo != [] && batch.Batch?
    requires Store(s, onto, batch.events).Some? ==>
      var t := Store(s, onto, batch.events).value;
      GoodStore(setup, t) && (batch.outcome.Proceed? ==> MayContinue(t, todo[1..]))
    ensures Good(setup, RecordBatch(s, todo, onto, batch))
  {
  }

  lemma RecordIsGood(setup: Setup, s: Sys)
    requires LoopShape(setup.def, s.loops) && Good(setup, s)
    ensures Good(setup, AfterRecord(setup, s))
  {
    if s.phase.Recording? && Dispatching(setup, s.phase) {
      var base, todo, onto := s.phase.base, s.phase.todo, s.phase.onto;
      var batch := BatchOf(setup, s, s.phase.answer);
      RecordStores(setup, s, base, todo, onto, TaskOf(setup, s.phase), s.phase.answer);
      if Store(s, onto, batch.events).Some? && batch.outcome.Proceed? {
        RecordedPhase(setup, s, base, todo, onto, InputsOf(setup, s), batch, Store(s, onto, batch.events).value);
      }
      RecordBatchIsGood(setup, s, todo, onto, batch);
    }
  }

  lemma RecordedPhase(setup: Setup, s: Sys, base: WorkflowInstance, todo: seq<AttemptId>, onto: WorkflowInstance,
      r: ResolvedInputs, batch: ResultBatch, t: Sys)
    requires Awaiting(setup, s, base, todo) && onto == s.snapshot
      && (onto == base || onto == base.(status := Paused, version := onto.version))
    requires AcceptedBatch(setup.def, s.loops, onto, todo[0], r, batch)
      && Evolves(onto, Reduce(onto, batch.events).value)
    requires FailureIsTerminal(Reduce(onto, batch.events).value)
    requires Some(t) == Store(s, onto, batch.events) && batch.outcome.Proceed?
    ensures MayContinue(t, todo[1..])
  {
    NoneFailedYet(Reduce(onto, batch.events).value);
    assert todo[0] in t.snapshot.tasks;
    forall x | x in todo[1..] ensures x in t.snapshot.tasks && MayMove(t.loops, t.snapshot.verifierStates, x) {
      assert x in todo;
    }
  }

  lemma SettleIsGood(setup: Setup, s: Sys)
    requires Good(setup, s)
    ensures Good(setup, AfterSettle(setup, s))
  {
    if s.phase.Boundary? { ConcludedIsGood(setup, s, s.phase.base); }
  }

  // ---------------------------------------------------------------------------
  // Everyone else

  /** A status change by someone else is quiet to the engine. */
  lemma StatusWriteIsGood(setup: Setup, s: Sys, guard: bool, status: WorkflowStatus)
    requires Good(setup, s)
    requires guard ==>
      MayRun(s.snapshot.status) || s.snapshot.status.Paused? || (s.snapshot.status.InputNeeded? && status.Failed?)
    requires MayRun(status) || status.Paused? || status.Failed?
    ensures Good(setup, Written(s, guard, WorkflowStatusChanged(status)))
  {
    var events := [WorkflowStatusChanged(status)];
    if guard && Store(s, s.snapshot, events).Some? {
      Reduce1(s.snapshot, events[0]);
      StatusKeepsInv(setup.def, s.loops, s.snapshot, status);
      StoredIsGood(setup, s, events);
      StatusKeepsPhase(setup, s, Store(s, s.snapshot, events).value);
    }
  }

  lemma StatusKeepsPhase(setup: Setup, s: Sys, t: Sys)
    requires PhaseOk(setup, s) && t.phase == s.phase && t.loops == s.loops
    requires t.snapshot == s.snapshot.(status := t.snapshot.status, version := t.snapshot.version)
      && t.snapshot.version > s.snapshot.version
    requires MayRun(t.snapshot.status) || t.snapshot.status.Paused? || t.snapshot.status.Failed?
    ensures PhaseOk(setup, t)
  {
  }

  /** While an engine holds a snapshot nobody waits for input and nothing has failed. */
  lemma EngineExcludes(setup: Setup, s: Sys)
    requires PhaseOk(setup, s) && !s.phase.Idle?
    ensures Quiet(s.phase.base, s.snapshot)
  {
  }

  lemma SubmitInputIsGood(setup: Setup, s: Sys, id: AttemptId, input: Json)
    requires Good(setup, s)
    ensures Good(setup, AfterSubmitInput(s, id, input))
  {
    hide Inv, Replayed, LoopsOf, WorkflowAllCompleted;
    var t := AfterSubmitInput(s, id, input);
    if t != s {
      var next := AttemptId(s.snapshot.tasks[id].taskDefId, s.snapshot.tasks[id].generationIndex + 1);
      var event := HumanInputSubmitted(id, next, input);
      if !s.phase.Idle? { EngineExcludes(setup, s); }
      Reduce1(s.snapshot, event);
      HumanKeepsInv(setup.def, s.loops, s.snapshot, id, next, input);
      StoredIsGood(setup, s, [event]);
    }
  }

  lemma RetryIsGood(setup: Setup, s: Sys, id: AttemptId)
    requires Good(setup, s)
    ensures Good(setup, AfterRetry(s, id))
  {
    hide Inv, Replayed, LoopsOf, WorkflowAllCompleted;
    var t := AfterRetry(s, id);
    if t != s {
      if !s.phase.Idle? { EngineExcludes(setup, s); }
      Reduce1(s.snapshot, TaskRetryRequested(id));
      RetryKeepsInv(setup.def, s.loops, s.snapshot, id);
      StoredIsGood(setup, s, [TaskRetryRequested(id)]);
    }
  }

  lemma PinKeepsInv(def: WorkflowDef, loops: Loops, i: WorkflowInstance, pin: Option<HostId>)
    requires Inv(def, loops, i)
    ensures Inv(def, loops, i.(pinnedWorkerHost := pin))
  {
  }

  lemma ForceRetryIsRetry(i: WorkflowInstance, event: Event)
    requires event.TaskForceRetryRequested? && ApplyEvent(i, event).Success?
    ensures ResetFailedTask(i, event.id).Success?
    ensures ApplyEvent(i, event).value
      == ResetFailedTask(i, event.id).value.(pinnedWorkerHost := Some(event.targetHost))
  {
  }

  /**
   A forced retry is accepted exactly if the workflow and the attempt have failed, it names the host the workflow
   is pinned to, and it says that local context may be lost exactly if it moves the workflow to another host.
   Then it is the plain retry with the new pin.
   */
  lemma ForceRetryExactlyWhen(i: WorkflowInstance, event: Event)
    requires event.TaskForceRetryRequested?
    ensures Reduce(i, [event]).Success? <==>
      && i.status.Failed? && event.id in i.tasks && i.tasks[event.id].status.Failed?
      && event.previousHost == i.pinnedWorkerHost
      && (event.localContextMayBeLost <==> i.pinnedWorkerHost != Some(event.targetHost))
    ensures Reduce(i, [event]).Success? ==>
      && Reduce(i, [TaskRetryRequested(event.id)]).Success?
      && Reduce(i, [event]).value
        == Reduce(i, [TaskRetryRequested(event.id)]).value.(pinnedWorkerHost := Some(event.targetHost))
  {
    Reduce1(i, event);
    Reduce1(i, TaskRetryRequested(event.id));
  }

  lemma ForceRetryKeepsInv(def: WorkflowDef, loops: Loops, i: WorkflowInstance, event: Event)
    requires Inv(def, loops, i) && event.TaskForceRetryRequested? && ApplyEvent(i, event).Success?
    ensures Inv(def, loops, ApplyEvent(i, event).value) && ApplyEvent(i, event).value.status.Pending?
  {
    ForceRetryIsRetry(i, event);
    RetryKeepsInv(def, loops, i, event.id);
    PinKeepsInv(def, loops, ResetFailedTask(i, event.id).value, Some(event.targetHost));
  }

  lemma ForceRetryIsGood(setup: Setup, s: Sys, id: AttemptId, target: HostId)
    requires Good(setup, s)
    ensures Good(setup, AfterForceRetry(s, id, target))
  {
    var pin := s.snapshot.pinnedWorkerHost;
    var event := TaskForceRetryRequested(id, pin, target, pin != Some(target));
    if Retryable(s.snapshot, id) && Store(s, s.snapshot, [event]).Some? {
      assert s.phase.Idle? by { if !s.phase.Idle? { EngineExcludes(setup, s); } }
      Reduce1(s.snapshot, event);
      ForceRetryKeepsInv(setup.def, s.loops, s.snapshot, event);
      StoredIsGood(setup, s, [event]);
    }
  }

  lemma RecoverIsGood(setup: Setup, s: Sys, ids: seq<AttemptId>)
    requires Good(setup, s)
    ensures Good(setup, AfterRecover(s, ids))
  {
    hide Inv, Replayed, LoopsOf, WorkflowAllCompleted;
    var t := AfterRecover(s, ids);
    if t != s {
      Reduce1(s.snapshot, StartupRecoveryApplied(ids));
      RecoveryKeepsInv(setup.def, s.loops, s.snapshot, ids);
      StoredIsGood(setup, s, [StartupRecoveryApplied(ids)]);
    }
  }

  // ---------------------------------------------------------------------------
  // Runs

  lemma EngineStepIsGood(setup: Setup, s: Sys, step: Step)
    requires SliceFacts(setup.def, s.loops) && Good(setup, s)
    requires step.Load? || step.Begin? || step.Initialise? || step.Open? || step.Pick? || step.Start? || step.Reject?
      || step.Answer? || step.Record? || step.Settle? || step.Crash?
    ensures Good(setup, Next(setup, s, step))
  {
    hide Good;
    match step {
      case Load(loops) => LoadIsGood(setup, s, loops);
      case Begin => BeginIsGood(setup, s);
      case Initialise => InitialiseIsGood(setup, s);
      case Open => OpenIsGood(setup, s);
      case Pick => PickIsGood(setup, s);
      case Start => StartIsGood(setup, s);
      case Reject => RejectIsGood(setup, s);
      case Answer(answer) => AnswerIsGood(setup, s, answer);
      case Record => RecordIsGood(setup, s);
      case Settle => SettleIsGood(setup, s);
      case Crash => CrashIsGood(setup, s);
    }
  }

  lemma CrashIsGood(setup: Setup, s: Sys)
    requires Good(setup, s)
    ensures Good(setup, s.(phase := Idle))
  {
  }

  lemma StepIsGood(setup: Setup, s: Sys, step: Step)
    requires Registered(setup.def) && Good(setup, s)
    ensures Good(setup, Next(setup, s, step))
  {
    RegisteredSlices(setup.def, s.loops);
    hide Good, Registered;
    match step {
      case Pause => StatusWriteIsGood(setup, s, MayRun(s.snapshot.status), Paused);
      case Resume => StatusWriteIsGood(setup, s, s.snapshot.status.Paused?, WorkflowStatus.Pending);
      case LoseHost(host) =>
        StatusWriteIsGood(setup, s, !s.snapshot.status.Completed? && !s.snapshot.status.Failed?
          && s.snapshot.pinnedWorkerHost == Some(host),
                          WorkflowStatus.Failed);
      case SubmitInput(id, input) => SubmitInputIsGood(setup, s, id, input);
      case Retry(id) => RetryIsGood(setup, s, id);
      case ForceRetry(id, target) => ForceRetryIsGood(setup, s, id, target);
      case Recover(ids) => RecoverIsGood(setup, s, ids);
      case _ => EngineStepIsGood(setup, s, step);
    }
  }

  lemma CreatedIsGood(setup: Setup, s: Sys)
    requires Created(setup, s)
    ensures Good(setup, s)
  {
    assert s.log[1..] == [];
  }

  /** Every state of every run is good. */
  lemma {:induction false} RunIsGood(setup: Setup, s: Sys, steps: seq<Step>)
    requires Registered(setup.def) && Good(setup, s)
    ensures Good(setup, Run(setup, s, steps))
    decreases |steps|
  {
    if steps != [] {
      StepIsGood(setup, s, steps[0]);
      RunIsGood(setup, Next(setup, s, steps[0]), steps[1..]);
    }
  }
}
