/**
 What a run can never undo: completed attempts, skips, verdicts and feedback. And what it never does:
 start an attempt while the stored workflow is not running.
 */
module RunHistory {
  import opened Prelude
  import opened JsonValues
  import opened AttemptIds
  import opened Model
  import opened Reducer
  import opened LoopSlices
  import opened Engine
  import opened EngineEffects
  import opened EngineInvariants
  import opened EngineSteps
  import opened OpeningAndRecovery
  import opened WorkflowRuns
  import opened RunInvariants
  import opened RunSafety

  lemma FollowsSelf(i: WorkflowInstance)
    ensures Follows(i, i)
  {
  }

  lemma VersionFollows(i: WorkflowInstance, j: WorkflowInstance, version: nat)
    requires Follows(i, j)
    ensures Follows(i, j.(version := version))
  {
  }

  lemma StatusFollows(i: WorkflowInstance, status: WorkflowStatus)
    ensures Follows(i, i.(status := status))
  {
  }

  lemma StoreFollows(s: Sys, base: WorkflowInstance, events: seq<Event>)
    requires Store(s, base, events).Some? && base == s.snapshot && Follows(base, Reduce(base, events).value)
    ensures Follows(s.snapshot, Store(s, base, events).value.snapshot)
  {
    VersionFollows(base, Reduce(base, events).value, base.version + |events|);
  }

  lemma WrittenFollows(s: Sys, guard: bool, event: Event)
    requires guard && ApplyEvent(s.snapshot, event).Success?
      ==> Follows(s.snapshot, ApplyEvent(s.snapshot, event).value)
    ensures Follows(s.snapshot, Written(s, guard, event).snapshot)
  {
    Reduce1(s.snapshot, event);
    if guard && Store(s, s.snapshot, [event]).Some? {
      StoreFollows(s, s.snapshot, [event]);
    } else {
      FollowsSelf(s.snapshot);
    }
  }

  /** A base that is still current is the stored snapshot. */
  lemma CurrentBase(s: Sys, base: WorkflowInstance, events: seq<Event>)
    requires Quiet(base, s.snapshot) && Store(s, base, events).Some?
    ensures base == s.snapshot
  {
  }

  // ---------------------------------------------------------------------------
  // Engine steps

  lemma BeginFollows(s: Sys)
    requires s.phase.Loaded? ==> Quiet(s.phase.base, s.snapshot)
    ensures Follows(s.snapshot, AfterBegin(s).snapshot)
  {
    var events := [WorkflowStatusChanged(WorkflowStatus.Running)];
    if s.phase.Loaded? && Store(s, s.phase.base, events).Some? {
      CurrentBase(s, s.phase.base, events);
      Reduce1(s.snapshot, events[0]);
      StatusFollows(s.snapshot, WorkflowStatus.Running);
      StoreFollows(s, s.snapshot, events);
    } else {
      FollowsSelf(s.snapshot);
    }
  }

  lemma ConcludedFollows(setup: Setup, s: Sys, base: WorkflowInstance)
    requires Quiet(base, s.snapshot)
    ensures Follows(s.snapshot, Concluded(setup, s, base).snapshot)
  {
    var events := [WorkflowStatusChanged(WorkflowStatus.Completed)];
    if WorkflowAllCompleted(base, setup.def, s.loops) && Store(s, base, events).Some? {
      CurrentBase(s, base, events);
      Reduce1(s.snapshot, events[0]);
      StatusFollows(s.snapshot, WorkflowStatus.Completed);
      StoreFollows(s, s.snapshot, events);
    } else {
      FollowsSelf(s.snapshot);
    }
  }

  /** While the engine runs, its own commits start from a running snapshot. */
  lemma RunningFollows(i: WorkflowInstance, j: WorkflowInstance)
    requires Evolves(i, j) && i.status.Running?
    ensures Follows(i, j)
  {
  }

  lemma InitialiseFollows(setup: Setup, s: Sys)
    requires UniqueIds(setup.def) && Inv(setup.def, s.loops, s.snapshot)
    requires s.phase.Ready? ==> Quiet(s.phase.base, s.snapshot) && s.phase.base.status.Running?
    ensures Follows(s.snapshot, AfterInitialise(setup, s).snapshot)
  {
    FollowsSelf(s.snapshot);
    if s.phase.Ready? && s.phase.base.tasks == map[] && setup.def.tasks != [] {
      var events := InitialTaskEvents(s.phase.base, setup.def, setup.def.tasks);
      if Store(s, s.phase.base, events).Some? {
        CurrentBase(s, s.phase.base, events);
        InitialKeepsInv(setup.def, s.loops, s.snapshot);
        RunningFollows(s.snapshot, Reduce(s.snapshot, events).value);
        StoreFollows(s, s.snapshot, events);
      }
    }
  }

  lemma OpenFollows(setup: Setup, s: Sys)
    requires LoopShape(setup.def, s.loops) && Inv(setup.def, s.loops, s.snapshot)
    requires s.phase.Top? ==>
      Quiet(s.phase.base, s.snapshot) && s.phase.base.status.Running?
        && (s.phase.base.tasks == map[] ==> setup.def.tasks == [])
    ensures Follows(s.snapshot, AfterOpen(setup, s).snapshot)
  {
    FollowsSelf(s.snapshot);
    if s.phase.Top? && Openings(setup, s, s.phase.base) != [] {
      var events := Openings(setup, s, s.phase.base);
      if Store(s, s.phase.base, events).Some? {
        CurrentBase(s, s.phase.base, events);
        TasksExist(setup, s, s.snapshot);
        OpeningKeepsInv(setup.def, s.loops, s.snapshot);
        RunningFollows(s.snapshot, Reduce(s.snapshot, events).value);
        StoreFollows(s, s.snapshot, events);
      }
    }
  }

  lemma StartFollows(setup: Setup, s: Sys)
    requires Inv(setup.def, s.loops, s.snapshot)
    requires s.phase.Starting? ==>
      && Quiet(s.phase.base, s.snapshot) && s.phase.base.status.Running?
      && Plan(s.loops, s.phase.base, s.phase.todo) && s.phase.todo != []
        && s.phase.base.tasks[s.phase.todo[0]].status.Pending?
    ensures Follows(s.snapshot, AfterStart(s).snapshot)
  {
    FollowsSelf(s.snapshot);
    if s.phase.Starting? {
      var events := [TaskStatusChanged(s.phase.todo[0], TaskStatus.Running)];
      if Store(s, s.phase.base, events).Some? {
        CurrentBase(s, s.phase.base, events);
        Reduce1(s.snapshot, events[0]);
        StartKeepsInv(setup.def, s.loops, s.snapshot, s.phase.todo[0]);
        RunningFollows(s.snapshot, Started(s.snapshot, s.phase.todo[0]));
        StoreFollows(s, s.snapshot, events);
      }
    }
  }

  /** A result starts nothing. */
  lemma ResultFollows(def: WorkflowDef, loops: Loops, i: WorkflowInstance, id: AttemptId, r: ResolvedInputs,
      j: WorkflowInstance)
    requires ResultStep(def, loops, i, id, r, j) && Evolves(i, j)
    ensures Follows(i, j)
  {
    assert NoneStarted(i.tasks, j.tasks);
  }

  lemma RejectFollows(setup: Setup, s: Sys)
    requires LoopShape(setup.def, s.loops) && Inv(setup.def, s.loops, s.snapshot)
    requires s.phase.Waiting? ==> Quiet(s.phase.base, s.snapshot) && Awaiting(setup, s, s.phase.base, s.phase.todo)
    ensures Follows(s.snapshot, AfterReject(setup, s).snapshot)
  {
    hide KeysMatch, Initialised, StatesBounded, Dormant, SatisfiedIsSelected, VerifierChain, SettledIsFinal,
      FailureIsTerminal, Provenance, SlicesOfVerifiers, VerifiersInOwnSlice, SlicesDefined, SlicesDisjoint,
      Evolves, Follows, FindTask, InputsAccepted, ResolveInputs, Reduce;
    FollowsSelf(s.snapshot);
    if s.phase.Waiting? && Dispatching(setup, s.phase) && !InputsAccepted(setup, s) {
      var id, r := s.phase.todo[0], InputsOf(setup, s);
      var events := InputEvents(id, r) + FailTask(id) + FailWorkflow;
      if Store(s, s.phase.base, events).Some? {
        CurrentBase(s, s.phase.base, events);
        FailureAccepted(setup.def, s.loops, s.snapshot, id, r);
        ResolvedInputsFrom(setup.def, s.loops, s.snapshot, id);
        ResultKeepsInv(setup.def, s.loops, s.snapshot, id, r, Reduce(s.snapshot, events).value);
        RunningFollows(s.snapshot, Reduce(s.snapshot, events).value);
        StoreFollows(s, s.snapshot, events);
      }
    }
  }

  lemma RecordBatchFollows(s: Sys, todo: seq<AttemptId>, onto: WorkflowInstance, batch: ResultBatch)
    requires todo != [] && batch.Batch? && Quiet(onto, s.snapshot)
    requires Reduce(onto, batch.events).Success? && Follows(onto, Reduce(onto, batch.events).value)
    ensures Follows(s.snapshot, RecordBatch(s, todo, onto, batch).snapshot)
  {
    FollowsSelf(s.snapshot);
    if Store(s, onto, batch.events).Some? {
      CurrentBase(s, onto, batch.events);
      StoreFollows(s, s.snapshot, batch.events);
    }
  }

  lemma RecordFollows(setup: Setup, s: Sys)
    requires LoopShape(setup.def, s.loops) && GoodStore(setup, s)
    requires s.phase.Recording? ==>
      && Quiet(s.phase.base, s.snapshot) && Awaiting(setup, s, s.phase.base, s.phase.todo)
        && Quiet(s.phase.onto, s.snapshot)
      && (s.phase.onto == s.phase.base
        || s.phase.onto == s.phase.base.(status := Paused, version := s.phase.onto.version))
    ensures Follows(s.snapshot, AfterRecord(setup, s).snapshot)
  {
    if s.phase.Recording? && Dispatching(setup, s.phase) {
      RecordStores(setup, s, s.phase.base, s.phase.todo, s.phase.onto, TaskOf(setup, s.phase), s.phase.answer);
      var batch := BatchOf(setup, s, s.phase.answer);
      ResultFollows(setup.def, s.loops, s.phase.onto, s.phase.todo[0], InputsOf(setup, s),
        Reduce(s.phase.onto, batch.events).value);
      RecordBatchFollows(s, s.phase.todo, s.phase.onto, batch);
    } else {
      FollowsSelf(s.snapshot);
    }
  }

  // ---------------------------------------------------------------------------
  // Everyone else

  lemma EvolvesFollows(i: WorkflowInstance, j: WorkflowInstance)
    requires Evolves(i, j) && NoneStarted(i.tasks, j.tasks)
    ensures Follows(i, j)
  {
  }

  lemma SubmitInputFollows(setup: Setup, s: Sys, id: AttemptId, input: Json)
    requires Inv(setup.def, s.loops, s.snapshot)
    ensures Follows(s.snapshot, AfterSubmitInput(s, id, input).snapshot)
  {
    hide Inv, Evolves, Follows;
    if id in s.snapshot.tasks {
      var next := AttemptId(s.snapshot.tasks[id].taskDefId, s.snapshot.tasks[id].generationIndex + 1);
      var event := HumanInputSubmitted(id, next, input);
      if s.snapshot.status.InputNeeded? && ApplyEvent(s.snapshot, event).Success? {
        HumanKeepsInv(setup.def, s.loops, s.snapshot, id, next, input);
        EvolvesFollows(s.snapshot, Continued(s.snapshot, id, input));
      }
      WrittenFollows(s, s.snapshot.status.InputNeeded? && s.snapshot.tasks[id].status.InputNeeded?
        && next !in s.snapshot.tasks, event);
    } else {
      FollowsSelf(s.snapshot);
    }
  }

  lemma ResetFollows(def: WorkflowDef, loops: Loops, i: WorkflowInstance, id: AttemptId)
    requires Inv(def, loops, i) && ResetFailedTask(i, id).Success?
    ensures Follows(i, ResetFailedTask(i, id).value)
  {
    hide Inv, Evolves;
    RetryKeepsInv(def, loops, i, id);
    EvolvesFollows(i, ResetFailedTask(i, id).value);
  }

  lemma PinFollows(i: WorkflowInstance, j: WorkflowInstance, pin: Option<HostId>)
    requires Follows(i, j)
    ensures Follows(i, j.(pinnedWorkerHost := pin))
  {
  }

  lemma RetryFollows(setup: Setup, s: Sys, id: AttemptId)
    requires Inv(setup.def, s.loops, s.snapshot)
    ensures Follows(s.snapshot, AfterRetry(s, id).snapshot)
  {
    hide Inv, Follows, ResetFailedTask, Written;
    if ResetFailedTask(s.snapshot, id).Success? { ResetFollows(setup.def, s.loops, s.snapshot, id); }
    WrittenFollows(s, Retryable(s.snapshot, id), TaskRetryRequested(id));
  }

  lemma ForceRetryFollows(setup: Setup, s: Sys, id: AttemptId, target: HostId)
    requires Inv(setup.def, s.loops, s.snapshot)
    ensures Follows(s.snapshot, AfterForceRetry(s, id, target).snapshot)
  {
    var pin := s.snapshot.pinnedWorkerHost;
    var event := TaskForceRetryRequested(id, pin, target, pin != Some(target));
    if ApplyEvent(s.snapshot, event).Success? {
      ForceRetryIsRetry(s.snapshot, event);
      ResetFollows(setup.def, s.loops, s.snapshot, id);
      PinFollows(s.snapshot, ResetFailedTask(s.snapshot, id).value, Some(target));
    }
    WrittenFollows(s, Retryable(s.snapshot, id), event);
  }

  lemma RecoverFollows(setup: Setup, s: Sys, ids: seq<AttemptId>)
    requires Inv(setup.def, s.loops, s.snapshot)
    ensures Follows(s.snapshot, AfterRecover(s, ids).snapshot)
  {
    hide Inv, Evolves;
    var event := StartupRecoveryApplied(ids);
    if ApplyEvent(s.snapshot, event).Success? {
      RecoverAttemptsFrame(s.snapshot.tasks, ids);
      RecoveryKeepsInv(setup.def, s.loops, s.snapshot, ids);
      EvolvesFollows(s.snapshot, ApplyEvent(s.snapshot, event).value);
    }
    WrittenFollows(s, s.phase.Idle? && MayRun(s.snapshot.status) && Distinct(ids)
      && (set x | x in ids) == RunningIds(s.snapshot.tasks)
                      && (s.snapshot.status.Running? || ids != []), event);
  }

  lemma StatusWriteFollows(s: Sys, guard: bool, status: WorkflowStatus)
    ensures Follows(s.snapshot, Written(s, guard, WorkflowStatusChanged(status)).snapshot)
  {
    StatusFollows(s.snapshot, status);
    WrittenFollows(s, guard, WorkflowStatusChanged(status));
  }

  lemma PickFollows(setup: Setup, s: Sys)
    requires s.phase.Passing? ==> Quiet(s.phase.base, s.snapshot)
    ensures Follows(s.snapshot, AfterPick(setup, s).snapshot)
  {
    FollowsSelf(s.snapshot);
    if s.phase.Passing? { ConcludedFollows(setup, s, s.phase.base); }
  }

  lemma SettleFollows(setup: Setup, s: Sys)
    requires s.phase.Boundary? ==> Quiet(s.phase.base, s.snapshot)
    ensures Follows(s.snapshot, AfterSettle(setup, s).snapshot)
  {
    FollowsSelf(s.snapshot);
    if s.phase.Boundary? { ConcludedFollows(setup, s, s.phase.base); }
  }

  // ---------------------------------------------------------------------------
  // Runs

  lemma StepFollows(setup: Setup, s: Sys, step: Step)
    requires Registered(setup.def) && Good(setup, s)
    ensures Follows(s.snapshot, Next(setup, s, step).snapshot)
  {
    hide Registered, Follows, Inv, Replayed, WorkflowAllCompleted, Reduce, Store, AfterBegin, AfterInitialise,
      AfterOpen,
      AfterPick, AfterStart, AfterReject, AfterRecord, AfterSettle, Written, BatchOf, InputsAccepted;
    RegisteredSlices(setup.def, s.loops);
    match step {
      case Load(loops) => FollowsSelf(s.snapshot);
      case Begin => BeginFollows(s);
      case Initialise => InitialiseFollows(setup, s);
      case Open => OpenFollows(setup, s);
      case Pick => PickFollows(setup, s);
      case Start => StartFollows(setup, s);
      case Reject => RejectFollows(setup, s);
      case Answer(answer) => FollowsSelf(s.snapshot);
      case Record => RecordFollows(setup, s);
      case Settle => SettleFollows(setup, s);
      case Crash => FollowsSelf(s.snapshot);
      case _ => OthersFollow(setup, s, step);
    }
  }

  lemma OthersFollow(setup: Setup, s: Sys, step: Step)
    requires Inv(setup.def, s.loops, s.snapshot)
    requires step.Pause? || step.Resume? || step.LoseHost? || step.SubmitInput? || step.Retry? || step.ForceRetry?
      || step.Recover?
    ensures Follows(s.snapshot, Next(setup, s, step).snapshot)
  {
    hide Follows, Inv, AfterSubmitInput, AfterRetry, AfterForceRetry, AfterRecover, Written;
    match step {
      case Pause => StatusWriteFollows(s, MayRun(s.snapshot.status), Paused);
      case Resume => StatusWriteFollows(s, s.snapshot.status.Paused?, WorkflowStatus.Pending);
      case LoseHost(host) =>
        StatusWriteFollows(s, !s.snapshot.status.Completed? && !s.snapshot.status.Failed?
          && s.snapshot.pinnedWorkerHost == Some(host), WorkflowStatus.Failed);
      case SubmitInput(id, input) => SubmitInputFollows(setup, s, id, input);
      case Retry(id) => RetryFollows(setup, s, id);
      case ForceRetry(id, target) => ForceRetryFollows(setup, s, id, target);
      case Recover(ids) => RecoverFollows(setup, s, ids);
    }
  }

  /** Over any run, completed attempts, skips, verdicts and feedback stay. */
  lemma {:induction false} RunEvolves(setup: Setup, s: Sys, steps: seq<Step>)
    requires Registered(setup.def) && Good(setup, s)
    ensures Good(setup, Run(setup, s, steps)) && Evolves(s.snapshot, Run(setup, s, steps).snapshot)
    decreases |steps|
  {
    if steps == [] {
      FollowsSelf(s.snapshot);
    } else {
      var t := Next(setup, s, steps[0]);
      StepIsGood(setup, s, steps[0]);
      StepFollows(setup, s, steps[0]);
      RunEvolves(setup, t, steps[1..]);
      EvolvesTransitive(s.snapshot, t.snapshot, Run(setup, t, steps[1..]).snapshot);
    }
  }

  /** Runs compose. */
  lemma {:induction false} RunThenRun(setup: Setup, s: Sys, first: seq<Step>, second: seq<Step>)
    ensures Run(setup, s, first + second) == Run(setup, Run(setup, s, first), second)
    decreases |first|
  {
    if first == [] {
      assert first + second == second;
    } else {
      assert (first + second)[1..] == first[1..] + second;
      RunThenRun(setup, Next(setup, s, first[0]), first[1..], second);
    }
  }
}
