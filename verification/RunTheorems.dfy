/**
 What holds of every run: of any list of steps by the engine, by users, by lost hosts, crashes and
 restarts, from the creation of the instance on.
 */
module RunTheorems {
  import opened Prelude
  import opened JsonValues
  import opened AttemptIds
  import opened Model
  import opened Reducer
  import opened LoopSlices
  import opened Engine
  import opened EngineEffects
  import opened EngineInvariants
  import opened EngineSteps
  import opened OpeningAndRecovery
  import opened FieldReadings
  import opened PauseRebase
  import opened WorkflowRuns
  import opened RunInvariants
  import opened RunSafety
  import opened RunHistory

  lemma Reachable(setup: Setup, s: Sys, steps: seq<Step>)
    requires Registered(setup.def) && Created(setup, s)
    ensures Good(setup, Run(setup, s, steps))
  {
    CreatedIsGood(setup, s);
    RunIsGood(setup, s, steps);
  }

  /** The stored snapshot is the replay of the stored log, and its version is the length of the log. */
  lemma SnapshotIsReplay(setup: Setup, s: Sys, steps: seq<Step>)
    requires Registered(setup.def) && Created(setup, s)
    ensures var t := Run(setup, s, steps);
      && ReduceEvents(None, t.log).Success?
      && t.snapshot == ReduceEvents(None, t.log).value.(version := |t.log|)
  {
    Reachable(setup, s, steps);
  }

  // ---------------------------------------------------------------------------
  // Verifier loops

  /** A verifier never iterates beyond its budget, and at least once. */
  lemma GenerationsBounded(setup: Setup, s: Sys, steps: seq<Step>, v: TaskId)
    requires Registered(setup.def) && Created(setup, s) && v in Run(setup, s, steps).snapshot.verifierStates
    ensures VerifierOf(setup.def, v).Some?
    ensures var max := VerifierOf(setup.def, v).value.maxIterations;
      1 <= Run(setup, s, steps).snapshot.verifierStates[v].latestGeneration <= (if max < 1 then 1 else max)
  {
    Reachable(setup, s, steps);
  }

  /** Inside a loop body only the selected generation of a settled loop is satisfied. */
  lemma SatisfiedMeansSelected(setup: Setup, s: Sys, steps: seq<Step>, v: TaskId, id: AttemptId)
    requires Registered(setup.def) && Created(setup, s)
    requires var t := Run(setup, s, steps);
      v in t.loops.body && id in t.snapshot.tasks && id.taskDefId in t.loops.body[v]
        && t.snapshot.tasks[id].satisfaction.Satisfied?
    ensures var states := Run(setup, s, steps).snapshot.verifierStates;
      v in states && states[v].Settled() && states[v].selectedGeneration == Some(id.generation)
  {
    Reachable(setup, s, steps);
  }

  /**
   Whatever an attempt consumed stays true for the rest of the run: each recorded input is the output of
   the completed attempt its mapping names, and when it crosses out of a loop, that attempt belongs to the
   generation the loop's verdict selected for good.
   */
  lemma ConsumersReadTheAcceptedGeneration(setup: Setup, s: Sys, steps: seq<Step>, more: seq<Step>, id: AttemptId,
      k: nat)
    requires Registered(setup.def) && Created(setup, s)
    requires var i := Run(setup, s, steps).snapshot; id in i.tasks && k < |i.tasks[id].inputMapping|
    ensures var task := Run(setup, s, steps).snapshot.tasks[id];
      var later := Run(setup, s, steps + more);
      var m := task.inputMapping[k];
      var inbound := Inbound(setup.def.dataBindings, id.taskDefId);
      && |task.inputData| == |task.inputMapping| == |inbound|
      && InputFrom(later.loops, later.snapshot.tasks, later.snapshot.verifierStates, id.taskDefId, inbound[k].source,
        task.inputData[k], m)
  {
    var t := Run(setup, s, steps);
    var task := t.snapshot.tasks[id];
    Reachable(setup, s, steps);
    RunThenRun(setup, s, steps, more);
    RunEvolves(setup, t, more);
    var later := Run(setup, t, more);
    assert InputsFrom(setup.def, t.loops, t.snapshot.tasks, t.snapshot.verifierStates, id.taskDefId, task.inputData,
      task.inputMapping);
    InputsFromEvolves(setup.def, t.loops, t.snapshot, later.snapshot, id.taskDefId, task.inputData, task.inputMapping);
    LaterSlices(setup, t, later);
    InputsFromOrder(setup.def, t.loops, later.loops, later.snapshot.tasks, later.snapshot.verifierStates, id.taskDefId,
      task.inputData, task.inputMapping);
    assert task.inputMapping != [];
  }

  lemma LaterSlices(setup: Setup, t: Sys, later: Sys)
    requires Registered(setup.def) && LoopsOf(setup.def, t.loops) && LoopsOf(setup.def, later.loops)
    ensures t.loops.body == later.loops.body
  {
    SameSlices(setup.def, t.loops, later.loops);
  }

  /** Completed attempts, skipped attempts and verdicts survive every continuation of a run. */
  lemma HistoryStands(setup: Setup, s: Sys, steps: seq<Step>, more: seq<Step>)
    requires Registered(setup.def) && Created(setup, s)
    ensures Evolves(Run(setup, s, steps).snapshot, Run(setup, s, steps + more).snapshot)
  {
    Reachable(setup, s, steps);
    RunThenRun(setup, s, steps, more);
    RunEvolves(setup, Run(setup, s, steps), more);
  }

  /**
   In a completed workflow the newest attempt of every task has been completed or skipped, and every loop has accepted
   a generation or goes on without end because an attempt of its slice left early.
   */
  lemma CompletedMeansDone(setup: Setup, s: Sys, steps: seq<Step>)
    requires Registered(setup.def) && Created(setup, s)
    requires Run(setup, s, steps).snapshot.status.Completed?
    ensures var t := Run(setup, s, steps); AllDone(setup.def, t.loops, t.snapshot)
  {
    Reachable(setup, s, steps);
    var t := Run(setup, s, steps);
    DoneExactlyWhen(setup.def, t.loops, t.snapshot);
  }

  // ---------------------------------------------------------------------------
  // Pausing

  /** No step starts an attempt unless the stored workflow is Running: never while it is paused. */
  lemma NeverStartsWhilePaused(setup: Setup, s: Sys, steps: seq<Step>, step: Step, id: AttemptId)
    requires Registered(setup.def) && Created(setup, s)
    requires var t, u := Run(setup, s, steps), Next(setup, Run(setup, s, steps), step);
      && id in u.snapshot.tasks && u.snapshot.tasks[id].status.Running?
      && !(id in t.snapshot.tasks && t.snapshot.tasks[id].status.Running?)
    ensures Run(setup, s, steps).snapshot.status.Running?
  {
    Reachable(setup, s, steps);
    StepFollows(setup, Run(setup, s, steps), step);
  }

  /**
   A result that arrives while the workflow is paused: the batch gives the same attempts and states as on the
   engine's own base. It leaves the pause alone exactly if the answer lets the pass go on, which is exactly if it
   carries no workflow status. What the pause boundary makes of it is PausedResultSettles.
   */
  lemma ResultUnderPause(setup: Setup, s: Sys)
    requires Registered(setup.def) && Good(setup, s) && s.phase.Recording? && s.phase.onto.status.Paused?
    ensures Dispatching(setup, s.phase)
    ensures var batch := BatchOf(setup, s, s.phase.answer);
      var base, onto := s.phase.base, s.phase.onto;
      var goesOn := PassGoesOn(setup.valid, s.loops, base, s.phase.todo[0], TaskOf(setup, s.phase), s.phase.answer);
      && batch.Batch? && Reduce(base, batch.events).Success? && Reduce(onto, batch.events).Success?
      && (NoStatus(batch.events) <==> goesOn) && (batch.outcome.Proceed? <==> goesOn)
      && var j, k := Reduce(base, batch.events).value, Reduce(onto, batch.events).value;
      && k.tasks == j.tasks && k.verifierStates == j.verifierStates && k.pinnedWorkerHost == j.pinnedWorkerHost
      && (if goesOn then k.status.Paused? else k.status == j.status && !k.status.Paused?)
  {
    RegisteredSlices(setup.def, s.loops);
    var base, id := s.phase.base, s.phase.todo[0];
    BaseIsGood(setup, s, base);
    AwaitingIsDispatched(setup, s, base, s.phase.todo);
    RebasePreservesPause(setup.valid, setup.def, s.loops, base, s.phase.onto, TaskOf(setup, s.phase), id,
      InputsOf(setup, s), s.phase.answer);
  }

  // ---------------------------------------------------------------------------
  // Dead ends

  /** The workflow has failed without a failed attempt, and no engine holds a current snapshot. */
  ghost predicate Dead(s: Sys) {
    && s.snapshot.status.Failed? && NoneFailed(s.snapshot.tasks)
    && (!s.phase.Idle? ==> s.phase.base.version < s.snapshot.version)
    && (s.phase.Recording? ==> s.phase.onto.version < s.snapshot.version)
  }

  lemma DeadStays(setup: Setup, s: Sys, step: Step)
    requires Dead(s)
    ensures Dead(Next(setup, s, step)) && Next(setup, s, step).snapshot == s.snapshot
      && Next(setup, s, step).log == s.log
  {
    hide Reduce, WorkflowAllCompleted, ResultEvents, InputsAccepted, RunnableIds, Openings, InitialTaskEvents, FindTask,
      SortIds, Distinct, RunningIds;
  }

  lemma {:induction false} DeadForever(setup: Setup, s: Sys, steps: seq<Step>)
    requires Dead(s)
    ensures Run(setup, s, steps).snapshot == s.snapshot && Run(setup, s, steps).log == s.log
    decreases |steps|
  {
    if steps != [] {
      DeadStays(setup, s, steps[0]);
      DeadForever(setup, Next(setup, s, steps[0]), steps[1..]);
    }
  }

  /** A workflow failed because its pinned host was lost stays as it is: neither retry is ever accepted. */
  lemma LostHostIsFinal(setup: Setup, s: Sys, host: HostId, steps: seq<Step>)
    requires Good(setup, s) && AfterLoseHost(s, host) != s
    ensures Run(setup, AfterLoseHost(s, host), steps).snapshot == AfterLoseHost(s, host).snapshot
    ensures Run(setup, AfterLoseHost(s, host), steps).log == AfterLoseHost(s, host).log
    ensures AfterLoseHost(s, host).snapshot.status.Failed?
  {
    Reduce1(s.snapshot, WorkflowStatusChanged(WorkflowStatus.Failed));
    NoneFailedYet(s.snapshot);
    LostHostIsDead(setup, s, host);
    DeadForever(setup, AfterLoseHost(s, host), steps);
  }

  lemma LostHostIsDead(setup: Setup, s: Sys, host: HostId)
    requires PhaseOk(setup, s) && NoneFailed(s.snapshot.tasks) && AfterLoseHost(s, host) != s
    requires Reduce(s.snapshot, [WorkflowStatusChanged(WorkflowStatus.Failed)])
      == Result.Success(s.snapshot.(status := WorkflowStatus.Failed))
    ensures Dead(AfterLoseHost(s, host))
  {
  }

  // ---------------------------------------------------------------------------
  // Commits

  /** Every commit the engine tries is accepted by the reducer: it fails only when someone else wrote first. */
  ghost predicate ReducerAccepts(setup: Setup, s: Sys) {
    match s.phase
    case Idle => true
    case Loaded(base) => Reduce(base, [WorkflowStatusChanged(WorkflowStatus.Running)]).Success?
    case Ready(base) => base.tasks == map[]
      ==> Reduce(base, InitialTaskEvents(base, setup.def, setup.def.tasks)).Success?
    case Top(base) => Reduce(base, Openings(setup, s, base)).Success?
    case Passing(base, _, _) => Reduce(base, [WorkflowStatusChanged(WorkflowStatus.Completed)]).Success?
    case Starting(base, todo) => todo != [] && Reduce(base, [TaskStatusChanged(todo[0], TaskStatus.Running)]).Success?
    case Waiting(base, todo) =>
      && Dispatching(setup, s.phase)
      && Reduce(base, InputEvents(todo[0], InputsOf(setup, s)) + FailTask(todo[0]) + FailWorkflow).Success?
      && forall answer :: BatchOf(setup, s, answer).Batch?
    case Recording(_, _, onto, answer) =>
      && Dispatching(setup, s.phase)
      && BatchOf(setup, s, answer).Batch? && Reduce(onto, BatchOf(setup, s, answer).events).Success?
    case Boundary(base) => Reduce(base, [WorkflowStatusChanged(WorkflowStatus.Completed)]).Success?
  }

  lemma CommitsAccepted(setup: Setup, s: Sys)
    requires Registered(setup.def) && Good(setup, s)
    ensures ReducerAccepts(setup, s)
  {
    RegisteredSlices(setup.def, s.loops);
    if !s.phase.Idle? { BaseIsGood(setup, s, s.phase.base); }
    if s.phase.Recording? {
      RecordingAccepted(setup, s, s.phase.base, s.phase.todo, s.phase.onto, s.phase.answer);
    } else if s.phase.Waiting? {
      WaitingAccepted(setup, s, s.phase.base, s.phase.todo);
    } else if s.phase.Top? {
      OpeningsAccepted(setup, s, s.phase.base);
    } else {
      OthersAccepted(setup, s);
    }
  }

  lemma OthersAccepted(setup: Setup, s: Sys)
    requires UniqueIds(setup.def) && PhaseOk(setup, s)
    requires s.phase.Ready? ==> Inv(setup.def, s.loops, s.phase.base)
    requires !s.phase.Recording? && !s.phase.Waiting? && !s.phase.Top?
    ensures ReducerAccepts(setup, s)
  {
    if !s.phase.Idle? {
      Reduce1(s.phase.base, WorkflowStatusChanged(WorkflowStatus.Running));
      Reduce1(s.phase.base, WorkflowStatusChanged(WorkflowStatus.Completed));
    }
    if s.phase.Ready? && s.phase.base.tasks == map[] { InitialKeepsInv(setup.def, s.loops, s.phase.base); }
    if s.phase.Starting? { Reduce1(s.phase.base, TaskStatusChanged(s.phase.todo[0], TaskStatus.Running)); }
  }

  lemma OpeningsAccepted(setup: Setup, s: Sys, base: WorkflowInstance)
    requires LoopShape(setup.def, s.loops) && Inv(setup.def, s.loops, base)
      && (base.tasks == map[] ==> setup.def.tasks == [])
    ensures Reduce(base, Openings(setup, s, base)).Success?
  {
    if Openings(setup, s, base) != [] {
      TasksExist(setup, s, base);
      OpeningKeepsInv(setup.def, s.loops, base);
    }
  }

  lemma RecordingAccepted(setup: Setup, s: Sys, base: WorkflowInstance, todo: seq<AttemptId>, onto: WorkflowInstance,
      answer: DispatchAnswer)
    requires LoopShape(setup.def, s.loops) && Inv(setup.def, s.loops, base)
    requires s.phase == Recording(base, todo, onto, answer) && Good(setup, s)
    ensures Dispatching(setup, s.phase)
    ensures BatchOf(setup, s, answer).Batch? && Reduce(onto, BatchOf(setup, s, answer).events).Success?
  {
    AwaitingIsDispatched(setup, s, base, todo);
    RecordStores(setup, s, base, todo, onto, TaskOf(setup, s.phase), answer);
  }

  lemma WaitingAccepted(setup: Setup, s: Sys, base: WorkflowInstance, todo: seq<AttemptId>)
    requires LoopShape(setup.def, s.loops) && Inv(setup.def, s.loops, base)
    requires s.phase == Waiting(base, todo) && Awaiting(setup, s, base, todo)
    ensures Dispatching(setup, s.phase)
    ensures Reduce(base, InputEvents(todo[0], InputsOf(setup, s)) + FailTask(todo[0]) + FailWorkflow).Success?
    ensures forall answer :: BatchOf(setup, s, answer).Batch?
  {
    AwaitingIsDispatched(setup, s, base, todo);
    FailureAccepted(setup.def, s.loops, base, todo[0], InputsOf(setup, s));
    forall answer ensures BatchOf(setup, s, answer).Batch? {
      ResultAccepted(setup.valid, setup.def, s.loops, base, todo[0], TaskOf(setup, s.phase), InputsOf(setup, s),
        answer);
    }
  }

  // ---------------------------------------------------------------------------
  // The end of a run

  /**
   When a pass ends without progress nothing is runnable and no loop can open. The workflow completes exactly if
   all is done; if somebody has written meanwhile, the commit is refused and what they stored stands.
   */
  lemma StopsOnlyWhenQuiescent(setup: Setup, s: Sys)
    requires Registered(setup.def) && Good(setup, s) && s.phase.Passing? && s.phase.todo == [] && !s.phase.progress
    ensures forall id :: !MayRunNow(setup.def, s.loops, s.phase.base.tasks, id)
    ensures forall task :: task in setup.def.tasks && task.verifier.Some? ==>
      !MayOpen(setup.def, s.loops, s.phase.base, task)
    ensures var t := AfterPick(setup, s);
      && t.phase.Idle?
      && (if s.phase.base.version == s.snapshot.version
          then t.snapshot.status.Completed? <==> AllDone(setup.def, s.loops, s.phase.base)
          else t.snapshot == s.snapshot && t.log == s.log)
  {
    hide Registered, Good, KeysMatch, LoopShape, Runnable, MayRunNow, Eligible, MayOpen, WorkflowAllCompleted, AllDone,
      AfterPick;
    var base := s.phase.base;
    StopsQuiet(setup, s);
    QuietBase(setup, s);
    DoneExactlyWhen(setup.def, s.loops, base);
    forall id ensures !MayRunNow(setup.def, s.loops, base.tasks, id) {
      RunnableExactlyWhen(setup.def, s.loops, base.tasks, id);
    }
    forall task | task in setup.def.tasks && task.verifier.Some? ensures !MayOpen(setup.def, s.loops, base, task) {
      EligibleExactlyWhen(setup.def, s.loops, base, task);
    }
  }

  lemma QuietBase(setup: Setup, s: Sys)
    requires Registered(setup.def) && Good(setup, s) && s.phase.Passing?
    ensures KeysMatch(setup.def, s.phase.base.tasks) && LoopShape(setup.def, s.loops)
  {
    RegisteredSlices(setup.def, s.loops);
  }

  lemma StopsQuiet(setup: Setup, s: Sys)
    requires Good(setup, s) && s.phase.Passing? && s.phase.todo == [] && !s.phase.progress
    ensures forall id :: !Runnable(s.phase.base.tasks, setup.def, s.loops, id)
    ensures forall v :: !Eligible(s.phase.base, setup.def, s.loops, v)
    ensures var t := AfterPick(setup, s);
      && t.phase.Idle?
      && (if s.phase.base.version == s.snapshot.version
          then t.snapshot.status.Completed? <==> WorkflowAllCompleted(s.phase.base, setup.def, s.loops)
          else t.snapshot == s.snapshot && t.log == s.log)
  {
    var base := s.phase.base;
    assert RunnableIds(base.tasks, setup.def, s.loops) == {} by {
      assert forall id :: id in SortIds(RunnableIds(base.tasks, setup.def, s.loops))
               <==> id in RunnableIds(base.tasks, setup.def, s.loops);
    }
    assert forall id :: Runnable(base.tasks, setup.def, s.loops, id)
             ==> id in RunnableIds(base.tasks, setup.def, s.loops);
    OpeningEmpty(setup.def, s.loops, base, s.loops.order, {});
    Reduce1(base, WorkflowStatusChanged(WorkflowStatus.Completed));
  }
}
