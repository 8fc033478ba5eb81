/** How a workflow comes to be Failed, and when a failed one can be retried. */
module RunFailures {
  import opened Prelude
  import opened JsonValues
  import opened AttemptIds
  import opened Model
  import opened Reducer
  import opened LoopSlices
  import opened Engine
  import opened EngineEffects
  import opened EngineInvariants
  import opened EngineSteps
  import opened OpeningAndRecovery
  import opened WorkflowRuns
  import opened RunInvariants
  import opened RunSafety
  import opened RunHistory
  import opened RunTheorems

  // ---------------------------------------------------------------------------
  // Retries

  predicate FailedAttempt(i: WorkflowInstance, id: AttemptId) {
    id in i.tasks && i.tasks[id].status.Failed?
  }

  /** In a failed workflow both retries are accepted for exactly the failed attempts. */
  lemma RetryAcceptedExactlyWhen(s: Sys, id: AttemptId, target: HostId)
    requires s.snapshot.status.Failed?
    ensures AfterRetry(s, id) != s <==> FailedAttempt(s.snapshot, id)
    ensures AfterForceRetry(s, id, target) != s <==> FailedAttempt(s.snapshot, id)
  {
    var pin := s.snapshot.pinnedWorkerHost;
    Reduce1(s.snapshot, TaskRetryRequested(id));
    Reduce1(s.snapshot, TaskForceRetryRequested(id, pin, target, pin != Some(target)));
  }

  // ---------------------------------------------------------------------------
  // Failed workflows

  lemma FailedStopsEngine(setup: Setup, s: Sys, step: Step)
    requires PhaseOk(setup, s) && s.snapshot.status.Failed?
    requires !step.Retry? && !step.ForceRetry? && !step.SubmitInput? && !step.Recover?
    ensures Next(setup, s, step).snapshot == s.snapshot
  {
    hide FindTask, Dispatching, NoneFailed, Reduce, WorkflowAllCompleted, ResultEvents, InputsAccepted, Openings,
      InitialTaskEvents, RunnableIds, Plan,
      Untried;
  }

  /** A failed workflow is changed by a retry only. */
  lemma FailedStays(setup: Setup, s: Sys, step: Step)
    requires Good(setup, s) && s.snapshot.status.Failed?
    ensures var t := Next(setup, s, step); t.snapshot == s.snapshot || !t.snapshot.status.Failed?
  {
    if step.Retry? || step.ForceRetry? {
      RetryLeavesFailed(setup, s, step);
    } else if !step.SubmitInput? && !step.Recover? {
      FailedStopsEngine(setup, s, step);
    }
  }

  lemma RetryLeavesFailed(setup: Setup, s: Sys, step: Step)
    requires step.Retry? || step.ForceRetry?
    ensures var t := Next(setup, s, step); t == s || t.snapshot.status.Pending?
  {
    if step.Retry? {
      Reduce1(s.snapshot, TaskRetryRequested(step.id));
    } else {
      var pin := s.snapshot.pinnedWorkerHost;
      Reduce1(s.snapshot, TaskForceRetryRequested(step.id, pin, step.target, pin != Some(step.target)));
    }
  }

  /** A result that fails the workflow has failed its attempt. */
  lemma FailedResult(def: WorkflowDef, loops: Loops, i: WorkflowInstance, id: AttemptId, r: ResolvedInputs,
      batch: ResultBatch)
    requires AcceptedBatch(def, loops, i, id, r, batch) && !i.status.Failed?
    ensures Reduce(i, batch.events).value.status.Failed? ==> FailedAttempt(Reduce(i, batch.events).value, id)
  {
  }

  lemma RejectFails(setup: Setup, s: Sys)
    requires LoopShape(setup.def, s.loops) && GoodStore(setup, s) && !s.snapshot.status.Failed?
    requires s.phase.Waiting? ==> Quiet(s.phase.base, s.snapshot) && Awaiting(setup, s, s.phase.base, s.phase.todo)
    ensures AfterReject(setup, s).snapshot.status.Failed? ==> !NoneFailed(AfterReject(setup, s).snapshot.tasks)
  {
    hide LoopShape, GoodStore, Reduce, ResultStep, ResolveInputs, FindTask, InputsAccepted, Plan;
    if s.phase.Waiting? && Dispatching(setup, s.phase) && !InputsAccepted(setup, s) {
      var id, r := s.phase.todo[0], InputsOf(setup, s);
      var events := InputEvents(id, r) + FailTask(id) + FailWorkflow;
      if Store(s, s.phase.base, events).Some? {
        CurrentBase(s, s.phase.base, events);
        FailureAccepted(setup.def, s.loops, s.snapshot, id, r);
        FailedResult(setup.def, s.loops, s.snapshot, id, r, Batch(events, StopError));
      }
    }
  }

  lemma RecordBatchFails(s: Sys, todo: seq<AttemptId>, onto: WorkflowInstance, batch: ResultBatch)
    requires todo != [] && batch.Batch? && Quiet(onto, s.snapshot) && !s.snapshot.status.Failed?
    requires Reduce(onto, batch.events).Success?
    requires Reduce(onto, batch.events).value.status.Failed?
      ==> FailedAttempt(Reduce(onto, batch.events).value, todo[0])
    ensures var t := RecordBatch(s, todo, onto, batch); t.snapshot.status.Failed? ==> !NoneFailed(t.snapshot.tasks)
  {
  }

  lemma RecordFails(setup: Setup, s: Sys)
    requires LoopShape(setup.def, s.loops) && Good(setup, s) && !s.snapshot.status.Failed?
    ensures AfterRecord(setup, s).snapshot.status.Failed? ==> !NoneFailed(AfterRecord(setup, s).snapshot.tasks)
  {
    hide LoopShape, Inv, LoopsOf, Replayed, WorkflowAllCompleted, Reduce, ResultEvents, ResultStep, Evolves, Plan,
      FindTask,
      NoneFailed, RecordBatch;
    if s.phase.Recording? && Dispatching(setup, s.phase) {
      var base, todo, onto := s.phase.base, s.phase.todo, s.phase.onto;
      RecordStores(setup, s, base, todo, onto, TaskOf(setup, s.phase), s.phase.answer);
      FailedResult(setup.def, s.loops, onto, todo[0], InputsOf(setup, s), BatchOf(setup, s, s.phase.answer));
      RecordBatchFails(s, todo, onto, BatchOf(setup, s, s.phase.answer));
    }
  }

  lemma NoneFailedIn(setup: Setup, s: Sys)
    requires GoodStore(setup, s) && !s.snapshot.status.Failed?
    ensures NoneFailed(s.snapshot.tasks)
  {
    NoneFailedYet(s.snapshot);
  }

  lemma LoseHostKeepsTasks(s: Sys, host: HostId)
    ensures AfterLoseHost(s, host).snapshot.tasks == s.snapshot.tasks
  {
    Reduce1(s.snapshot, WorkflowStatusChanged(WorkflowStatus.Failed));
  }

  /** The workflow is failed by a lost host or together with an attempt. */
  lemma FailingStep(setup: Setup, s: Sys, step: Step)
    requires Registered(setup.def) && Good(setup, s) && !s.snapshot.status.Failed?
    requires Next(setup, s, step).snapshot.status.Failed?
    ensures NoneFailed(Next(setup, s, step).snapshot.tasks) <==> step.LoseHost?
  {
    hide Registered, LoopShape, Inv, Replayed, WorkflowAllCompleted, AfterReject, AfterRecord, LoopsOf,
      AfterLoseHost;
    RegisteredSlices(setup.def, s.loops);
    if step.LoseHost? {
      NoneFailedIn(setup, s);
      LoseHostKeepsTasks(s, step.host);
    } else if step.Reject? {
      RejectFails(setup, s);
    } else if step.Record? {
      RecordFails(setup, s);
    } else {
      OthersDoNotFail(setup, s, step);
    }
  }

  lemma StatusAfter(s: Sys, base: WorkflowInstance, events: seq<Event>)
    requires Store(s, base, events).Some?
    ensures Store(s, base, events).value.snapshot.status == Reduce(base, events).value.status
  {
  }

  lemma EngineDoesNotFail(setup: Setup, s: Sys, step: Step)
    requires UniqueIds(setup.def) && LoopShape(setup.def, s.loops) && Good(setup, s) && !s.snapshot.status.Failed?
    requires step.Initialise? || step.Open?
    ensures !Next(setup, s, step).snapshot.status.Failed?
  {
    hide LoopShape, UniqueIds, Good;
    if step.Initialise? { InitialiseDoesNotFail(setup, s); } else { OpenDoesNotFail(setup, s); }
  }

  lemma InitialiseDoesNotFail(setup: Setup, s: Sys)
    requires UniqueIds(setup.def) && Good(setup, s) && !s.snapshot.status.Failed?
    ensures !AfterInitialise(setup, s).snapshot.status.Failed?
  {
    hide Inv, LoopsOf, Replayed, WorkflowAllCompleted, Reduce, Evolves, InitialTaskEvents, UniqueIds, NoneFailed;
    if s.phase.Ready? && s.phase.base.tasks == map[] && setup.def.tasks != [] {
      var events := InitialTaskEvents(s.phase.base, setup.def, setup.def.tasks);
      if Store(s, s.phase.base, events).Some? {
        CurrentBase(s, s.phase.base, events);
        InitialKeepsInv(setup.def, s.loops, s.snapshot);
        StatusAfter(s, s.snapshot, events);
      }
    }
  }

  lemma OpenDoesNotFail(setup: Setup, s: Sys)
    requires LoopShape(setup.def, s.loops) && Good(setup, s) && !s.snapshot.status.Failed?
    ensures !AfterOpen(setup, s).snapshot.status.Failed?
  {
    hide Inv, LoopsOf, Replayed, WorkflowAllCompleted, Reduce, Evolves, SlicesDefined, SlicesDisjoint, NoneFailed,
      InitialGenerationEvents, RunnableIds;
    if s.phase.Top? && Openings(setup, s, s.phase.base) != [] {
      var events := Openings(setup, s, s.phase.base);
      if Store(s, s.phase.base, events).Some? {
        CurrentBase(s, s.phase.base, events);
        TasksExist(setup, s, s.snapshot);
        OpeningKeepsInv(setup.def, s.loops, s.snapshot);
        StatusAfter(s, s.snapshot, events);
      }
    }
  }

  lemma PlainStepsDoNotFail(setup: Setup, s: Sys, step: Step)
    requires PhaseOk(setup, s) && !s.snapshot.status.Failed?
    requires !step.Initialise? && !step.Open? && !step.LoseHost? && !step.Reject? && !step.Record?
    requires !step.Retry? && !step.ForceRetry? && !step.SubmitInput? && !step.Recover?
    ensures !Next(setup, s, step).snapshot.status.Failed?
  {
    hide Reduce, WorkflowAllCompleted, ResultEvents, InputsAccepted, RunnableIds, Plan, Untried;
    Reduce1(s.snapshot, WorkflowStatusChanged(WorkflowStatus.Running));
    Reduce1(s.snapshot, WorkflowStatusChanged(WorkflowStatus.Completed));
    Reduce1(s.snapshot, WorkflowStatusChanged(WorkflowStatus.Pending));
    Reduce1(s.snapshot, WorkflowStatusChanged(Paused));
    if step.Start? && s.phase.Starting? { Reduce1(s.snapshot, TaskStatusChanged(s.phase.todo[0], TaskStatus.Running)); }
  }

  lemma RequestsDoNotFail(setup: Setup, s: Sys, step: Step)
    requires !s.snapshot.status.Failed? && (step.Retry? || step.ForceRetry? || step.SubmitInput? || step.Recover?)
    ensures !Next(setup, s, step).snapshot.status.Failed?
  {
    match step {
      case SubmitInput(id, input) =>
        if id in s.snapshot.tasks {
          var next := AttemptId(s.snapshot.tasks[id].taskDefId, s.snapshot.tasks[id].generationIndex + 1);
          Reduce1(s.snapshot, HumanInputSubmitted(id, next, input));
        }
      case Recover(ids) => Reduce1(s.snapshot, StartupRecoveryApplied(ids));
      case _ => RetryLeavesFailed(setup, s, step);
    }
  }

  lemma OthersDoNotFail(setup: Setup, s: Sys, step: Step)
    requires UniqueIds(setup.def) && LoopShape(setup.def, s.loops) && Good(setup, s) && !s.snapshot.status.Failed?
    requires !step.LoseHost? && !step.Reject? && !step.Record?
    ensures !Next(setup, s, step).snapshot.status.Failed?
  {
    if step.Initialise? || step.Open? {
      EngineDoesNotFail(setup, s, step);
    } else if step.Retry? || step.ForceRetry? || step.SubmitInput? || step.Recover? {
      RequestsDoNotFail(setup, s, step);
    } else {
      PlainStepsDoNotFail(setup, s, step);
    }
  }

  // ---------------------------------------------------------------------------
  // The cause of a failure, over a run

  /** Step `k` failed the workflow, and it has been Failed ever since. */
  ghost predicate FailedSince(setup: Setup, s: Sys, steps: seq<Step>, k: nat) {
    && k < |steps| && !Run(setup, s, steps[..k]).snapshot.status.Failed?
    && forall j :: k < j <= |steps| ==> Run(setup, s, steps[..j]).snapshot.status.Failed?
  }

  lemma RunPrefix(setup: Setup, s: Sys, steps: seq<Step>, k: nat)
    requires k < |steps|
    ensures Run(setup, s, steps[..k + 1]) == Next(setup, Run(setup, s, steps[..k]), steps[k])
  {
    hide Next;
    assert steps[..k + 1] == steps[..k] + [steps[k]];
    RunThenRun(setup, s, steps[..k], [steps[k]]);
    assert [steps[k]][1..] == [];
    var t := Run(setup, s, steps[..k]);
    assert Run(setup, Next(setup, t, steps[k]), []) == Next(setup, t, steps[k]);
  }

  lemma {:induction false} CauseExists(setup: Setup, s: Sys, steps: seq<Step>, n: nat) returns (k: nat)
    requires n <= |steps| && !s.snapshot.status.Failed?
    requires forall j :: n <= j <= |steps| ==> Run(setup, s, steps[..j]).snapshot.status.Failed?
    ensures FailedSince(setup, s, steps, k)
    decreases n
  {
    assert steps[..0] == [] && Run(setup, s, []) == s;
    hide Run;
    if Run(setup, s, steps[..n - 1]).snapshot.status.Failed? {
      k := CauseExists(setup, s, steps, n - 1);
    } else {
      k := n - 1;
    }
  }

  lemma StillFailed(setup: Setup, s: Sys, steps: seq<Step>, k: nat, j: nat)
    requires FailedSince(setup, s, steps, k) && k < j <= |steps|
    ensures Run(setup, s, steps[..j]).snapshot.status.Failed?
  {
  }

  /** From the failing step on, the attempts stay as they are. */
  lemma {:induction false} FrozenSince(setup: Setup, s: Sys, steps: seq<Step>, k: nat, j: nat)
    requires Registered(setup.def) && Good(setup, s) && FailedSince(setup, s, steps, k) && k < j <= |steps|
    ensures Run(setup, s, steps[..j]).snapshot == Run(setup, s, steps[..k + 1]).snapshot
    decreases j
  {
    hide Next, Good, Registered, Run, FailedSince;
    if j > k + 1 {
      assert k < |steps|;
      FrozenSince(setup, s, steps, k, j - 1);
      StillFailed(setup, s, steps, k, j - 1);
      StillFailed(setup, s, steps, k, j);
      RunPrefix(setup, s, steps, j - 1);
      RunIsGood(setup, s, steps[..j - 1]);
      FailedStays(setup, Run(setup, s, steps[..j - 1]), steps[j - 1]);
    }
  }

  lemma CauseTells(setup: Setup, s: Sys, steps: seq<Step>, k: nat)
    requires Registered(setup.def) && Good(setup, s) && FailedSince(setup, s, steps, k)
    ensures NoneFailed(Run(setup, s, steps).snapshot.tasks) <==> steps[k].LoseHost?
  {
    hide Next, Good, Registered, Run;
    FrozenSince(setup, s, steps, k, |steps|);
    assert steps[..|steps|] == steps;
    RunPrefix(setup, s, steps, k);
    RunIsGood(setup, s, steps[..k]);
    FailingStep(setup, Run(setup, s, steps[..k]), steps[k]);
  }

  /**
   When a failed workflow can be retried. In every reachable failed state some retry is accepted exactly if an
   attempt is Failed, forced or not; and there is none exactly if the step that failed the workflow was the loss
   of its host.
   */
  lemma RetryPossibleExactlyWhen(setup: Setup, s: Sys, steps: seq<Step>, target: HostId)
    requires Registered(setup.def) && Created(setup, s) && Run(setup, s, steps).snapshot.status.Failed?
    ensures var t := Run(setup, s, steps);
      && ((exists id :: AfterRetry(t, id) != t) <==> !NoneFailed(t.snapshot.tasks))
      && ((exists id :: AfterForceRetry(t, id, target) != t) <==> !NoneFailed(t.snapshot.tasks))
    ensures exists k: nat :: FailedSince(setup, s, steps, k)
    ensures forall k: nat :: FailedSince(setup, s, steps, k) ==>
      (NoneFailed(Run(setup, s, steps).snapshot.tasks) <==> steps[k].LoseHost?)
  {
    hide Next, Good, Registered, Run, AfterRetry, AfterForceRetry;
    var t := Run(setup, s, steps);
    CreatedIsGood(setup, s);
    assert steps[..|steps|] == steps;
    var cause := CauseExists(setup, s, steps, |steps|);
    forall k: nat | FailedSince(setup, s, steps, k)
      ensures NoneFailed(t.snapshot.tasks) <==> steps[k].LoseHost?
    {
      CauseTells(setup, s, steps, k);
    }
    forall id ensures (AfterRetry(t, id) != t <==> FailedAttempt(t.snapshot, id))
           && (AfterForceRetry(t, id, target) != t <==> FailedAttempt(t.snapshot, id)) {
      RetryAcceptedExactlyWhen(t, id, target);
    }
    if !NoneFailed(t.snapshot.tasks) {
      var id :| id in t.snapshot.tasks && t.snapshot.tasks[id].status.Failed?;
      assert AfterRetry(t, id) != t && AfterForceRetry(t, id, target) != t;
    }
  }
}
