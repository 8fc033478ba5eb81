/** Short runs from the creation of an instance that reach the situations the theorems speak of. */
module RunExamples {
  import opened Prelude
  import opened JsonValues
  import opened AttemptIds
  import opened Model
  import opened Reducer
  import opened LoopSlices
  import opened Engine
  import opened EngineEffects
  import opened EngineInvariants
  import opened EngineSteps
  import opened FieldReadings
  import opened PauseRebase
  import opened WorkflowRuns
  import opened RunInvariants
  import opened RunSafety
  import opened RunHistory
  import opened RunAttempts
  import opened RunTermination
  import opened RunTheorems
  import opened RunRaces

  /** A workflow of one plain task without inputs. */
  ghost predicate OneTask(setup: Setup, task: TaskDef) {
    setup.def.tasks == [task] && setup.def.dataBindings == [] && task.verifier.None? && task.inputSchemas == []
  }

  /** The instance as it is created. */
  function NewInstance(id: string, host: HostId, def: WorkflowDef): WorkflowInstance {
    WorkflowInstance(id, def.id, 0, WorkflowStatus.Pending, None, Some(host), map[], map[])
  }

  const NoLoops := Loops([], map[])

  function NewSystem(id: string, host: HostId, def: WorkflowDef): Sys {
    Sys([WorkflowCreated(NewInstance(id, host, def))], NewInstance(id, host, def).(version := 1), NoLoops, Idle)
  }

  lemma OneTaskRegistered(setup: Setup, task: TaskDef, id: string, host: HostId)
    requires OneTask(setup, task)
    ensures Registered(setup.def) && Created(setup, NewSystem(id, host, setup.def))
  {
    assert EdgesOf(setup.def) == {};
    assert VerifierIds(setup.def) == {};
    forall p, x | |p| >= 2 ensures !PathFromTo(EdgesOf(setup.def), p, x, x) {
      assert (p[0], p[1]) !in EdgesOf(setup.def);
    }
  }

  /** The first attempt of the one task, with a status. */
  function Only(task: TaskDef, status: TaskStatus): Tasks {
    map[AttemptId(task.id, 1) := FreshTask(task.id, 1, None, []).(status := status)]
  }

  lemma Initialised1(setup: Setup, task: TaskDef, base: WorkflowInstance)
    requires OneTask(setup, task) && base.tasks == map[] && base.triggerInput == None
    ensures Reduce(base, InitialTaskEvents(base, setup.def, setup.def.tasks))
      == Result.Success(base.(tasks := Only(task, TaskStatus.Pending)))
    ensures |InitialTaskEvents(base, setup.def, setup.def.tasks)| == 1
  {
    var event := TaskMaterialized(AttemptId(task.id, 1), FreshTask(task.id, 1, None, []));
    assert setup.def.tasks[1..] == [];
    assert InitialTaskEvents(base, setup.def, setup.def.tasks) == [event] + InitialTaskEvents(base, setup.def, []);
    assert InitialTaskEvents(base, setup.def, setup.def.tasks) == [event];
    Reduce1(base, event);
  }

  lemma OnlyIsRunnable(setup: Setup, task: TaskDef, loops: Loops)
    requires OneTask(setup, task)
    ensures SortIds(RunnableIds(Only(task, TaskStatus.Pending), setup.def, loops)) == [AttemptId(task.id, 1)]
  {
    var id := AttemptId(task.id, 1);
    var tasks := Only(task, TaskStatus.Pending);
    assert Runnable(tasks, setup.def, loops, id);
    var runnable := RunnableIds(tasks, setup.def, loops);
    assert forall x :: x in runnable <==> x == id;
    var sorted := SortIds(runnable);
    assert id in sorted && forall k :: 0 <= k < |sorted| ==> sorted[k] in sorted && sorted[k] == id;
  }

  lemma SixSteps(setup: Setup, s: Sys, a: Step, b: Step, c: Step, d: Step, e: Step, f: Step)
    ensures Run(setup, s, [a, b, c, d, e, f])
      == Next(setup, Next(setup, Next(setup, Next(setup, Next(setup, Next(setup, s, a), b), c), d), e), f)
  {
    hide Next;
    var steps := [a, b, c, d, e, f];
    assert steps[1..] == [b, c, d, e, f] && steps[2..] == [c, d, e, f] && steps[3..] == [d, e, f]
      && steps[4..] == [e, f];
    RunThenRun(setup, s, [a, b, c], [d, e, f]);
    assert [a, b, c] + [d, e, f] == steps;
    ThreeSteps(setup, s, a, b, c);
    ThreeSteps(setup, Run(setup, s, [a, b, c]), d, e, f);
  }

  lemma ThreeSteps(setup: Setup, s: Sys, a: Step, b: Step, c: Step)
    ensures Run(setup, s, [a, b, c]) == Next(setup, Next(setup, Next(setup, s, a), b), c)
  {
    hide Next;
    assert [a, b, c][1..] == [b, c] && [b, c][1..] == [c];
    OneStep(setup, Next(setup, Next(setup, s, a), b), c);
  }

  /** The instance with its one attempt in place. */
  function Instance(id: string, host: HostId, def: WorkflowDef, task: TaskDef, status: TaskStatus,
      version: nat): WorkflowInstance {
    NewInstance(id, host, def).(status := WorkflowStatus.Running, version := version, tasks := Only(task, status))
  }

  lemma TopIsReached(setup: Setup, task: TaskDef, id: string, host: HostId)
    requires OneTask(setup, task)
    ensures var s := NewSystem(id, host, setup.def);
      var t := AfterInitialise(setup, AfterBegin(AfterLoad(setup, s, s.loops)));
      t.loops == s.loops && t.phase == Top(t.snapshot)
        && t.snapshot == Instance(id, host, setup.def, task, TaskStatus.Pending, 3)
  {
    var s := NewSystem(id, host, setup.def);
    OneTaskRegistered(setup, task, id, host);
    Reduce1(s.snapshot, WorkflowStatusChanged(WorkflowStatus.Running));
    Initialised1(setup, task, s.snapshot.(status := WorkflowStatus.Running, version := 2));
  }

  lemma PassIsReached(setup: Setup, s: Sys, task: TaskDef, id: string, host: HostId)
    requires OneTask(setup, task) && s.loops.order == []
    requires s.snapshot == Instance(id, host, setup.def, task, TaskStatus.Pending, 3) && s.phase == Top(s.snapshot)
    ensures AfterPick(setup, AfterOpen(setup, s)) == s.(phase := Starting(s.snapshot, [AttemptId(task.id, 1)]))
  {
    OnlyIsRunnable(setup, task, s.loops);
    assert Openings(setup, s, s.snapshot) == [];
  }

  lemma StartIsReached(setup: Setup, s: Sys, task: TaskDef, id: string, host: HostId)
    requires OneTask(setup, task)
    requires s.snapshot == Instance(id, host, setup.def, task, TaskStatus.Pending, 3)
    requires s.phase == Starting(s.snapshot, [AttemptId(task.id, 1)])
    ensures var t := AfterStart(s);
      && t.phase == Waiting(t.snapshot, [AttemptId(task.id, 1)]) && t.loops == s.loops
      && t.snapshot == Instance(id, host, setup.def, task, TaskStatus.Running, 4)
      && Dispatching(setup, t.phase) && InputsAccepted(setup, t)
  {
    Reduce1(s.snapshot, TaskStatusChanged(AttemptId(task.id, 1), TaskStatus.Running));
  }

  /** The steps that lead from creation to the dispatch of the one attempt. */
  const ToDispatch := [Load(NoLoops), Begin, Initialise, Open, Pick, Start]

  /** From its creation such a workflow comes to dispatch its attempt, with inputs accepted, on a current snapshot. */
  lemma WaitingIsReached(setup: Setup, task: TaskDef, id: string, host: HostId)
    requires OneTask(setup, task)
    ensures var t := Run(setup, NewSystem(id, host, setup.def), ToDispatch);
      && Good(setup, t) && t.phase == Waiting(t.snapshot, [AttemptId(task.id, 1)]) && t.loops == NoLoops
      && t.snapshot == Instance(id, host, setup.def, task, TaskStatus.Running, 4)
      && Dispatching(setup, t.phase) && InputsAccepted(setup, t)
  {
    hide Good, Run, AfterLoad, AfterBegin, AfterInitialise, AfterOpen, AfterPick, AfterStart, InputsAccepted;
    var s := NewSystem(id, host, setup.def);
    OneTaskRegistered(setup, task, id, host);
    Reachable(setup, s, ToDispatch);
    SixSteps(setup, s, Load(NoLoops), Begin, Initialise, Open, Pick, Start);
    TopIsReached(setup, task, id, host);
    var top := AfterInitialise(setup, AfterBegin(AfterLoad(setup, s, NoLoops)));
    PassIsReached(setup, top, task, id, host);
    StartIsReached(setup, AfterPick(setup, AfterOpen(setup, top)), task, id, host);
  }

  /** Such a workflow is failed when its host is lost during the dispatch, and is then final. */
  lemma HostIsLost(setup: Setup, task: TaskDef, id: string, host: HostId, more: seq<Step>)
    requires OneTask(setup, task)
    ensures var t := Run(setup, NewSystem(id, host, setup.def), ToDispatch);
      && AfterLoseHost(t, host) != t && AfterLoseHost(t, host).snapshot.status.Failed?
      && Run(setup, AfterLoseHost(t, host), more).snapshot == AfterLoseHost(t, host).snapshot
  {
    hide Good, Run;
    WaitingIsReached(setup, task, id, host);
    var t := Run(setup, NewSystem(id, host, setup.def), ToDispatch);
    Reduce1(t.snapshot, WorkflowStatusChanged(WorkflowStatus.Failed));
    LostHostIsFinal(setup, t, host, more);
  }

  // ---------------------------------------------------------------------------
  // Results of a paused workflow

  /** The workflow is paused during the dispatch, and the answer is read on the paused snapshot. */
  lemma AnsweredWhilePaused(setup: Setup, t: Sys, answer: DispatchAnswer)
    requires Registered(setup.def) && Good(setup, t) && t.phase.Waiting? && MayRun(t.snapshot.status)
    requires Dispatching(setup, t.phase) && InputsAccepted(setup, t)
    ensures var q := Run(setup, t, [Pause, Answer(answer)]);
      && Good(setup, q) && q.loops == t.loops && q.phase == Recording(t.phase.base, t.phase.todo, q.snapshot, answer)
      && q.snapshot == t.snapshot.(status := Paused, version := t.snapshot.version + 1)
  {
    hide Good, Registered, Run, Next, InputsAccepted, AfterAnswer;
    PauseWrites(setup, t);
    var p := Run(setup, t, [Pause]);
    RunIsGood(setup, t, [Pause]);
    WaitingDispatch(setup, p);
    SameDispatch(setup, t, p, answer);
    AnswerReads(setup, p, answer);
    RunThenRun(setup, t, [Pause], [Answer(answer)]);
    OneStep(setup, p, Answer(answer));
    NextAnswer(setup, p, answer);
    assert [Pause] + [Answer(answer)] == [Pause, Answer(answer)];
    RunIsGood(setup, t, [Pause, Answer(answer)]);
  }

  /** A result without a verdict completes the only attempt, so all is done. */
  lemma OnlyTaskDone(setup: Setup, task: TaskDef, i: WorkflowInstance, r: ResolvedInputs, batch: ResultBatch)
    requires OneTask(setup, task) && i.verifierStates == map[] && i.tasks.Keys == {AttemptId(task.id, 1)}
    requires AcceptedBatch(setup.def, NoLoops, i, AttemptId(task.id, 1), r, batch) && batch.outcome.Proceed?
    requires KeysMatch(setup.def, Reduce(i, batch.events).value.tasks)
    ensures WorkflowAllCompleted(Reduce(i, batch.events).value, setup.def, NoLoops)
  {
    var j, id := Reduce(i, batch.events).value, AttemptId(task.id, 1);
    assert forall x :: x in j.tasks ==> x == id;
    LatestAttemptIsLatest(setup.def, j.tasks, task.id, false);
    assert id in Candidates(j.tasks, task.id, false);
    assert FinishedTask(j.tasks, task.id);
  }

  lemma OnlyTaskOf(setup: Setup, task: TaskDef, phase: Phase)
    requires OneTask(setup, task) && Dispatching(setup, phase) && phase.todo == [AttemptId(task.id, 1)]
    requires phase.base.tasks == Only(task, TaskStatus.Running)
    ensures TaskOf(setup, phase) == task
  {
  }

  lemma PlainSuccessGoesOn(valid: (Json, Json) -> bool, loops: Loops, i: WorkflowInstance, id: AttemptId, task: TaskDef)
    requires task.verifier.None? && !task.allowEarlyExit && task.effectiveOutputSchema.None?
    ensures PassGoesOn(valid, loops, i, id, task, DispatchAnswer.Success(JNull))
  {
  }

  /**
   A pause that is not kept although the pass would go on: the result of the only task arrives while the workflow
   is paused, and the pause boundary completes it.
   */
  lemma PausedWorkflowCompletes(setup: Setup, task: TaskDef, id: string, host: HostId)
    requires OneTask(setup, task) && !task.allowEarlyExit && task.effectiveOutputSchema.None?
    ensures var t := Run(setup, NewSystem(id, host, setup.def), ToDispatch);
      var answer := DispatchAnswer.Success(JNull);
      && PassGoesOn(setup.valid, t.loops, t.snapshot, AttemptId(task.id, 1), task, answer)
      && Run(setup, t, [Pause, Answer(answer)]).snapshot.status.Paused?
      && Run(setup, t, [Pause, Answer(answer), Record, Settle]).snapshot.status.Completed?
  {
    hide Good, Run, InputsAccepted, ResultEvents, ResultStep, Dispatching, BatchOf, TaskOf, WorkflowAllCompleted,
      AllDone, Reduce, PassGoesOn, NoStatus;
    var t, answer := Run(setup, NewSystem(id, host, setup.def), ToDispatch), DispatchAnswer.Success(JNull);
    OneTaskRegistered(setup, task, id, host);
    WaitingIsReached(setup, task, id, host);
    AnsweredWhilePaused(setup, t, answer);
    var q := Run(setup, t, [Pause, Answer(answer)]);
    PausedResultSettles(setup, q);
    ResultUnderPause(setup, q);
    OnlyTaskOf(setup, task, q.phase);
    PlainSuccessGoesOn(setup.valid, t.loops, t.snapshot, AttemptId(task.id, 1), task);
    OnlyTaskIsDone(setup, task, q);
    RunThenRun(setup, t, [Pause, Answer(answer)], [Record, Settle]);
    assert [Pause, Answer(answer)] + [Record, Settle] == [Pause, Answer(answer), Record, Settle];
  }

  lemma OnlyTaskIsDone(setup: Setup, task: TaskDef, q: Sys)
    requires OneTask(setup, task) && Registered(setup.def) && Good(setup, q) && q.phase.Recording? && q.loops == NoLoops
    requires q.phase.onto == q.snapshot && q.phase.todo == [AttemptId(task.id, 1)]
    requires q.snapshot.verifierStates == map[] && q.snapshot.tasks.Keys == {AttemptId(task.id, 1)}
    requires Dispatching(setup, q.phase) && BatchOf(setup, q, q.phase.answer).Batch?
    requires BatchOf(setup, q, q.phase.answer).outcome.Proceed?
    ensures Reduce(q.snapshot, BatchOf(setup, q, q.phase.answer).events).Success?
    ensures AllDone(setup.def, q.loops, Reduce(q.snapshot, BatchOf(setup, q, q.phase.answer).events).value)
  {
    hide Good, Registered, ResultEvents, ResultStep, WorkflowAllCompleted, AllDone;
    RecordingReady(setup, q);
    ResultKeys(setup, q);
    OnlyTaskDone(setup, task, q.snapshot, InputsOf(setup, q), BatchOf(setup, q, q.phase.answer));
    DoneExactlyWhen(setup.def, q.loops, Reduce(q.snapshot, BatchOf(setup, q, q.phase.answer).events).value);
  }

  /** And one that is overridden: the dispatch fails while the workflow is paused, and the workflow is Failed. */
  lemma PausedWorkflowFails(setup: Setup, task: TaskDef, id: string, host: HostId, reason: string)
    requires OneTask(setup, task)
    ensures var t := Run(setup, NewSystem(id, host, setup.def), ToDispatch);
      var answer := DispatchAnswer.Failure(reason);
      && Run(setup, t, [Pause, Answer(answer)]).snapshot.status.Paused?
      && Run(setup, t, [Pause, Answer(answer), Record]).snapshot.status.Failed?
  {
    hide Good, Run, InputsAccepted, Reduce;
    var t, answer := Run(setup, NewSystem(id, host, setup.def), ToDispatch), DispatchAnswer.Failure(reason);
    OneTaskRegistered(setup, task, id, host);
    WaitingIsReached(setup, task, id, host);
    AnsweredWhilePaused(setup, t, answer);
    var q := Run(setup, t, [Pause, Answer(answer)]);
    FailureLands(setup, q, reason);
    RunThenRun(setup, t, [Pause, Answer(answer)], [Record]);
    OneStep(setup, q, Record);
    NextRecord(setup, q);
    assert [Pause, Answer(answer)] + [Record] == [Pause, Answer(answer), Record];
  }

  lemma FailureLands(setup: Setup, q: Sys, reason: string)
    requires Registered(setup.def) && Good(setup, q) && q.phase.Recording? && q.phase.onto == q.snapshot
    requires q.phase.answer == DispatchAnswer.Failure(reason)
    ensures AfterRecord(setup, q).snapshot.status.Failed?
  {
    hide Good, Registered, ResultStep;
    RecordingReady(setup, q);
    var batch := BatchOf(setup, q, q.phase.answer);
    ResultBatchNotEmpty(setup.def, q.loops, q.snapshot, q.phase.todo[0], InputsOf(setup, q), batch);
    FailedStatus(setup.def, q.loops, q.snapshot, q.phase.todo[0], InputsOf(setup, q), batch);
  }

  lemma FailedStatus(def: WorkflowDef, loops: Loops, i: WorkflowInstance, id: AttemptId, r: ResolvedInputs,
      batch: ResultBatch)
    requires AcceptedBatch(def, loops, i, id, r, batch) && batch.outcome.StopError?
    ensures Reduce(i, batch.events).value.status.Failed?
  {
  }
}
