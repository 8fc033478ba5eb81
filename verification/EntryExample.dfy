/**
 A run from creation in which a task no binding ends at asks for human input, is given it, and fails: the trigger went
 to its first attempt, and the continuation has no input to meet its schema with.
 */
module EntryExample {
  import opened Prelude
  import opened JsonValues
  import opened AttemptIds
  import opened Model
  import opened Reducer
  import opened LoopSlices
  import opened Engine
  import opened EngineEffects
  import opened EngineInvariants
  import opened EngineSteps
  import opened WorkflowRuns
  import opened RunInvariants
  import opened RunSafety
  import opened RunHistory
  import opened RunExamples
  import EntryInputs
  import RequestFields
  import ResultFields

  /** A workflow of one plain task with one input schema, which the trigger meets. */
  ghost predicate OneEntry(setup: Setup, task: TaskDef, trigger: Json) {
    && setup.def.tasks == [task] && setup.def.dataBindings == [] && task.verifier.None?
    && |task.inputSchemas| == 1 && setup.valid(task.inputSchemas[0], trigger)
  }

  function Triggered(id: string, host: HostId, def: WorkflowDef, trigger: Json): Sys {
    var i := NewInstance(id, host, def).(triggerInput := Some(trigger));
    Sys([WorkflowCreated(i)], i.(version := 1), NoLoops, Idle)
  }

  lemma TriggeredIsCreated(setup: Setup, task: TaskDef, id: string, host: HostId, trigger: Json)
    requires OneEntry(setup, task, trigger)
    ensures Registered(setup.def) && LoopsOf(setup.def, NoLoops)
      && Created(setup, Triggered(id, host, setup.def, trigger))
  {
    assert EdgesOf(setup.def) == {};
    assert VerifierIds(setup.def) == {};
    forall p, x | |p| >= 2 ensures !PathFromTo(EdgesOf(setup.def), p, x, x) {
      assert (p[0], p[1]) !in EdgesOf(setup.def);
    }
  }

  /** The engine takes the instance up and sets it Running. */
  lemma Begins(setup: Setup, s: Sys)
    requires LoopsOf(setup.def, NoLoops) && s.phase.Idle? && s.snapshot.status.Pending? && s.loops == NoLoops
    ensures var t := AfterBegin(AfterLoad(setup, s, NoLoops));
      && t.phase == Ready(t.snapshot) && t.loops == NoLoops
      && t.snapshot == s.snapshot.(status := WorkflowStatus.Running, version := s.snapshot.version + 1)
  {
    Reduce1(s.snapshot, WorkflowStatusChanged(WorkflowStatus.Running));
  }

  /** With one runnable attempt and no loops, the pass starts it. */
  lemma StartsTheOne(setup: Setup, s: Sys, id: AttemptId)
    requires s.phase == Top(s.snapshot) && s.loops == NoLoops && s.snapshot.status.Running?
    requires id in s.snapshot.tasks && RunnableIds(s.snapshot.tasks, setup.def, NoLoops) == {id}
    ensures var t := AfterStart(AfterPick(setup, AfterOpen(setup, s)));
      && t.phase == Waiting(t.snapshot, [id]) && t.loops == NoLoops
      && t.snapshot == s.snapshot.(version := s.snapshot.version + 1,
           tasks := s.snapshot.tasks[id := s.snapshot.tasks[id].(status := TaskStatus.Running)])
  {
    hide Runnable;
    assert Openings(setup, s, s.snapshot) == [];
    SortedOne(id);
    assert s.snapshot.tasks[id].status.Pending? by {
      assert id in RunnableIds(s.snapshot.tasks, setup.def, NoLoops);
      assert Runnable(s.snapshot.tasks, setup.def, NoLoops, id);
      PendingIfRunnable(s.snapshot.tasks, setup.def, id);
    }
    Reduce1(s.snapshot, TaskStatusChanged(id, TaskStatus.Running));
  }

  lemma PendingIfRunnable(tasks: Tasks, def: WorkflowDef, id: AttemptId)
    requires Runnable(tasks, def, NoLoops, id)
    ensures id in tasks && tasks[id].status.Pending?
  {
  }

  lemma SortedOne(id: AttemptId)
    ensures SortIds({id}) == [id]
  {
    var sorted := SortIds({id});
    assert id in sorted && forall k :: 0 <= k < |sorted| ==> sorted[k] in sorted && sorted[k] == id;
  }

  /** The attempts after the first commit, and after the first one has asked. */
  function Entered(task: TaskDef, trigger: Json, status: TaskStatus): Tasks {
    map[AttemptId(task.id, 1) := TaskInstance(
      task.id, status, Satisfaction.Pending, false, None, [trigger], [], None, 1, None)]
  }

  function Continuation(task: TaskDef, status: TaskStatus, input: Json): TaskInstance {
    TaskInstance(task.id, status, Satisfaction.Pending, false, Some(input), [], [], None, 2, None)
  }

  lemma EntersWithTrigger(setup: Setup, task: TaskDef, base: WorkflowInstance, trigger: Json)
    requires OneEntry(setup, task, trigger) && base.tasks == map[] && base.triggerInput == Some(trigger)
    ensures Reduce(base, InitialTaskEvents(base, setup.def, setup.def.tasks))
      == Result.Success(base.(tasks := Entered(task, trigger, TaskStatus.Pending)))
    ensures |InitialTaskEvents(base, setup.def, setup.def.tasks)| == 1
  {
    var event := TaskMaterialized(AttemptId(task.id, 1), FreshTask(task.id, 1, None, [trigger]));
    assert setup.def.tasks[1..] == [];
    assert InitialTaskEvents(base, setup.def, setup.def.tasks) == [event] + InitialTaskEvents(base, setup.def, []);
    assert InitialTaskEvents(base, setup.def, setup.def.tasks) == [event];
    Reduce1(base, event);
  }

  lemma OnlyRunnable(setup: Setup, tasks: Tasks, id: AttemptId)
    requires setup.def.dataBindings == [] && id in tasks && tasks[id].status.Pending?
    requires forall x :: x in tasks && x != id ==> !tasks[x].status.Pending?
    ensures RunnableIds(tasks, setup.def, NoLoops) == {id}
  {
    assert Inbound(setup.def.dataBindings, tasks[id].taskDefId) == [];
    assert Runnable(tasks, setup.def, NoLoops, id);
  }

  /** The first round: the attempt that holds the trigger is dispatched. */
  lemma FirstRound(setup: Setup, task: TaskDef, id: string, host: HostId, trigger: Json)
    requires OneEntry(setup, task, trigger)
    ensures var s := Triggered(id, host, setup.def, trigger);
      var t := Run(setup, s, ToDispatch);
      && t.phase == Waiting(t.snapshot, [AttemptId(task.id, 1)]) && t.loops == NoLoops
      && t.snapshot == s.snapshot.(status := WorkflowStatus.Running, version := 4,
           tasks := Entered(task, trigger, TaskStatus.Running))
  {
    hide Run, AfterLoad, AfterBegin, AfterOpen, AfterPick, AfterStart, Registered, Created;
    var s := Triggered(id, host, setup.def, trigger);
    TriggeredIsCreated(setup, task, id, host, trigger);
    SixSteps(setup, s, Load(NoLoops), Begin, Initialise, Open, Pick, Start);
    Begins(setup, s);
    var begun := AfterBegin(AfterLoad(setup, s, NoLoops));
    EntersWithTrigger(setup, task, begun.snapshot, trigger);
    var top := AfterInitialise(setup, begun);
    OnlyRunnable(setup, top.snapshot.tasks, AttemptId(task.id, 1));
    StartsTheOne(setup, top, AttemptId(task.id, 1));
  }

  /** The attempt asks for input, and the engine leaves. */
  lemma Asks(setup: Setup, t: Sys, task: TaskDef, trigger: Json, question: string)
    requires OneEntry(setup, task, trigger) && t.loops == NoLoops
    requires t.phase == Waiting(t.snapshot, [AttemptId(task.id, 1)]) && t.snapshot.status.Running?
    requires t.snapshot.tasks == Entered(task, trigger, TaskStatus.Running)
    ensures var u := AfterRecord(setup, AfterAnswer(setup, t, DispatchAnswer.InputNeeded(question)));
      && u.phase.Idle? && u.loops == NoLoops
      && u.snapshot == t.snapshot.(status := WorkflowStatus.InputNeeded, version := u.snapshot.version,
           tasks := Entered(task, trigger, TaskStatus.InputNeeded(question)))
  {
    hide Reduce, InputEvents;
    var id, answer := AttemptId(task.id, 1), DispatchAnswer.InputNeeded(question);
    assert Dispatching(setup, t.phase) && TaskOf(setup, t.phase) == task;
    assert Inbound(setup.def.dataBindings, task.id) == [];
    assert InputsOf(setup, t) == ResolvedInputs([trigger], []);
    assert InputsAccepted(setup, t);
    ResultFields.NoSuccess(setup.valid, setup.def, NoLoops, t.snapshot, id, task, ResolvedInputs([trigger], []),
      answer);
  }

  /** The human answers: the continuation is there, and holds no input. */
  lemma Submits(setup: Setup, u: Sys, task: TaskDef, trigger: Json, question: string, input: Json)
    requires OneEntry(setup, task, trigger) && u.snapshot.status.InputNeeded?
    requires u.snapshot.tasks == Entered(task, trigger, TaskStatus.InputNeeded(question))
    ensures var s, next := AfterSubmitInput(u, AttemptId(task.id, 1), input), AttemptId(task.id, 2);
      && s.phase == u.phase && s.loops == u.loops && s.snapshot.status.Pending?
      && s.snapshot.tasks == u.snapshot.tasks[next := Continuation(task, TaskStatus.Pending, input)]
  {
    hide AfterSubmitInput, Store;
    assert task.id in TaskIds(setup.def) by { assert setup.def.tasks[0].id == task.id; }
    RequestFields.ContinuedExactlyWhen(setup, u, AttemptId(task.id, 1), input);
  }

  /** The engine takes the instance up again and starts its one pending attempt. */
  lemma RunsAgain(setup: Setup, s: Sys, next: AttemptId)
    requires setup.def.dataBindings == [] && LoopsOf(setup.def, NoLoops) && s.loops == NoLoops && s.phase.Idle?
    requires s.snapshot.status.Pending? && next in s.snapshot.tasks && s.snapshot.tasks[next].status.Pending?
    requires forall x :: x in s.snapshot.tasks && x != next ==> !s.snapshot.tasks[x].status.Pending?
    ensures var t := Run(setup, s, ToDispatch);
      && t.phase == Waiting(t.snapshot, [next]) && t.snapshot.status.Running?
      && t.snapshot.tasks == s.snapshot.tasks[next := s.snapshot.tasks[next].(status := TaskStatus.Running)]
  {
    hide Run, AfterLoad, AfterBegin, AfterOpen, AfterPick, AfterStart, Store, Runnable;
    SixSteps(setup, s, Load(NoLoops), Begin, Initialise, Open, Pick, Start);
    Begins(setup, s);
    var top := AfterInitialise(setup, AfterBegin(AfterLoad(setup, s, NoLoops)));
    OnlyRunnable(setup, top.snapshot.tasks, next);
    StartsTheOne(setup, top, next);
  }

  /** The second round: the continuation is to be dispatched. */
  lemma SecondRound(setup: Setup, u: Sys, task: TaskDef, trigger: Json, question: string, input: Json)
    requires OneEntry(setup, task, trigger) && LoopsOf(setup.def, NoLoops) && u.loops == NoLoops && u.phase.Idle?
    requires u.snapshot.status.InputNeeded?
      && u.snapshot.tasks == Entered(task, trigger, TaskStatus.InputNeeded(question))
    ensures var t := Run(setup, AfterSubmitInput(u, AttemptId(task.id, 1), input), ToDispatch);
      && t.phase == Waiting(t.snapshot, [AttemptId(task.id, 2)]) && t.snapshot.status.Running?
      && t.snapshot.tasks == u.snapshot.tasks[AttemptId(task.id, 2) := Continuation(task, TaskStatus.Running, input)]
  {
    hide Run, AfterSubmitInput, ToDispatch;
    Submits(setup, u, task, trigger, question, input);
    RunsAgain(setup, AfterSubmitInput(u, AttemptId(task.id, 1), input), AttemptId(task.id, 2));
  }

  /**
   From its creation such a workflow runs to where it is about to dispatch the continuation, and fails there: whatever
   the human has answered, the attempt never reaches a worker.
   */
  lemma ContinuationOfEntryFails(setup: Setup, task: TaskDef, id: string, host: HostId, trigger: Json, question: string,
      input: Json)
    requires OneEntry(setup, task, trigger)
    ensures var s := Triggered(id, host, setup.def, trigger);
      var steps := ToDispatch + [Answer(DispatchAnswer.InputNeeded(question)), Record,
        SubmitInput(AttemptId(task.id, 1), input)] + ToDispatch;
      var t := Run(setup, s, steps);
      && Created(setup, s) && EntryInputs.Dispatches(setup, t, task, AttemptId(task.id, 2))
      && t.snapshot.status.Running? && AttemptId(task.id, 2) in t.snapshot.tasks
      && t.snapshot.tasks[AttemptId(task.id, 2)].humanInput == Some(input)
      && Next(setup, t, Reject).snapshot.status.Failed?
      && forall answer :: Next(setup, t, Answer(answer)) == t
  {
    hide Run, Registered, Created, Next, ToDispatch;
    var s, first := Triggered(id, host, setup.def, trigger), AttemptId(task.id, 1);
    var asked := [Answer(DispatchAnswer.InputNeeded(question)), Record, SubmitInput(first, input)];
    TriggeredIsCreated(setup, task, id, host, trigger);
    FirstRound(setup, task, id, host, trigger);
    var a := Run(setup, s, ToDispatch);
    Asks(setup, a, task, trigger, question);
    RunThenRun(setup, s, ToDispatch, asked);
    AskedSteps(setup, a, question, first, input);
    var u := AfterRecord(setup, AfterAnswer(setup, a, DispatchAnswer.InputNeeded(question)));
    SecondRound(setup, u, task, trigger, question, input);
    RunThenRun(setup, s, ToDispatch + asked, ToDispatch);
    var t := Run(setup, s, ToDispatch + asked + ToDispatch);
    assert t.phase.base.tasks[AttemptId(task.id, 2)] == Continuation(task, TaskStatus.Running, input);
    assert Dispatching(setup, t.phase) && TaskOf(setup, t.phase) == task;
    EntryInputs.LaterEntryAttemptFails(setup, s, ToDispatch + asked + ToDispatch, task, AttemptId(task.id, 2));
  }

  lemma AskedSteps(setup: Setup, a: Sys, question: string, id: AttemptId, input: Json)
    ensures Run(setup, a, [Answer(DispatchAnswer.InputNeeded(question)), Record, SubmitInput(id, input)])
      == AfterSubmitInput(AfterRecord(setup, AfterAnswer(setup, a, DispatchAnswer.InputNeeded(question))), id, input)
  {
    hide AfterSubmitInput, AfterRecord, AfterAnswer;
    ThreeSteps(setup, a, Answer(DispatchAnswer.InputNeeded(question)), Record, SubmitInput(id, input));
  }
}
