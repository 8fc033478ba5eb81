/**
 Who is given the trigger input, and when an attempt is refused for its inputs. A task no binding ends at receives
 the trigger with its first attempt and with no other, so that its later attempts have nothing to run with.
 */
module EntryInputs {
  import opened Prelude
  import opened JsonValues
  import opened AttemptIds
  import opened Model
  import opened Reducer
  import opened LoopSlices
  import opened Engine
  import opened EngineEffects
  import opened EngineInvariants
  import opened EngineSteps
  import opened OpeningAndRecovery
  import opened WorkflowRuns
  import opened RunInvariants
  import opened RunSafety
  import opened RunHistory
  import opened RunAttempts
  import RunInputs

  predicate IsEntry(def: WorkflowDef, t: TaskId) {
    forall b :: b in def.dataBindings ==> b.target != t
  }

  /** The trigger, for an entry task that takes input at all. */
  function StartInput(def: WorkflowDef, trigger: Option<Json>, t: TaskId): seq<Json> {
    if trigger.Some? && IsEntry(def, t) && exists task :: task in def.tasks && task.id == t && task.inputSchemas != []
    then [trigger.value] else []
  }

  lemma EntryHasNoInbound(def: WorkflowDef, t: TaskId)
    ensures IsEntry(def, t) <==> Inbound(def.dataBindings, t) == []
  {
    InboundMembers(def.dataBindings, t);
    if Inbound(def.dataBindings, t) != [] { assert Inbound(def.dataBindings, t)[0] in def.dataBindings; }
  }

  // ---------------------------------------------------------------------------
  // The first commit

  /** A pending first attempt with this input and nothing else. */
  function FirstAttempt(def: WorkflowDef, trigger: Option<Json>, t: TaskId): TaskInstance {
    TaskInstance(t, TaskStatus.Pending, Satisfaction.Pending, false, None, StartInput(def, trigger, t), [], None, 1,
      None)
  }

  ghost predicate OnlyFirst(def: WorkflowDef, trigger: Option<Json>, tasks: Tasks) {
    forall x :: x in tasks ==> x.generation == 1 && tasks[x] == FirstAttempt(def, trigger, x.taskDefId)
  }

  lemma StartsAsPlanned(i: WorkflowInstance, def: WorkflowDef, task: TaskDef)
    requires UniqueIds(def) && task in def.tasks
    ensures FreshTask(task.id, 1, None, InitialInput(i, def, task)) == FirstAttempt(def, i.triggerInput, task.id)
  {
    EntryHasNoInbound(def, task.id);
    FindUnique(def.tasks, task);
    forall other | other in def.tasks && other.id == task.id ensures other == task { FindUnique(def.tasks, other); }
  }

  lemma {:induction false} FirstAttempts(i: WorkflowInstance, def: WorkflowDef, tasks: seq<TaskDef>,
      at: WorkflowInstance)
    requires UniqueIds(def) && forall t :: t in tasks ==> t in def.tasks
    requires OnlyFirst(def, i.triggerInput, at.tasks) && Reduce(at, InitialTaskEvents(i, def, tasks)).Success?
    ensures OnlyFirst(def, i.triggerInput, Reduce(at, InitialTaskEvents(i, def, tasks)).value.tasks)
    decreases |tasks|
  {
    hide StartInput, InitialInput, UniqueIds;
    if tasks != [] {
      var id := AttemptId(tasks[0].id, 1);
      StartsAsPlanned(i, def, tasks[0]);
      var event := TaskMaterialized(id, FreshTask(tasks[0].id, 1, None, InitialInput(i, def, tasks[0])));
      assert InitialTaskEvents(i, def, tasks)[1..] == InitialTaskEvents(i, def, tasks[1..]);
      FirstAttempts(i, def, tasks[1..], ApplyEvent(at, event).value);
    }
  }

  /**
   The first commit gives every task of the definition its first attempt and makes no other. Such an attempt holds the
   trigger exactly if there is one, the task takes input, and no binding ends at it; it holds nothing else.
   */
  lemma TriggerGoesToEntries(def: WorkflowDef, i: WorkflowInstance, id: AttemptId)
    requires UniqueIds(def) && i.tasks == map[]
    ensures Reduce(i, InitialTaskEvents(i, def, def.tasks)).Success?
    ensures var j := Reduce(i, InitialTaskEvents(i, def, def.tasks)).value;
      && j == i.(tasks := j.tasks)
      && (id in j.tasks <==> id.generation == 1 && exists task :: task in def.tasks && task.id == id.taskDefId)
      && (forall task :: task in def.tasks && id == AttemptId(task.id, 1) ==>
            id in j.tasks
            && j.tasks[id] == TaskInstance(task.id, TaskStatus.Pending, Satisfaction.Pending, false, None,
                                           j.tasks[id].inputData, [], None, 1, None)
            && (if i.triggerInput.Some? && task.inputSchemas != []
                   && forall b :: b in def.dataBindings ==> b.target != task.id
                then j.tasks[id].inputData == [i.triggerInput.value] else j.tasks[id].inputData == []))
  {
    assert forall t :: t in def.tasks ==> t.id in TaskIds(def);
    InitialEventsReduce(i, def, def.tasks, i);
    FirstAttempts(i, def, def.tasks, i);
    forall a, b | a in def.tasks && b in def.tasks && a.id == b.id ensures a == b {
      FindUnique(def.tasks, a);
      FindUnique(def.tasks, b);
    }
  }

  // ---------------------------------------------------------------------------
  // Runs

  /** The attempts of entry tasks: the first holds the trigger, the others nothing. */
  ghost predicate EntriesHold(def: WorkflowDef, trigger: Option<Json>, tasks: Tasks) {
    forall x :: x in tasks && IsEntry(def, x.taskDefId) ==>
      && tasks[x].inputMapping == []
      && tasks[x].inputData == if x.generation == 1 then StartInput(def, trigger, x.taskDefId) else []
  }

  /** Attempts keep their inputs, and new ones of entry tasks are continuations without any. */
  ghost predicate KeepsEntries(def: WorkflowDef, before: Tasks, after: Tasks) {
    forall x :: x in after && IsEntry(def, x.taskDefId) ==>
      if x in before then after[x].inputData == before[x].inputData && after[x].inputMapping == before[x].inputMapping
      else x.generation >= 2 && after[x].inputData == [] && after[x].inputMapping == []
  }

  lemma KeptEntriesHold(def: WorkflowDef, trigger: Option<Json>, before: Tasks, after: Tasks)
    requires EntriesHold(def, trigger, before) && KeepsEntries(def, before, after)
    ensures EntriesHold(def, trigger, after)
  {
    hide StartInput, IsEntry;
  }

  /** What an entry task is handed at a dispatch is what its attempt holds. */
  lemma EntryDispatchInputs(def: WorkflowDef, loops: Loops, tasks: Tasks, id: AttemptId)
    requires KeysMatch(def, tasks) && id in tasks && IsEntry(def, id.taskDefId) && tasks[id].inputMapping == []
    ensures DispatchInputs(tasks, def, loops, id) == ResolvedInputs(tasks[id].inputData, [])
  {
    EntryHasNoInbound(def, id.taskDefId);
  }

  lemma ResultKeepsEntries(def: WorkflowDef, loops: Loops, i: WorkflowInstance, id: AttemptId, r: ResolvedInputs,
      j: WorkflowInstance)
    requires ResultStep(def, loops, i, id, r, j) && KeysMatch(def, i.tasks)
    requires IsEntry(def, id.taskDefId) ==> r.values == i.tasks[id].inputData && r.mapping == i.tasks[id].inputMapping
    ensures KeepsEntries(def, i.tasks, j.tasks)
  {
    hide IsEntry, SkipsAllOrNone, StatesStay, SatisfiedBy, JudgesOwn, WholeGeneration, SliceInterruptedByExit;
  }

  lemma SameEntries(def: WorkflowDef, before: Tasks, after: Tasks)
    requires after.Keys <= before.Keys
    requires forall x :: x in after ==>
      after[x].inputData == before[x].inputData && after[x].inputMapping == before[x].inputMapping
    ensures KeepsEntries(def, before, after)
  {
    hide IsEntry;
  }

  lemma StoreTrigger(s: Sys, base: WorkflowInstance, events: seq<Event>)
    requires Store(s, base, events).Some? && base.triggerInput == s.snapshot.triggerInput
    ensures Store(s, base, events).value.snapshot.triggerInput == s.snapshot.triggerInput
  {
    ChangedIdsFrame(base, events);
  }

  lemma InitialEntries(setup: Setup, s: Sys)
    requires UniqueIds(setup.def) && EntriesHold(setup.def, s.snapshot.triggerInput, s.snapshot.tasks)
    requires s.phase.Ready? ==> Quiet(s.phase.base, s.snapshot)
    ensures EntriesHold(setup.def, s.snapshot.triggerInput, AfterInitialise(setup, s).snapshot.tasks)
  {
    hide StartInput, IsEntry, Quiet, UniqueIds;
    if s.phase.Ready? && s.phase.base.tasks == map[] && setup.def.tasks != [] {
      var events := InitialTaskEvents(s.phase.base, setup.def, setup.def.tasks);
      if Store(s, s.phase.base, events).Some? {
        CurrentBase(s, s.phase.base, events);
        StoreTasks(s, s.phase.base, events);
        FirstAttempts(s.snapshot, setup.def, setup.def.tasks, s.snapshot);
      }
    }
  }

  lemma StartEntries(setup: Setup, s: Sys)
    requires s.phase.Starting?
      ==> Quiet(s.phase.base, s.snapshot) && s.phase.todo != [] && s.phase.todo[0] in s.phase.base.tasks
    ensures KeepsEntries(setup.def, s.snapshot.tasks, AfterStart(s).snapshot.tasks)
  {
    hide KeepsEntries;
    if s.phase.Starting? && s.phase.todo != [] {
      var events := [TaskStatusChanged(s.phase.todo[0], TaskStatus.Running)];
      if Store(s, s.phase.base, events).Some? {
        CurrentBase(s, s.phase.base, events);
        Reduce1(s.snapshot, events[0]);
      }
    }
    SameEntries(setup.def, s.snapshot.tasks, AfterStart(s).snapshot.tasks);
  }

  /** The inputs of the attempt being dispatched, if it belongs to an entry task, are those it holds. */
  lemma DispatchedEntry(setup: Setup, s: Sys)
    requires Good(setup, s) && Dispatching(setup, s.phase)
      && EntriesHold(setup.def, s.snapshot.triggerInput, s.snapshot.tasks)
    ensures var id := s.phase.todo[0];
      && s.phase.base.tasks == s.snapshot.tasks
      && (IsEntry(setup.def, id.taskDefId) ==>
            InputsOf(setup, s) == ResolvedInputs(s.snapshot.tasks[id].inputData, s.snapshot.tasks[id].inputMapping))
  {
    hide IsEntry, StartInput;
    GoodBasics(setup, s);
    assert s.phase.base.tasks == s.snapshot.tasks by { assert Quiet(s.phase.base, s.snapshot); }
    var id := s.phase.todo[0];
    if IsEntry(setup.def, id.taskDefId) {
      EntryDispatchInputs(setup.def, s.loops, s.snapshot.tasks, id);
    }
  }

  lemma RejectEntries(setup: Setup, s: Sys)
    requires Good(setup, s) && EntriesHold(setup.def, s.snapshot.triggerInput, s.snapshot.tasks)
    ensures KeepsEntries(setup.def, s.snapshot.tasks, AfterReject(setup, s).snapshot.tasks)
  {
    hide KeepsEntries, EntriesHold, Good, Reduce, InputsAccepted, IsEntry, DispatchInputs, ResultStep, KeysMatch;
    if s.phase.Waiting? && Dispatching(setup, s.phase) && !InputsAccepted(setup, s) {
      var id, r := s.phase.todo[0], InputsOf(setup, s);
      var events := InputEvents(id, r) + FailTask(id) + FailWorkflow;
      if Store(s, s.phase.base, events).Some? {
        WaitingBase(setup, s);
        CurrentBase(s, s.phase.base, events);
        DispatchedEntry(setup, s);
        GoodBasics(setup, s);
        FailureAccepted(setup.def, s.loops, s.snapshot, id, r);
        ResultKeepsEntries(setup.def, s.loops, s.snapshot, id, r, Reduce(s.snapshot, events).value);
        StoreTasks(s, s.snapshot, events);
      }
    }
    if AfterReject(setup, s).snapshot.tasks == s.snapshot.tasks {
      SameEntries(setup.def, s.snapshot.tasks, s.snapshot.tasks);
    }
  }

  lemma WaitingBase(setup: Setup, s: Sys)
    requires Good(setup, s)
    ensures s.phase.Waiting? || s.phase.Recording? ==> Quiet(s.phase.base, s.snapshot)
    ensures s.phase.Recording? ==> Quiet(s.phase.onto, s.snapshot)
  {
  }

  lemma RecordEntries(setup: Setup, s: Sys)
    requires LoopShape(setup.def, s.loops) && Good(setup, s)
    requires EntriesHold(setup.def, s.snapshot.triggerInput, s.snapshot.tasks)
    ensures KeepsEntries(setup.def, s.snapshot.tasks, AfterRecord(setup, s).snapshot.tasks)
  {
    hide KeepsEntries, EntriesHold, Reduce, IsEntry, DispatchInputs, ResultStep, KeysMatch, ResultEvents, Inv,
      LoopShape, Replayed, LoopsOf, WorkflowAllCompleted;
    SameEntries(setup.def, s.snapshot.tasks, s.snapshot.tasks);
    if s.phase.Recording? && Dispatching(setup, s.phase) {
      var id, r, onto := s.phase.todo[0], InputsOf(setup, s), s.phase.onto;
      var batch := BatchOf(setup, s, s.phase.answer);
      RecordStores(setup, s, s.phase.base, s.phase.todo, onto, TaskOf(setup, s.phase), s.phase.answer);
      if Store(s, onto, batch.events).Some? {
        CurrentBase(s, onto, batch.events);
        DispatchedEntry(setup, s);
        GoodBasics(setup, s);
        ResultKeepsEntries(setup.def, s.loops, s.snapshot, id, r, Reduce(s.snapshot, batch.events).value);
        StoreTasks(s, s.snapshot, batch.events);
      }
    }
  }

  lemma EngineEntries(setup: Setup, s: Sys, step: Step)
    requires Registered(setup.def) && Good(setup, s) && IsEngineStep(step)
    requires EntriesHold(setup.def, s.snapshot.triggerInput, s.snapshot.tasks)
    ensures EntriesHold(setup.def, s.snapshot.triggerInput, Next(setup, s, step).snapshot.tasks)
  {
    hide Registered, Inv, Replayed, LoopsOf, WorkflowAllCompleted, EntriesHold, KeepsEntries, AfterInitialise,
      AfterReject, AfterRecord, AfterStart, AfterBegin, AfterOpen, AfterPick, AfterSettle, LoopShape;
    RegisteredSlices(setup.def, s.loops);
    var after := Next(setup, s, step).snapshot.tasks;
    if step.Initialise? {
      InitialEntries(setup, s);
    } else {
      if step.Start? {
        StartEntries(setup, s);
      } else if step.Reject? {
        RejectEntries(setup, s);
      } else if step.Record? {
        RecordEntries(setup, s);
      } else {
        MostKeepTasks(setup, s, step);
        SameEntries(setup.def, s.snapshot.tasks, after);
      }
      KeptEntriesHold(setup.def, s.snapshot.triggerInput, s.snapshot.tasks, after);
    }
  }

  lemma WrittenEntries(def: WorkflowDef, s: Sys, guard: bool, event: Event)
    requires event.WorkflowStatusChanged? || event.TaskRetryRequested? || event.TaskForceRetryRequested?
      || event.StartupRecoveryApplied?
    ensures KeepsEntries(def, s.snapshot.tasks, Written(s, guard, event).snapshot.tasks)
  {
    hide KeepsEntries, IsEntry, RecoverAttempts;
    Reduce1(s.snapshot, event);
    if event.StartupRecoveryApplied? && RecoverAttempts(s.snapshot.tasks, event.ids).Success? {
      RecoverAttemptsFrame(s.snapshot.tasks, event.ids);
    }
    SameEntries(def, s.snapshot.tasks, Written(s, guard, event).snapshot.tasks);
  }

  lemma InputEntries(def: WorkflowDef, s: Sys, id: AttemptId, input: Json)
    requires KeysMatch(def, s.snapshot.tasks)
    ensures KeepsEntries(def, s.snapshot.tasks, AfterSubmitInput(s, id, input).snapshot.tasks)
  {
    hide IsEntry;
    if id in s.snapshot.tasks {
      var next := AttemptId(s.snapshot.tasks[id].taskDefId, s.snapshot.tasks[id].generationIndex + 1);
      Reduce1(s.snapshot, HumanInputSubmitted(id, next, input));
    }
  }

  lemma OthersEntries(setup: Setup, s: Sys, step: Step)
    requires KeysMatch(setup.def, s.snapshot.tasks) && !IsEngineStep(step)
    ensures KeepsEntries(setup.def, s.snapshot.tasks, Next(setup, s, step).snapshot.tasks)
  {
    hide KeepsEntries, Store, KeysMatch;
    var i := s.snapshot;
    match step {
      case Pause => WrittenEntries(setup.def, s, MayRun(i.status), WorkflowStatusChanged(Paused));
      case Resume => WrittenEntries(setup.def, s, i.status.Paused?, WorkflowStatusChanged(WorkflowStatus.Pending));
      case LoseHost(host) =>
        WrittenEntries(setup.def, s, !i.status.Completed? && !i.status.Failed? && i.pinnedWorkerHost == Some(host),
          WorkflowStatusChanged(WorkflowStatus.Failed));
      case SubmitInput(id, input) => InputEntries(setup.def, s, id, input);
      case Retry(id) => WrittenEntries(setup.def, s, Retryable(i, id), TaskRetryRequested(id));
      case ForceRetry(id, target) =>
        var pin := i.pinnedWorkerHost;
        WrittenEntries(setup.def, s, Retryable(i, id), TaskForceRetryRequested(id, pin, target, pin != Some(target)));
      case Recover(ids) =>
        WrittenEntries(setup.def, s, s.phase.Idle? && MayRun(i.status) && Distinct(ids)
          && (set x | x in ids) == RunningIds(i.tasks) && (i.status.Running? || ids != []),
          StartupRecoveryApplied(ids));
    }
  }

  /** Nobody changes the trigger of an instance. */
  lemma TriggerStays(setup: Setup, s: Sys, step: Step)
    requires PhaseOk(setup, s)
    ensures Next(setup, s, step).snapshot.triggerInput == s.snapshot.triggerInput
  {
    hide Reduce, Store, Openings, BatchOf, InputsAccepted, Untried, Plan, RunnableIds, InitialTaskEvents, InputsOf,
      WorkflowAllCompleted;
    forall base: WorkflowInstance, events: seq<Event> |
      base.triggerInput == s.snapshot.triggerInput && Store(s, base, events).Some?
      ensures Store(s, base, events).value.snapshot.triggerInput == s.snapshot.triggerInput
    {
      StoreTrigger(s, base, events);
    }
  }

  lemma {:induction false} EntriesOverRun(setup: Setup, s: Sys, steps: seq<Step>)
    requires Registered(setup.def) && Good(setup, s)
    requires EntriesHold(setup.def, s.snapshot.triggerInput, s.snapshot.tasks)
    ensures var t := Run(setup, s, steps);
      && Good(setup, t) && t.snapshot.triggerInput == s.snapshot.triggerInput
      && EntriesHold(setup.def, s.snapshot.triggerInput, t.snapshot.tasks)
    decreases |steps|
  {
    if steps != [] {
      StepIsGood(setup, s, steps[0]);
      TriggerStays(setup, s, steps[0]);
      GoodBasics(setup, s);
      hide Good, Registered, EntriesHold, KeepsEntries, Next;
      var t := Next(setup, s, steps[0]);
      if IsEngineStep(steps[0]) {
        EngineEntries(setup, s, steps[0]);
      } else {
        OthersEntries(setup, s, steps[0]);
        KeptEntriesHold(setup.def, s.snapshot.triggerInput, s.snapshot.tasks, t.snapshot.tasks);
      }
      EntriesOverRun(setup, t, steps[1..]);
    }
  }

  lemma CreatedEntries(setup: Setup, s: Sys)
    requires Created(setup, s)
    ensures EntriesHold(setup.def, s.snapshot.triggerInput, s.snapshot.tasks)
  {
  }

  lemma StartInputOf(def: WorkflowDef, trigger: Option<Json>, task: TaskDef)
    requires UniqueIds(def) && task in def.tasks && IsEntry(def, task.id)
    ensures StartInput(def, trigger, task.id) ==
      if trigger.Some? && task.inputSchemas != [] then [trigger.value] else []
  {
    forall other | other in def.tasks && other.id == task.id ensures other == task {
      FindUnique(def.tasks, task);
      FindUnique(def.tasks, other);
    }
  }

  /**
   Over every run, human input included: the first attempt of a task no binding ends at holds the trigger, if there is
   one and the task takes input; every later attempt of it holds nothing.
   */
  lemma EntryAttemptsHold(setup: Setup, s: Sys, steps: seq<Step>, task: TaskDef, id: AttemptId)
    requires Registered(setup.def) && Created(setup, s)
    requires task in setup.def.tasks && id.taskDefId == task.id && id in Run(setup, s, steps).snapshot.tasks
    requires forall b :: b in setup.def.dataBindings ==> b.target != task.id
    ensures var attempt, trigger := Run(setup, s, steps).snapshot.tasks[id], s.snapshot.triggerInput;
      && attempt.inputMapping == []
      && attempt.inputData ==
           if id.generation == 1 && trigger.Some? && task.inputSchemas != [] then [trigger.value] else []
  {
    hide StartInput, Registered, Created;
    CreatedIsGood(setup, s);
    CreatedEntries(setup, s);
    EntriesOverRun(setup, s, steps);
    UniqueWhenRegistered(setup.def);
    StartInputOf(setup.def, s.snapshot.triggerInput, task);
  }

  /** The engine has started this attempt and is about to dispatch it. */
  ghost predicate Dispatches(setup: Setup, t: Sys, task: TaskDef, id: AttemptId) {
    t.phase.Waiting? && Dispatching(setup, t.phase) && id == t.phase.todo[0] && task == TaskOf(setup, t.phase)
  }

  /**
   Over every run an entry task is handed exactly that at a dispatch. So its inputs are accepted if it takes none, or
   if this is its first attempt, there is a trigger, and its one input schema accepts it; and in no other case.
   */
  lemma EntryIsHandedTheTrigger(setup: Setup, s: Sys, steps: seq<Step>, task: TaskDef, id: AttemptId)
    requires Registered(setup.def) && Created(setup, s) && Dispatches(setup, Run(setup, s, steps), task, id)
    requires forall b :: b in setup.def.dataBindings ==> b.target != task.id
    ensures var t, trigger := Run(setup, s, steps), s.snapshot.triggerInput;
      && InputsOf(setup, t) == ResolvedInputs(
           if id.generation == 1 && trigger.Some? && task.inputSchemas != [] then [trigger.value] else [], [])
      && (InputsAccepted(setup, t) <==>
            || task.inputSchemas == []
            || (id.generation == 1 && trigger.Some? && |task.inputSchemas| == 1
                && setup.valid(task.inputSchemas[0], trigger.value)))
  {
    hide StartInput, Registered, Created, DispatchInputs;
    var t := Run(setup, s, steps);
    CreatedIsGood(setup, s);
    CreatedEntries(setup, s);
    EntriesOverRun(setup, s, steps);
    GoodBasics(setup, t);
    DispatchedEntry(setup, t);
    assert task.id == id.taskDefId;
    EntryAttemptsHold(setup, s, steps, task, id);
  }

  /** An input is missing, or its schema does not accept it. */
  predicate RefusedAt(valid: (Json, Json) -> bool, schemas: seq<Json>, values: seq<Json>, k: nat) {
    k < |schemas| && (k >= |values| || !valid(schemas[k], values[k]))
  }

  ghost predicate Refused(valid: (Json, Json) -> bool, task: TaskDef, values: seq<Json>) {
    exists k :: RefusedAt(valid, task.inputSchemas, values, k)
  }

  lemma RefusedOrValid(valid: (Json, Json) -> bool, task: TaskDef, values: seq<Json>)
    ensures InputsValid(valid, task.inputSchemas, values) <==> !Refused(valid, task, values)
  {
    if |values| < |task.inputSchemas| { assert RefusedAt(valid, task.inputSchemas, values, |values|); }
    if !Refused(valid, task, values) {
      forall k | 0 <= k < |task.inputSchemas| ensures k < |values| && valid(task.inputSchemas[k], values[k]) {
        assert !RefusedAt(valid, task.inputSchemas, values, k);
      }
    }
  }

  /**
   What the engine does before it dispatches, on a current snapshot: if an input is missing or refused, the attempt
   fails with the inputs it was to be given, and the workflow with it. Otherwise it does nothing of the kind.
   */
  lemma RejectsExactlyWhen(setup: Setup, t: Sys, task: TaskDef, id: AttemptId)
    requires Good(setup, t) && Dispatches(setup, t, task, id) && t.phase.base.version == t.snapshot.version
    ensures id in t.snapshot.tasks
    ensures var i, r, u := t.snapshot, InputsOf(setup, t), Next(setup, t, Reject);
      if Refused(setup.valid, task, r.values) then
        && u.phase.Idle?
        && u.snapshot == i.(
             tasks := i.tasks[id := i.tasks[id].(inputData := r.values, inputMapping := r.mapping,
                                                 status := TaskStatus.Failed, satisfaction := Unsatisfied)],
             status := WorkflowStatus.Failed, version := u.snapshot.version)
      else u == t
  {
    hide Inv, Replayed, LoopsOf, WorkflowAllCompleted, DispatchInputs, Reduce, InputsValid, Refused;
    RefusedOrValid(setup.valid, task, InputsOf(setup, t).values);
    FailureReduced(t.snapshot, id, InputsOf(setup, t));
  }

  /**
   A later attempt of an entry task that takes input, whether a new generation of its loop or the continuation of a
   human input, never comes to run: its dispatch fails the workflow.
   */
  lemma LaterEntryAttemptFails(setup: Setup, s: Sys, steps: seq<Step>, task: TaskDef, id: AttemptId)
    requires Registered(setup.def) && Created(setup, s) && Dispatches(setup, Run(setup, s, steps), task, id)
    requires Run(setup, s, steps).phase.base.version == Run(setup, s, steps).snapshot.version
    requires forall b :: b in setup.def.dataBindings ==> b.target != task.id
    requires task.inputSchemas != [] && id.generation != 1
    ensures var t := Run(setup, s, steps);
      && Next(setup, t, Reject).snapshot.status.Failed?
      && id in Next(setup, t, Reject).snapshot.tasks && Next(setup, t, Reject).snapshot.tasks[id].status.Failed?
      && forall answer :: Next(setup, t, Answer(answer)) == t
  {
    hide Registered, Created, Good, InputsOf;
    CreatedIsGood(setup, s);
    RunIsGood(setup, s, steps);
    EntryIsHandedTheTrigger(setup, s, steps, task, id);
    RejectsExactlyWhen(setup, Run(setup, s, steps), task, id);
    assert Refused(setup.valid, task, InputsOf(setup, Run(setup, s, steps)).values) by {
      assert RefusedAt(setup.valid, task.inputSchemas, InputsOf(setup, Run(setup, s, steps)).values, 0);
    }
    forall answer ensures Next(setup, Run(setup, s, steps), Answer(answer)) == Run(setup, s, steps) {}
  }
}
