/**
 Whole runs of one workflow instance: an engine that reads, decides and commits, and everyone else who
 writes the same snapshot in between. A run is any list of steps; a step that is not enabled does
 nothing. Every commit is a compare-and-set against the version of the snapshot it was computed on.
 */
module WorkflowRuns {
  import opened Prelude
  import opened JsonValues
  import opened AttemptIds
  import opened Model
  import opened Reducer
  import opened LoopSlices
  import opened Engine
  import opened EngineEffects
  import opened EngineInvariants
  import opened EngineSteps
  import opened OpeningAndRecovery

  /** The definition of the workflow, and JSON Schema validation as the engine sees it. */
  datatype Setup = Setup(def: WorkflowDef, valid: (Json, Json) -> bool)

  /** Where `run_workflow_instance` stands, with the snapshot it holds. */
  datatype Phase =
    | Idle
    | Loaded(base: WorkflowInstance)
    | Ready(base: WorkflowInstance)
    | Top(base: WorkflowInstance)
    | Passing(base: WorkflowInstance, todo: seq<AttemptId>, progress: bool)
    | Starting(base: WorkflowInstance, todo: seq<AttemptId>)
    | Waiting(base: WorkflowInstance, todo: seq<AttemptId>)
    | Recording(base: WorkflowInstance, todo: seq<AttemptId>, onto: WorkflowInstance, answer: DispatchAnswer)
    | Boundary(base: WorkflowInstance)

  /** The stored log and snapshot, the engine, and the slices of the current run in its iteration order. */
  datatype Sys = Sys(log: seq<Event>, snapshot: WorkflowInstance, loops: Loops, phase: Phase)

  datatype Step =
    | Load(loops: Loops)
    | Begin
    | Initialise
    | Open
    | Pick
    | Start
    | Reject
    | Answer(answer: DispatchAnswer)
    | Record
    | Settle
    | Crash
    | Pause
    | Resume
    | LoseHost(host: HostId)
    | SubmitInput(id: AttemptId, input: Json)
    | Retry(id: AttemptId)
    | ForceRetry(id: AttemptId, target: HostId)
    | Recover(ids: seq<AttemptId>)

  /** `commit_events_for_instance`: reduce the base and store the result if the base is still current. */
  function Store(s: Sys, base: WorkflowInstance, events: seq<Event>): Option<Sys> {
    if events == [] || base.version != s.snapshot.version || Reduce(base, events).Failure? then None
    else Some(s.(log := s.log + events, snapshot := Reduce(base, events).value.(version := base.version + |events|)))
  }

  function RunnableIds(tasks: Tasks, def: WorkflowDef, loops: Loops): set<AttemptId> {
    set id | id in tasks && Runnable(tasks, def, loops, id)
  }

  /** The inputs handed to the worker: resolved again after the attempt became Running, or empty. */
  function DispatchInputs(tasks: Tasks, def: WorkflowDef, loops: Loops, id: AttemptId): ResolvedInputs
    requires id in tasks
  {
    ResolveInputs(tasks, def, loops, tasks[id]).GetOr(ResolvedInputs([], []))
  }

  // ---------------------------------------------------------------------------
  // The engine

  ghost function AfterLoad(setup: Setup, s: Sys, loops: Loops): Sys {
    if s.phase.Idle? && MayRun(s.snapshot.status) && LoopsOf(setup.def, loops)
    then s.(loops := loops, phase := Loaded(s.snapshot)) else s
  }

  function AfterBegin(s: Sys): Sys {
    if !s.phase.Loaded? then s
    else
      match Store(s, s.phase.base, [WorkflowStatusChanged(WorkflowStatus.Running)])
      case None => s.(phase := Idle)
      case Some(t) => t.(phase := Ready(t.snapshot))
  }

  function AfterInitialise(setup: Setup, s: Sys): Sys {
    if !s.phase.Ready? then s
    else if s.phase.base.tasks != map[] || setup.def.tasks == [] then s.(phase := Top(s.phase.base))
    else
      match Store(s, s.phase.base, InitialTaskEvents(s.phase.base, setup.def, setup.def.tasks))
      case None => s.(phase := Idle)
      case Some(t) => t.(phase := Top(t.snapshot))
  }

  function PassOver(setup: Setup, s: Sys, base: WorkflowInstance, progress: bool): Sys {
    s.(phase := Passing(base, SortIds(RunnableIds(base.tasks, setup.def, s.loops)), progress))
  }

  function Openings(setup: Setup, s: Sys, base: WorkflowInstance): seq<Event> {
    InitialGenerationEvents(base, setup.def, s.loops, s.loops.order, {})
  }

  function AfterOpen(setup: Setup, s: Sys): Sys {
    if !s.phase.Top? then s
    else if Openings(setup, s, s.phase.base) == [] then PassOver(setup, s, s.phase.base, false)
    else
      match Store(s, s.phase.base, Openings(setup, s, s.phase.base))
      case None => s.(phase := Idle)
      case Some(t) => PassOver(setup, t, t.snapshot, true)
  }

  /** The end of `run_workflow_instance`, and of a pause boundary. */
  function Concluded(setup: Setup, s: Sys, base: WorkflowInstance): Sys {
    if !WorkflowAllCompleted(base, setup.def, s.loops) then s.(phase := Idle)
    else
      match Store(s, base, [WorkflowStatusChanged(WorkflowStatus.Completed)])
      case None => s.(phase := Idle)
      case Some(t) => t.(phase := Idle)
  }

  /** The next attempt of the pass: skipped if no longer pending; not started once a pause is stored. */
  function AfterPick(setup: Setup, s: Sys): Sys {
    if !s.phase.Passing? then s
    else if s.phase.todo == [] then
      if s.phase.progress then s.(phase := Top(s.phase.base)) else Concluded(setup, s, s.phase.base)
    else
      var id := s.phase.todo[0];
      if id !in s.phase.base.tasks || !s.phase.base.tasks[id].status.Pending? then
        s.(phase := Passing(s.phase.base, s.phase.todo[1..], s.phase.progress))
      else if s.snapshot.status.Paused? then s.(phase := Idle)
      else s.(phase := Starting(s.phase.base, s.phase.todo))
  }

  function AfterStart(s: Sys): Sys {
    if !s.phase.Starting? || s.phase.todo == [] then s
    else
      match Store(s, s.phase.base, [TaskStatusChanged(s.phase.todo[0], TaskStatus.Running)])
      case None => s.(phase := Idle)
      case Some(t) => t.(phase := Waiting(t.snapshot, s.phase.todo))
  }

  /** An attempt has been started and its definition is known. */
  predicate Dispatching(setup: Setup, phase: Phase) {
    && (phase.Waiting? || phase.Recording?)
    && phase.todo != [] && phase.todo[0] in phase.base.tasks
    && FindTask(setup.def.tasks, phase.base.tasks[phase.todo[0]].taskDefId).Some?
  }

  function TaskOf(setup: Setup, phase: Phase): TaskDef
    requires Dispatching(setup, phase)
  {
    FindTask(setup.def.tasks, phase.base.tasks[phase.todo[0]].taskDefId).value
  }

  function InputsOf(setup: Setup, s: Sys): ResolvedInputs
    requires Dispatching(setup, s.phase)
  {
    DispatchInputs(s.phase.base.tasks, setup.def, s.loops, s.phase.todo[0])
  }

  function BatchOf(setup: Setup, s: Sys, answer: DispatchAnswer): ResultBatch
    requires Dispatching(setup, s.phase)
  {
    ResultEvents(setup.valid, s.phase.base, setup.def, s.loops, TaskOf(setup, s.phase), s.phase.todo[0],
      InputsOf(setup, s), answer)
  }

  predicate InputsAccepted(setup: Setup, s: Sys)
    requires Dispatching(setup, s.phase)
  {
    InputsValid(setup.valid, TaskOf(setup, s.phase).inputSchemas, InputsOf(setup, s).values)
  }

  function AfterReject(setup: Setup, s: Sys): Sys {
    if !s.phase.Waiting? || !Dispatching(setup, s.phase) || InputsAccepted(setup, s) then s
    else
      var id := s.phase.todo[0];
      match Store(s, s.phase.base, InputEvents(id, InputsOf(setup, s)) + FailTask(id) + FailWorkflow)
      case None => s.(phase := Idle)
      case Some(t) => t.(phase := Idle)
  }

  /** The dispatcher's answer arrives; the commit base is the stored snapshot if that is paused. */
  function AfterAnswer(setup: Setup, s: Sys, answer: DispatchAnswer): Sys {
    if !s.phase.Waiting? || !Dispatching(setup, s.phase) || !InputsAccepted(setup, s) then s
    else if BatchOf(setup, s, answer).NoCommit? then s.(phase := Idle)
    else
      var onto := if s.snapshot.status.Paused? then s.snapshot else s.phase.base;
      s.(phase := Recording(s.phase.base, s.phase.todo, onto, answer))
  }

  function RecordBatch(s: Sys, todo: seq<AttemptId>, onto: WorkflowInstance, batch: ResultBatch): Sys
    requires todo != []
  {
    match batch
    case NoCommit => s.(phase := Idle)
    case Batch(events, outcome) =>
      match Store(s, onto, events)
      case None => s.(phase := Idle)
      case Some(t) =>
        if !outcome.Proceed? then t.(phase := Idle)
        else if t.snapshot.status.Paused? then t.(phase := Boundary(t.snapshot))
        else t.(phase := Passing(t.snapshot, todo[1..], true))
  }

  function AfterRecord(setup: Setup, s: Sys): Sys {
    if !s.phase.Recording? || !Dispatching(setup, s.phase) then s
    else RecordBatch(s, s.phase.todo, s.phase.onto, BatchOf(setup, s, s.phase.answer))
  }

  function AfterSettle(setup: Setup, s: Sys): Sys {
    if s.phase.Boundary? then Concluded(setup, s, s.phase.base) else s
  }

  // ---------------------------------------------------------------------------
  // Everyone else

  function Written(s: Sys, guard: bool, event: Event): Sys {
    if guard && Store(s, s.snapshot, [event]).Some? then Store(s, s.snapshot, [event]).value else s
  }

  function AfterPause(s: Sys): Sys {
    Written(s, MayRun(s.snapshot.status), WorkflowStatusChanged(Paused))
  }

  function AfterResume(s: Sys): Sys {
    Written(s, s.snapshot.status.Paused?, WorkflowStatusChanged(WorkflowStatus.Pending))
  }

  function AfterLoseHost(s: Sys, host: HostId): Sys {
    Written(s, !s.snapshot.status.Completed? && !s.snapshot.status.Failed? && s.snapshot.pinnedWorkerHost == Some(host),
            WorkflowStatusChanged(WorkflowStatus.Failed))
  }

  function AfterSubmitInput(s: Sys, id: AttemptId, input: Json): Sys {
    if id !in s.snapshot.tasks then s
    else
      var next := AttemptId(s.snapshot.tasks[id].taskDefId, s.snapshot.tasks[id].generationIndex + 1);
      Written(s, s.snapshot.status.InputNeeded? && s.snapshot.tasks[id].status.InputNeeded?
        && next !in s.snapshot.tasks,
              HumanInputSubmitted(id, next, input))
  }

  predicate Retryable(i: WorkflowInstance, id: AttemptId) {
    i.status.Failed? && id in i.tasks && i.tasks[id].status.Failed?
  }

  function AfterRetry(s: Sys, id: AttemptId): Sys {
    Written(s, Retryable(s.snapshot, id), TaskRetryRequested(id))
  }

  function AfterForceRetry(s: Sys, id: AttemptId, target: HostId): Sys {
    var pin := s.snapshot.pinnedWorkerHost;
    Written(s, Retryable(s.snapshot, id), TaskForceRetryRequested(id, pin, target, pin != Some(target)))
  }

  /** Startup recovery, before any engine runs; the ids come in any order. */
  ghost function AfterRecover(s: Sys, ids: seq<AttemptId>): Sys {
    Written(s, s.phase.Idle? && MayRun(s.snapshot.status) && Distinct(ids)
      && (set x | x in ids) == RunningIds(s.snapshot.tasks)
               && (s.snapshot.status.Running? || ids != []),
            StartupRecoveryApplied(ids))
  }

  // ---------------------------------------------------------------------------
  // Runs

  ghost function Next(setup: Setup, s: Sys, step: Step): Sys {
    match step
    case Load(loops) => AfterLoad(setup, s, loops)
    case Begin => AfterBegin(s)
    case Initialise => AfterInitialise(setup, s)
    case Open => AfterOpen(setup, s)
    case Pick => AfterPick(setup, s)
    case Start => AfterStart(s)
    case Reject => AfterReject(setup, s)
    case Answer(answer) => AfterAnswer(setup, s, answer)
    case Record => AfterRecord(setup, s)
    case Settle => AfterSettle(setup, s)
    case Crash => s.(phase := Idle)
    case Pause => AfterPause(s)
    case Resume => AfterResume(s)
    case LoseHost(host) => AfterLoseHost(s, host)
    case SubmitInput(id, input) => AfterSubmitInput(s, id, input)
    case Retry(id) => AfterRetry(s, id)
    case ForceRetry(id, target) => AfterForceRetry(s, id, target)
    case Recover(ids) => AfterRecover(s, ids)
  }

  ghost function Run(setup: Setup, s: Sys, steps: seq<Step>): Sys
    decreases |steps|
  {
    if steps == [] then s else Run(setup, Next(setup, s, steps[0]), steps[1..])
  }

  /** `create_workflow_instance_for_def`: the log holds the creation event alone. */
  ghost predicate Created(setup: Setup, s: Sys) {
    && s.snapshot.tasks == map[] && s.snapshot.verifierStates == map[] && s.snapshot.status.Pending?
    && s.snapshot.version == 1 && s.log == [WorkflowCreated(s.snapshot.(version := 0))]
    && LoopsOf(setup.def, s.loops) && s.phase.Idle?
  }
}
