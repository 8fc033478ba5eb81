/**
 One call of `run_workflow_instance` ends, whatever the dispatcher answers and whoever else writes: every
 move of the engine lowers a measure of loops still to open, attempts still creatable and attempts pending.
 */
module RunTermination {
  import opened Prelude
  import opened JsonValues
  import opened AttemptIds
  import opened Model
  import opened Reducer
  import opened LoopSlices
  import opened Engine
  import opened EngineEffects
  import opened EngineInvariants
  import opened EngineSteps
  import opened OpeningAndRecovery
  import opened WorkflowRuns
  import opened RunInvariants
  import opened RunSafety
  import opened RunHistory
  import opened RunTheorems
  import opened RunAttempts

  function MaxGeneration(def: WorkflowDef, tasks: seq<TaskDef>): nat {
    if tasks == [] then 1
    else
      var rest, own := MaxGeneration(def, tasks[1..]), IterationBound(def, tasks[0].id);
      if own < rest then rest else own
  }

  lemma {:induction false} BoundedByMax(def: WorkflowDef, tasks: seq<TaskDef>, k: nat)
    requires k < |tasks|
    ensures IterationBound(def, tasks[k].id) <= MaxGeneration(def, tasks)
  {
    if k > 0 { BoundedByMax(def, tasks[1..], k - 1); }
  }

  /** Every attempt the engine could ever create. */
  function Slots(def: WorkflowDef): set<AttemptId> {
    set t, g | t in TaskIds(def) && 1 <= g <= MaxGeneration(def, def.tasks) :: AttemptId(t, g)
  }

  function Unopened(def: WorkflowDef, i: WorkflowInstance): set<TaskId> {
    TaskIds(def) - i.verifierStates.Keys
  }

  function FreeSlots(def: WorkflowDef, i: WorkflowInstance): set<AttemptId> {
    Slots(def) - i.tasks.Keys
  }

  function Work(def: WorkflowDef, i: WorkflowInstance): nat {
    |Unopened(def, i)| + 2 * |FreeSlots(def, i)| + |PendingIds(i.tasks)|
  }

  lemma UnionSize<T>(a: set<T>, b: set<T>)
    ensures |a + b| <= |a| + |b|
  {
    assert a + b == a + (b - a) && a !! (b - a);
    SubsetSize(b - a, b);
  }

  /** Starting an attempt uses up a pending one. */
  lemma StartLowersWork(def: WorkflowDef, i: WorkflowInstance, id: AttemptId)
    requires id in i.tasks && i.tasks[id].status.Pending?
    ensures Work(def, Started(i, id)) < Work(def, i)
  {
    var j := Started(i, id);
    assert FreeSlots(def, j) == FreeSlots(def, i);
    assert PendingIds(j.tasks) <= PendingIds(i.tasks) && id in PendingIds(i.tasks) && id !in PendingIds(j.tasks);
    SubsetSize(PendingIds(j.tasks), PendingIds(i.tasks));
  }

  /** Opening loops uses up verifiers without state. */
  lemma OpeningLowersWork(def: WorkflowDef, loops: Loops, i: WorkflowInstance, j: WorkflowInstance)
    requires SlicesOfVerifiers(def, loops) && j == i.(verifierStates := j.verifierStates)
      && Opened(def, loops, i, loops.order, j)
    requires InitialGenerationEvents(i, def, loops, loops.order, {}) != []
    ensures Work(def, j) < Work(def, i)
  {
    OpeningEmpty(def, loops, i, loops.order, {});
    var v :| v in loops.order && Eligible(i, def, loops, v);
    assert v in Unopened(def, i) && v !in Unopened(def, j) by {
      assert FindTask(def.tasks, v).Some?;
    }
    SubsetSize(Unopened(def, j), Unopened(def, i));
  }

  lemma NewAreSlots(def: WorkflowDef, loops: Loops, i: WorkflowInstance, id: AttemptId, j: WorkflowInstance)
    requires SlicesDefined(def, loops) && SlicesOfVerifiers(def, loops) && KeysMatch(def, i.tasks)
    requires NewAttempts(def, loops, i, id, j)
    ensures j.tasks.Keys - i.tasks.Keys <= FreeSlots(def, i)
  {
    forall x | x in j.tasks && x !in i.tasks ensures x in Slots(def) {
      var v := id.taskDefId;
      assert v in loops.body && FindTask(def.tasks, v).Some?;
      var k :| 0 <= k < |def.tasks| && def.tasks[k].id == v;
      BoundedByMax(def, def.tasks, k);
      assert x == AttemptId(x.taskDefId, x.generation);
    }
  }

  lemma ResultPending(def: WorkflowDef, loops: Loops, i: WorkflowInstance, id: AttemptId, r: ResolvedInputs,
      j: WorkflowInstance)
    requires ResultStep(def, loops, i, id, r, j)
    ensures PendingIds(j.tasks) <= PendingIds(i.tasks) + (j.tasks.Keys - i.tasks.Keys)
    ensures i.tasks.Keys <= j.tasks.Keys
  {
    forall x | x in PendingIds(j.tasks) && x in i.tasks ensures x in PendingIds(i.tasks) {
      assert x != id;
    }
    forall x | x in i.tasks ensures x in j.tasks {
      assert x == id || x != id;
    }
  }

  /** A result creates attempts only out of the slots still free. */
  lemma ResultKeepsWork(def: WorkflowDef, loops: Loops, i: WorkflowInstance, id: AttemptId, r: ResolvedInputs,
      j: WorkflowInstance)
    requires LoopShape(def, loops) && KeysMatch(def, i.tasks) && ResultStep(def, loops, i, id, r, j)
    ensures Work(def, j) <= Work(def, i)
  {
    hide ResultStep, KeysMatch, LoopShape, SlicesDefined, SlicesOfVerifiers, NewAttempts, Slots, PendingIds, TaskIds;
    var created := j.tasks.Keys - i.tasks.Keys;
    ResultNewParts(def, loops, i, id, r, j);
    NewAreSlots(def, loops, i, id, j);
    ResultPending(def, loops, i, id, r, j);
    WorkArithmetic(FreeSlots(def, i), FreeSlots(def, j), created, PendingIds(i.tasks), PendingIds(j.tasks), Slots(def),
      i.tasks.Keys, j.tasks.Keys);
  }

  lemma ResultNewParts(def: WorkflowDef, loops: Loops, i: WorkflowInstance, id: AttemptId, r: ResolvedInputs,
      j: WorkflowInstance)
    requires LoopShape(def, loops) && ResultStep(def, loops, i, id, r, j)
    ensures SlicesDefined(def, loops) && SlicesOfVerifiers(def, loops) && NewAttempts(def, loops, i, id, j)
    ensures j.verifierStates.Keys == i.verifierStates.Keys
  {
  }

  lemma WorkArithmetic(free: set<AttemptId>, freeAfter: set<AttemptId>, created: set<AttemptId>,
      pending: set<AttemptId>, pendingAfter: set<AttemptId>, slots: set<AttemptId>, keys: set<AttemptId>,
      keysAfter: set<AttemptId>)
    requires free == slots - keys && freeAfter == slots - keysAfter && created == keysAfter - keys && keys <= keysAfter
      && created <= free
    requires pendingAfter <= pending + created
    ensures 2 * |freeAfter| + |pendingAfter| <= 2 * |free| + |pending|
  {
    assert free == freeAfter + created && freeAfter !! created;
    SubsetSize(pendingAfter, pending + created);
    UnionSize(pending, created);
  }

  // ---------------------------------------------------------------------------
  // The measure of a phase

  datatype Measure = Measure(stage: nat, work: nat, place: nat)

  predicate Below(a: Measure, b: Measure) {
    a.stage < b.stage || (a.stage == b.stage && (a.work < b.work || (a.work == b.work && a.place < b.place)))
  }

  /** The work left on the snapshot the engine holds. */
  function WorkOf(def: WorkflowDef, phase: Phase): nat {
    if phase.Idle? then 0 else Work(def, phase.base)
  }

  /** Within the loop, twice the work plus one while this pass has made progress. */
  function Placed(phase: Phase, work: nat): Measure {
    match phase
    case Idle => Measure(0, 0, 0)
    case Boundary(_) => Measure(1, 0, 0)
    case Top(_) => Measure(2, 2 * work + 1, 0)
    case Passing(_, todo, progress) => Measure(2, 2 * work + (if progress then 1 else 0), 4 * |todo| + 1)
    case Starting(_, todo) => Measure(2, 2 * work, 4 * |todo|)
    case Waiting(_, todo) => Measure(2, 2 * work + 1, if todo == [] then 0 else 4 * |todo| - 1)
    case Recording(_, todo, _, _) => Measure(2, 2 * work + 1, if todo == [] then 0 else 4 * |todo| - 2)
    case Ready(_) => Measure(3, 0, 0)
    case Loaded(_) => Measure(4, 0, 0)
  }

  function MeasureOf(def: WorkflowDef, phase: Phase): Measure {
    Placed(phase, WorkOf(def, phase))
  }

  lemma StoredWork(setup: Setup, s: Sys, base: WorkflowInstance, events: seq<Event>)
    requires Store(s, base, events).Some?
    ensures Work(setup.def, Store(s, base, events).value.snapshot) == Work(setup.def, Reduce(base, events).value)
  {
  }

  lemma OpenWork(setup: Setup, s: Sys)
    requires LoopShape(setup.def, s.loops) && Inv(setup.def, s.loops, s.snapshot) && s.phase.Top?
    requires Quiet(s.phase.base, s.snapshot) && (s.phase.base.tasks == map[] ==> setup.def.tasks == [])
    ensures var phase := AfterOpen(setup, s).phase;
      phase.Idle? || (phase.Passing?
        && (if phase.progress then Work(setup.def, phase.base) < Work(setup.def, s.phase.base)
                                         else phase.base == s.phase.base))
  {
    hide Work, Opened, InitialGenerationEvents, SlicesOfVerifiers, Evolves;
    var events := Openings(setup, s, s.phase.base);
    if events != [] && Store(s, s.phase.base, events).Some? {
      CurrentBase(s, s.phase.base, events);
      TasksExist(setup, s, s.snapshot);
      OpeningKeepsInv(setup.def, s.loops, s.snapshot);
      OpeningLowersWork(setup.def, s.loops, s.snapshot, Reduce(s.snapshot, events).value);
      StoredWork(setup, s, s.snapshot, events);
    }
  }

  lemma OpenPlaced(before: Phase, w: nat, after: Phase, w2: nat)
    requires before.Top? && (after.Idle? || (after.Passing? && (if after.progress then w2 < w else w2 == w)))
    ensures Below(Placed(after, w2), Placed(before, w))
  {
  }

  lemma OpenProgresses(setup: Setup, s: Sys)
    requires Registered(setup.def) && Good(setup, s) && s.phase.Top?
    ensures Below(MeasureOf(setup.def, AfterOpen(setup, s).phase), MeasureOf(setup.def, s.phase))
  {
    RegisteredSlices(setup.def, s.loops);
    OpenWork(setup, s);
    OpenPlaced(s.phase, WorkOf(setup.def, s.phase), AfterOpen(setup, s).phase,
      WorkOf(setup.def, AfterOpen(setup, s).phase));
  }

  lemma StartedPhase(s: Sys)
    requires s.phase.Starting? && Quiet(s.phase.base, s.snapshot)
    requires s.phase.todo != [] && s.phase.todo[0] in s.phase.base.tasks
      && s.phase.base.tasks[s.phase.todo[0]].status.Pending?
    ensures var phase := AfterStart(s).phase;
      phase.Idle? || (phase.Waiting?
        && phase.base == Started(s.phase.base, s.phase.todo[0]).(version := phase.base.version))
  {
    var events := [TaskStatusChanged(s.phase.todo[0], TaskStatus.Running)];
    if Store(s, s.phase.base, events).Some? {
      CurrentBase(s, s.phase.base, events);
      Reduce1(s.snapshot, events[0]);
    }
  }

  lemma VersionKeepsWork(def: WorkflowDef, i: WorkflowInstance, version: nat)
    ensures Work(def, i.(version := version)) == Work(def, i)
  {
  }

  lemma StartWork(setup: Setup, s: Sys)
    requires s.phase.Starting? && Quiet(s.phase.base, s.snapshot)
    requires s.phase.todo != [] && s.phase.todo[0] in s.phase.base.tasks
      && s.phase.base.tasks[s.phase.todo[0]].status.Pending?
    ensures var phase := AfterStart(s).phase;
      phase.Idle? || (phase.Waiting? && Work(setup.def, phase.base) < Work(setup.def, s.phase.base))
  {
    var base, id := s.phase.base, s.phase.todo[0];
    StartedPhase(s);
    StartLowersWork(setup.def, base, id);
    if AfterStart(s).phase.Waiting? {
      VersionKeepsWork(setup.def, Started(base, id), AfterStart(s).phase.base.version);
    }
  }

  lemma StartPlaced(before: Phase, w: nat, after: Phase, w2: nat)
    requires before.Starting? && (after.Idle? || (after.Waiting? && w2 < w))
    ensures Below(Placed(after, w2), Placed(before, w))
  {
  }

  lemma StartProgresses(setup: Setup, s: Sys)
    requires Good(setup, s) && s.phase.Starting?
    ensures Below(MeasureOf(setup.def, AfterStart(s).phase), MeasureOf(setup.def, s.phase))
  {
    StartWork(setup, s);
    StartPlaced(s.phase, WorkOf(setup.def, s.phase), AfterStart(s).phase, WorkOf(setup.def, AfterStart(s).phase));
  }

  /** The engine's base and the snapshot it commits on have the same work to do. */
  lemma QuietWork(def: WorkflowDef, base: WorkflowInstance, now: WorkflowInstance)
    requires Quiet(base, now)
    ensures Work(def, base) == Work(def, now)
  {
  }

  lemma RecordBatchProgresses(setup: Setup, s: Sys, todo: seq<AttemptId>, onto: WorkflowInstance, r: ResolvedInputs,
      batch: ResultBatch)
    requires LoopShape(setup.def, s.loops) && KeysMatch(setup.def, s.snapshot.tasks) && todo != []
      && Quiet(onto, s.snapshot)
    requires AcceptedBatch(setup.def, s.loops, onto, todo[0], r, batch)
    ensures var phase := RecordBatch(s, todo, onto, batch).phase;
      phase.Idle? || phase.Boundary?
      || (phase.Passing? && phase.progress && phase.todo == todo[1..]
        && Work(setup.def, phase.base) <= Work(setup.def, s.snapshot))
  {
    if Store(s, onto, batch.events).Some? {
      CurrentBase(s, onto, batch.events);
      ResultKeepsWork(setup.def, s.loops, s.snapshot, todo[0], r, Reduce(s.snapshot, batch.events).value);
      StoredWork(setup, s, s.snapshot, batch.events);
    }
  }

  lemma RecordWork(setup: Setup, s: Sys)
    requires Registered(setup.def) && Good(setup, s) && s.phase.Recording?
    ensures s.phase.todo != []
    ensures var phase := AfterRecord(setup, s).phase;
      phase.Idle? || phase.Boundary?
      || (phase.Passing? && phase.progress && phase.todo == s.phase.todo[1..]
        && Work(setup.def, phase.base) <= Work(setup.def, s.snapshot))
  {
    RegisteredSlices(setup.def, s.loops);
    var base, todo, onto, answer := s.phase.base, s.phase.todo, s.phase.onto, s.phase.answer;
    BaseIsGood(setup, s, base);
    AwaitingIsDispatched(setup, s, base, todo);
    RecordStores(setup, s, base, todo, onto, TaskOf(setup, s.phase), answer);
    RecordBatchProgresses(setup, s, todo, onto, InputsOf(setup, s), BatchOf(setup, s, answer));
  }

  lemma RecordPlaced(before: Phase, w: nat, after: Phase, w2: nat)
    requires before.Recording? && before.todo != []
    requires after.Idle? || after.Boundary?
      || (after.Passing? && after.progress && after.todo == before.todo[1..] && w2 <= w)
    ensures Below(Placed(after, w2), Placed(before, w))
  {
  }

  lemma RecordProgresses(setup: Setup, s: Sys)
    requires Registered(setup.def) && Good(setup, s) && s.phase.Recording?
    ensures Below(MeasureOf(setup.def, AfterRecord(setup, s).phase), MeasureOf(setup.def, s.phase))
  {
    RecordWork(setup, s);
    QuietWork(setup.def, s.phase.base, s.snapshot);
    RecordPlaced(s.phase, WorkOf(setup.def, s.phase), AfterRecord(setup, s).phase,
      WorkOf(setup.def, AfterRecord(setup, s).phase));
  }

  lemma WaitingDispatches(setup: Setup, s: Sys)
    requires Registered(setup.def) && Good(setup, s) && s.phase.Waiting?
    ensures Dispatching(setup, s.phase)
  {
    RegisteredSlices(setup.def, s.loops);
    BaseIsGood(setup, s, s.phase.base);
    AwaitingIsDispatched(setup, s, s.phase.base, s.phase.todo);
  }

  /** The steps the engine itself takes once loaded. */
  predicate Enabled(setup: Setup, s: Sys, step: Step) {
    match step
    case Begin => s.phase.Loaded?
    case Initialise => s.phase.Ready?
    case Open => s.phase.Top?
    case Pick => s.phase.Passing?
    case Start => s.phase.Starting?
    case Reject => s.phase.Waiting? && Dispatching(setup, s.phase) && !InputsAccepted(setup, s)
    case Answer(_) => s.phase.Waiting? && Dispatching(setup, s.phase) && InputsAccepted(setup, s)
    case Record => s.phase.Recording?
    case Settle => s.phase.Boundary?
    case _ => false
  }

  /** Every step of the engine lowers the measure; no step by anyone else changes it. */
  lemma EngineProgresses(setup: Setup, s: Sys, step: Step)
    requires Registered(setup.def) && Good(setup, s) && Enabled(setup, s, step)
    ensures Below(MeasureOf(setup.def, Next(setup, s, step).phase), MeasureOf(setup.def, s.phase))
  {
    RegisteredSlices(setup.def, s.loops);
    if step.Open? { OpenProgresses(setup, s); }
    else if step.Start? { StartProgresses(setup, s); }
    else if step.Record? { RecordProgresses(setup, s); }
    else { PlainProgress(setup, s, step); }
  }

  lemma PlainPlaced(setup: Setup, s: Sys, step: Step, w: nat, w2: nat)
    requires PhaseOk(setup, s) && Enabled(setup, s, step) && !step.Open? && !step.Start? && !step.Record?
    requires w2 == w || Next(setup, s, step).phase.Idle? || s.phase.Loaded? || s.phase.Ready?
    ensures Below(Placed(Next(setup, s, step).phase, w2), Placed(s.phase, w))
  {
    hide Reduce, Quiet, NoneFailed, WorkflowAllCompleted, ResultEvents, InputsAccepted, RunnableIds, Openings,
      InitialTaskEvents, FindTask, SortIds;
  }

  lemma PlainBase(setup: Setup, s: Sys, step: Step)
    requires PhaseOk(setup, s) && Enabled(setup, s, step) && !step.Open? && !step.Start? && !step.Record?
    ensures var phase := Next(setup, s, step).phase;
      phase.Idle? || s.phase.Loaded? || s.phase.Ready? || phase.base == s.phase.base
  {
  }

  lemma PlainProgress(setup: Setup, s: Sys, step: Step)
    requires Good(setup, s) && Enabled(setup, s, step) && !step.Open? && !step.Start? && !step.Record?
    ensures Below(MeasureOf(setup.def, Next(setup, s, step).phase), MeasureOf(setup.def, s.phase))
  {
    PlainBase(setup, s, step);
    PlainPlaced(setup, s, step, WorkOf(setup.def, s.phase), WorkOf(setup.def, Next(setup, s, step).phase));
  }

  lemma OthersLeaveThePhase(setup: Setup, s: Sys, step: Step)
    requires !IsEngineStep(step)
    ensures Next(setup, s, step).phase == s.phase
  {
  }

  /** An engine that is not idle can always move: it never gets stuck waiting for anyone but the dispatcher. */
  lemma EngineCanMove(setup: Setup, s: Sys, answer: DispatchAnswer) returns (step: Step)
    requires Registered(setup.def) && Good(setup, s) && !s.phase.Idle?
    ensures Enabled(setup, s, step)
  {
    if s.phase.Waiting? { WaitingDispatches(setup, s); }
    step := match s.phase
      case Loaded(_) => Begin
      case Ready(_) => Initialise
      case Top(_) => Open
      case Passing(_, _, _) => Pick
      case Starting(_, _) => Start
      case Waiting(_, _) => if InputsAccepted(setup, s) then Answer(answer) else Reject
      case Recording(_, _, _, _) => Record
      case _ => Settle;
  }
}
