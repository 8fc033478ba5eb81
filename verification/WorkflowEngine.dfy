/**
 `run_workflow_instance` as written: one engine over a stored instance that others write between its
 reads and commits. Every call takes the steps of WorkflowRuns, so all that holds of runs holds of it.
 */
module WorkflowEngine {
  import opened Prelude
  import opened JsonValues
  import opened AttemptIds
  import opened Model
  import opened Reducer
  import opened LoopSlices
  import opened Engine
  import opened EngineEffects
  import opened EngineInvariants
  import opened FieldReadings
  import opened WorkflowRuns
  import opened RunInvariants
  import opened RunSafety
  import opened RunHistory
  import opened RunAttempts
  import opened RunTermination
  import opened RunTheorems
  import opened EngineLoops

  /** A run with one more step. */
  lemma {:induction false} RunOneMore(setup: Setup, s: Sys, steps: seq<Step>, step: Step)
    ensures Run(setup, s, steps + [step]) == Next(setup, Run(setup, s, steps), step)
  {
    RunThenRun(setup, s, steps, [step]);
    var t := Run(setup, s, steps);
    assert [step][1..] == [];
    assert Run(setup, t, [step]) == Run(setup, Next(setup, t, step), []);
  }

  /** The event somebody else writes, if the service lets them. */
  function Request(i: WorkflowInstance, step: Step): Option<Event> {
    match step
    case Pause => if MayRun(i.status) then Some(WorkflowStatusChanged(Paused)) else None
    case Resume => if i.status.Paused? then Some(WorkflowStatusChanged(WorkflowStatus.Pending)) else None
    case LoseHost(host) =>
      if !i.status.Completed? && !i.status.Failed? && i.pinnedWorkerHost == Some(host)
      then Some(WorkflowStatusChanged(WorkflowStatus.Failed)) else None
    case SubmitInput(id, input) =>
      if id !in i.tasks then None
      else
        var next := AttemptId(i.tasks[id].taskDefId, i.tasks[id].generationIndex + 1);
        if i.status.InputNeeded? && i.tasks[id].status.InputNeeded? && next !in i.tasks
        then Some(HumanInputSubmitted(id, next, input)) else None
    case Retry(id) => if Retryable(i, id) then Some(TaskRetryRequested(id)) else None
    case ForceRetry(id, target) =>
      if Retryable(i, id)
      then Some(TaskForceRetryRequested(id, i.pinnedWorkerHost, target, i.pinnedWorkerHost != Some(target))) else None
    case _ => None
  }

  lemma RequestIsStep(setup: Setup, s: Sys, step: Step)
    requires !IsEngineStep(step) && !step.Recover?
    ensures match Request(s.snapshot, step)
      case None => Next(setup, s, step) == s
      case Some(event) => Next(setup, s, step) == if Store(s, s.snapshot, [event]).Some? then
        Store(s, s.snapshot, [event]).value else s
  {
  }

  /** What a batch is computed from: the engine's own snapshot and slices, not what is stored. */
  lemma SameBatch(setup: Setup, s: Sys, t: Sys, answer: DispatchAnswer)
    requires s.phase == t.phase && s.loops == t.loops && Dispatching(setup, s.phase)
    ensures Dispatching(setup, t.phase) && BatchOf(setup, s, answer) == BatchOf(setup, t, answer)
  {
  }

  class Session {
    const setup: Setup
    /** The dispatcher's answers, and what others do to the instance before each access of the engine. */
    const answers: nat -> DispatchAnswer
    const others: nat -> seq<Step>
    var log: seq<Event>
    var snapshot: WorkflowInstance
    var loops: Loops
    var accesses: nat
    var dispatches: nat
    ghost var phase: Phase
    ghost var steps: seq<Step>
    ghost const origin: Sys

    ghost function State(): Sys
      reads this
    {
      Sys(log, snapshot, loops, phase)
    }

    ghost predicate Valid()
      reads this
    {
      Registered(setup.def) && Good(setup, origin) && Run(setup, origin, steps) == State()
    }

    lemma NowGood()
      requires Valid()
      ensures Good(setup, State())
    {
      RunIsGood(setup, origin, steps);
    }

    constructor (setup: Setup,
        answers: nat -> DispatchAnswer, others: nat -> seq<Step>, log: seq<Event>, snapshot: WorkflowInstance,
      loops: Loops, ghost start: Sys)
      requires start == Sys(log, snapshot, loops, Idle) && Registered(setup.def) && Good(setup, start)
      ensures Valid() && State() == start && this.setup == setup && steps == []
    {
      this.setup, this.answers, this.others := setup, answers, others;
      this.log, this.snapshot, this.loops := log, snapshot, loops;
      accesses, dispatches, phase, steps, origin := 0, 0, Idle, [], start;
    }

    ghost predicate Lower(after: Phase, before: Phase) {
      Below(MeasureOf(setup.def, after), MeasureOf(setup.def, before))
    }

    /** The last step closed a pass that had tried everything and made no progress. */
    ghost predicate EndedQuiet()
      reads this
    {
      steps != [] && steps[|steps| - 1] == Step.Pick && ClosesQuietly(Run(setup, origin, steps[..|steps| - 1]).phase)
    }

    ghost predicate ClosesQuietly(phase: Phase) {
      phase.Passing? && phase.todo == [] && !phase.progress
    }

    /** Records that the fields now hold what `step` makes of the state before. */
    ghost method Take(before: Sys, step: Step)
      requires Registered(setup.def) && Good(setup, origin) && Run(setup, origin, steps) == before
      requires log == Next(setup, before, step).log && snapshot == Next(setup, before, step).snapshot
      requires loops == Next(setup, before, step).loops
      modifies `phase, `steps
      ensures Valid() && State() == Next(setup, before, step) && steps == old(steps) + [step]
      ensures Enabled(setup, before, step) ==> Lower(phase, before.phase)
      ensures EndedQuiet() <==> step == Step.Pick && ClosesQuietly(before.phase)
    {
      hide Good, Registered, MeasureOf;
      if Enabled(setup, before, step) {
        RunIsGood(setup, origin, steps);
        EngineProgresses(setup, before, step);
      }
      RunOneMore(setup, origin, steps, step);
      phase := Next(setup, before, step).phase;
      steps := steps + [step];
      assert steps[..|steps| - 1] == old(steps);
    }

    /** Compare-and-set of the base the engine holds. */
    method Commit(base: WorkflowInstance, events: seq<Event>) returns (stored: Option<WorkflowInstance>)
      modifies `log, `snapshot
      ensures stored.None? <==> Store(old(State()), base, events).None?
      ensures stored.None? ==> log == old(log) && snapshot == old(snapshot)
      ensures stored.Some? ==>
        var t := Store(old(State()), base, events).value; log == t.log && snapshot == t.snapshot == stored.value
    {
      if events == [] { return None; }
      var reduced := ReduceInPlace(Some(base), events);
      if reduced.Failure? || base.version != snapshot.version { return None; }
      log := log + events;
      snapshot := reduced.value.(version := base.version + |events|);
      return Some(snapshot);
    }

    /** One action by somebody else; steps of another engine or of a restart are not theirs to take. */
    method Interfere(step: Step)
      requires Valid()
      modifies `log, `snapshot, `phase, `steps
      ensures Valid() && phase == old(phase) && old(steps) <= steps
    {
      if IsEngineStep(step) || step.Recover? { return; }
      ghost var before := State();
      RequestIsStep(setup, before, step);
      var event := Request(snapshot, step);
      if event.Some? { var stored := Commit(snapshot, [event.value]); }
      Take(before, step);
      OthersLeaveThePhase(setup, before, step);
    }

    /** Whatever others do before the engine's next access to the store. */
    method Others()
      requires Valid()
      modifies `log, `snapshot, `phase, `steps, `accesses
      ensures Valid() && phase == old(phase) && old(steps) <= steps
    {
      var todo := others(accesses);
      accesses := accesses + 1;
      for k := 0 to |todo|
        invariant Valid() && phase == old(phase) && old(steps) <= steps
      {
        Interfere(todo[k]);
      }
    }

    // -----------------------------------------------------------------------
    // The stages of a run. Each returns the snapshot to go on with, or nothing when the run is over.

    method Load() returns (base: Option<WorkflowInstance>)
      requires Valid() && phase.Idle?
      modifies this
      ensures Valid() && old(steps) <= steps
      ensures if base.Some? then phase == Loaded(base.value) else phase.Idle? && !EndedQuiet()
    {
      Others();
      ghost var before := State();
      if !MayRun(snapshot.status) {
        Take(before, Step.Load(loops));
        return None;
      }
      var slices := ComputeLoopSlices(setup.def);
      loops := slices;
      Take(before, Step.Load(slices));
      return Some(snapshot);
    }

    method Begin(base: WorkflowInstance) returns (next: Option<WorkflowInstance>)
      requires Valid() && phase == Loaded(base)
      modifies this
      ensures Valid() && old(steps) <= steps
      ensures if next.Some? then phase == Ready(next.value) else phase.Idle? && !EndedQuiet()
    {
      Others();
      ghost var before := State();
      next := Commit(base, [WorkflowStatusChanged(WorkflowStatus.Running)]);
      Take(before, Step.Begin);
    }

    method Initialise(base: WorkflowInstance) returns (next: Option<WorkflowInstance>)
      requires Valid() && phase == Ready(base)
      modifies this
      ensures Valid() && old(steps) <= steps
      ensures if next.Some? then phase == Top(next.value) else phase.Idle? && !EndedQuiet()
    {
      hide Good, Registered, MeasureOf, Run, Reduce, InitialTaskEvents;
      next := Some(base);
      if base.tasks != map[] || setup.def.tasks == [] {
        Take(State(), Step.Initialise);
        return;
      }
      var events := InitialiseTasks(base, setup.def);
      Others();
      ghost var before := State();
      next := Commit(base, events);
      Take(before, Step.Initialise);
    }

    lemma OrderHasBodies()
      requires Valid()
      ensures forall v :: v in loops.order ==> v in loops.body
    {
      NowGood();
    }

    method OpenPass(base: WorkflowInstance)
        returns (next: Option<WorkflowInstance>, todo: seq<AttemptId>, progress: bool)
      requires Valid() && phase == Top(base)
      modifies this
      ensures Valid() && old(steps) <= steps
      ensures if next.Some? then phase == Passing(next.value, todo, progress) else phase.Idle? && !EndedQuiet()
      ensures Lower(phase, old(phase))
    {
      hide Good, Registered, MeasureOf;
      next, todo, progress := Some(base), [], false;
      OrderHasBodies();
      var events := OpenLoops(base, setup.def, loops);
      if events == [] {
        todo := TasksToRun(base.tasks, setup.def, loops);
        Take(State(), Step.Open);
        return;
      }
      Others();
      ghost var before := State();
      next := Commit(base, events);
      progress := true;
      if next.Some? { todo := TasksToRun(next.value.tasks, setup.def, loops); }
      Take(before, Step.Open);
    }

    /** Checks for a pause, then makes the attempt Running. */
    method StartAttempt(base: WorkflowInstance, todo: seq<AttemptId>) returns (next: Option<WorkflowInstance>)
      requires Valid() && phase.Passing? && phase.base == base && phase.todo == todo
      requires todo != [] && todo[0] in base.tasks && base.tasks[todo[0]].status.Pending?
      modifies this
      ensures Valid() && old(steps) <= steps
      ensures if next.Some? then phase == Waiting(next.value, todo) else phase.Idle? && !EndedQuiet()
      ensures Lower(phase, old(phase))
    {
      hide Good, Registered, MeasureOf;
      Others();
      Take(State(), Step.Pick);
      if snapshot.status.Paused? { return None; }
      ghost var picked := phase;
      Others();
      ghost var before := State();
      next := Commit(base, [TaskStatusChanged(todo[0], TaskStatus.Running)]);
      Take(before, Step.Start);
      BelowTransitive(phase, picked, old(phase));
    }

    ghost predicate NotAbove(after: Phase, before: Phase) {
      after == before || Lower(after, before)
    }

    lemma BelowTransitive(a: Phase, b: Phase, c: Phase)
      requires NotAbove(a, b) && NotAbove(b, c)
      ensures NotAbove(a, c) && (Lower(a, b) || Lower(b, c) ==> Lower(a, c))
    {
      hide MeasureOf;
    }

    /** The inputs do not fit their schemas: the attempt and the workflow fail without a dispatch. */
    method RefuseInputs(base: WorkflowInstance, todo: seq<AttemptId>, id: AttemptId, r: ResolvedInputs)
      requires Valid() && phase == Waiting(base, todo) && Dispatching(setup, phase) && id == todo[0]
      requires r == InputsOf(setup, State()) && !InputsAccepted(setup, State())
      modifies this
      ensures Valid() && old(steps) <= steps && phase.Idle? && !EndedQuiet() && Lower(phase, old(phase))
    {
      hide Good, Registered, MeasureOf, ResolveInputs, InputsValid, ResultEvents, Run, Reduce, FindTask, InputEvents;
      Others();
      ghost var before := State();
      var stored := Commit(base, InputEvents(id, r) + FailTask(id) + FailWorkflow);
      Take(before, Step.Reject);
    }

    /** Dispatches the attempt and decides what its answer means; inputs the schema refuses fail it at once. */
    method Dispatch(base: WorkflowInstance, todo: seq<AttemptId>) returns (onto: WorkflowInstance, batch: ResultBatch)
      requires Valid() && phase == Waiting(base, todo)
      modifies this
      ensures Valid() && old(steps) <= steps
      ensures batch.NoCommit? ==> phase.Idle? && !EndedQuiet()
      ensures batch.Batch? ==>
        && phase.Recording? && phase.base == base && phase.todo == todo && phase.onto == onto
        && Dispatching(setup, phase) && batch == BatchOf(setup, State(), phase.answer)
      ensures Lower(phase, old(phase))
    {
      hide Good, Registered, MeasureOf, ResolveInputs, InputsValid, ResultEvents, Run, Reduce, FindTask, InputEvents;
      assert Dispatching(setup, phase) by {
        NowGood();
        WaitingDispatches(setup, State());
      }
      onto := base;
      var id := todo[0];
      var task := FindTask(setup.def.tasks, base.tasks[id].taskDefId).value;
      var r := DispatchInputs(base.tasks, setup.def, loops, id);
      if !InputsValid(setup.valid, task.inputSchemas, r.values) {
        RefuseInputs(base, todo, id, r);
        return onto, NoCommit;
      }
      var answer := answers(dispatches);
      dispatches := dispatches + 1;
      batch := Interpret(base, task, id, r, answer);
      Others();
      if batch.Batch? && snapshot.status.Paused? { onto := snapshot; }
      Take(State(), Step.Answer(answer));
    }

    method Interpret(base: WorkflowInstance, task: TaskDef, id: AttemptId, r: ResolvedInputs,
        answer: DispatchAnswer) returns (batch: ResultBatch)
      ensures batch == ResultEvents(setup.valid, base, setup.def, loops, task, id, r, answer)
    {
      match answer {
        case Success(output) => batch := OnSuccess(setup, base, loops, task, id, r, output);
        case _ => batch := ResultEvents(setup.valid, base, setup.def, loops, task, id, r, answer);
      }
    }

    /** `commit_task_result_events_preserving_pause`, then the pause boundary. */
    method RecordResult(base: WorkflowInstance, todo: seq<AttemptId>, onto: WorkflowInstance,
        batch: ResultBatch) returns (next: Option<WorkflowInstance>)
      requires Valid() && phase.Recording? && phase.base == base && phase.todo == todo && phase.onto == onto
      requires Dispatching(setup, phase) && batch == BatchOf(setup, State(), phase.answer) && batch.Batch?
      modifies this
      ensures Valid() && old(steps) <= steps
      ensures if next.Some? then phase == Passing(next.value, todo[1..], true) else phase.Idle? && !EndedQuiet()
      ensures Lower(phase, old(phase))
    {
      hide Good, Registered, MeasureOf, BatchOf, Dispatching;
      ghost var waiting := State();
      Others();
      ghost var before := State();
      SameBatch(setup, waiting, before, phase.answer);
      next := Commit(onto, batch.events);
      Take(before, Step.Record);
      if next.None? || !batch.outcome.Proceed? { return None; }
      if next.value.status.Paused? {
        ghost var boundary := phase;
        Conclude(next.value, Step.Settle);
        BelowTransitive(phase, boundary, old(phase));
        return None;
      }
    }

    /** Marks the workflow completed if everything is done. */
    method Conclude(base: WorkflowInstance, ghost step: Step)
      requires Valid() && !phase.Idle? && phase.base == base
      requires (phase.Boundary? && step == Step.Settle)
        || (phase.Passing? && phase.todo == [] && !phase.progress && step == Step.Pick)
      modifies this
      ensures Valid() && phase.Idle? && old(steps) <= steps && Lower(phase, old(phase))
      ensures EndedQuiet() <==> step == Step.Pick
    {
      hide Good, Registered, MeasureOf, Run, Reduce, WorkflowAllCompleted, RunnableIds, SortIds;
      if WorkflowAllCompleted(base, setup.def, loops) {
        Others();
        ghost var before := State();
        var stored := Commit(base, [WorkflowStatusChanged(WorkflowStatus.Completed)]);
        Take(before, step);
      } else {
        Take(State(), step);
      }
    }

    lemma PlannedExist(id: AttemptId)
      requires Valid() && phase.Passing? && id in phase.todo
      ensures id in phase.base.tasks
    {
      NowGood();
    }

    method RunAttempt(base: WorkflowInstance, todo: seq<AttemptId>) returns (next: Option<WorkflowInstance>)
      requires Valid() && phase.Passing? && phase.base == base && phase.todo == todo
      requires todo != [] && todo[0] in base.tasks && base.tasks[todo[0]].status.Pending?
      modifies this
      ensures Valid() && old(steps) <= steps
      ensures if next.Some? then phase == Passing(next.value, todo[1..], true) else phase.Idle? && !EndedQuiet()
      ensures Lower(phase, old(phase))
    {
      hide Good, Registered, MeasureOf, BatchOf, Dispatching;
      next := StartAttempt(base, todo);
      if next.None? { return; }
      ghost var waiting := phase;
      var onto, batch := Dispatch(next.value, todo);
      BelowTransitive(phase, waiting, old(phase));
      if batch.NoCommit? { return None; }
      ghost var recording := phase;
      next := RecordResult(next.value, todo, onto, batch);
      BelowTransitive(phase, recording, old(phase));
    }

    /** One pass over the attempts found runnable at its start. */
    method RunPass(base: WorkflowInstance, todo: seq<AttemptId>, moved: bool)
        returns (next: Option<WorkflowInstance>, progress: bool)
      requires Valid() && phase == Passing(base, todo, moved)
      modifies this
      ensures Valid() && old(steps) <= steps
      ensures NotAbove(phase, old(phase))
      ensures if next.Some? then phase == Passing(next.value, [], progress) else phase.Idle? && !EndedQuiet()
    {
      hide Good, Registered, MeasureOf;
      next, progress := Some(base), moved;
      var k := 0;
      assert todo[0..] == todo;
      while k < |todo|
        invariant 0 <= k <= |todo| && next.Some?
        invariant Valid() && old(steps) <= steps
        invariant phase == Passing(next.value, todo[k..], progress) && NotAbove(phase, old(phase))
      {
        ghost var passing := phase;
        assert todo[k..][1..] == todo[k + 1..] && todo[k..][0] == todo[k];
        PlannedExist(todo[k]);
        if next.value.tasks[todo[k]].status.Pending? {
          next := RunAttempt(next.value, todo[k..]);
          BelowTransitive(phase, passing, old(phase));
          if next.None? { return; }
          progress := true;
        } else {
          Take(State(), Step.Pick);
          BelowTransitive(phase, passing, old(phase));
        }
        k := k + 1;
      }
      assert todo[k..] == [];
    }

    /** One turn of the main loop: open what can open, then one pass. */
    method TurnOfLoop(base: WorkflowInstance) returns (next: Option<WorkflowInstance>, progress: bool)
      requires Valid() && phase == Top(base)
      modifies this
      ensures Valid() && old(steps) <= steps && Lower(phase, old(phase))
      ensures if next.Some? then phase == (if progress then Top(next.value) else Passing(next.value, [], false))
        else phase.Idle? && !EndedQuiet()
    {
      hide Good, Registered, MeasureOf, Run, Below;
      ghost var top := phase;
      var todo: seq<AttemptId>;
      next, todo, progress := OpenPass(base);
      if next.None? { return; }
      ghost var filled := phase;
      next, progress := RunPass(next.value, todo, progress);
      ghost var passed := phase;
      if next.Some? && progress { Take(State(), Step.Pick); }
      BelowTransitive(phase, passed, filled);
      BelowTransitive(phase, filled, top);
    }

    /**
     `run_workflow_instance`: it ends, whatever the dispatcher answers and others write, and only takes steps of
     the run. It ends in one of two ways. Either its last step closes a pass without progress, and then nothing
     was left to run or to open in the snapshot it held; or it stopped before, because the workflow was not to be
     run, a commit was refused, the workflow was paused, or a result ended the run.
     */
    method RunWorkflowInstance() returns (ghost last: Option<Sys>)
      requires Valid() && phase.Idle?
      modifies this
      ensures Valid() && phase.Idle? && old(steps) <= steps
      ensures last.Some? <==> EndedQuiet()
      ensures last.Some? ==>
        && last.value == Run(setup, origin, steps[..|steps| - 1])
        && (forall id :: !MayRunNow(setup.def, last.value.loops, last.value.phase.base.tasks, id))
        && (forall task :: task in setup.def.tasks && task.verifier.Some? ==>
              !MayOpen(setup.def, last.value.loops, last.value.phase.base, task))
    {
      hide Good, Registered, MeasureOf, MayRunNow, MayOpen, Run;
      last := None;
      var next := Load();
      if next.None? { return; }
      next := Begin(next.value);
      if next.None? { return; }
      next := Initialise(next.value);
      if next.None? { return; }
      var base, progress := next.value, true;
      while progress
        invariant Valid() && old(steps) <= steps
        invariant phase == if progress then Top(base) else Passing(base, [], false)
        decreases MeasureOf(setup.def, phase).stage, MeasureOf(setup.def, phase).work, MeasureOf(setup.def, phase).place
      {
        next, progress := TurnOfLoop(base);
        if next.None? { return; }
        base := next.value;
      }
      Conclude(base, Step.Pick);
      last := Some(Run(setup, origin, steps[..|steps| - 1]));
      QuietEnd();
    }

    /** Closing a pass quietly means nothing was runnable and no loop could open. */
    lemma QuietEnd()
      requires Valid() && EndedQuiet()
      ensures var before := Run(setup, origin, steps[..|steps| - 1]);
        && (forall id :: !MayRunNow(setup.def, before.loops, before.phase.base.tasks, id))
        && (forall task :: task in setup.def.tasks && task.verifier.Some? ==>
              !MayOpen(setup.def, before.loops, before.phase.base, task))
    {
      hide Good, Registered, MayRunNow, MayOpen, Run;
      RunIsGood(setup, origin, steps[..|steps| - 1]);
      StopsOnlyWhenQuiescent(setup, Run(setup, origin, steps[..|steps| - 1]));
    }
  }
}
