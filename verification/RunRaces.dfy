/**
 Races between the dispatch of an attempt and everybody else who writes the instance: when a result is
 recorded, and when it is lost.
 */
module RunRaces {
  import opened Prelude
  import opened JsonValues
  import opened AttemptIds
  import opened Model
  import opened Reducer
  import opened LoopSlices
  import opened Engine
  import opened EngineEffects
  import opened EngineInvariants
  import opened EngineSteps
  import opened FieldReadings
  import opened PauseRebase
  import opened WorkflowRuns
  import opened RunInvariants
  import opened RunSafety
  import opened RunHistory
  import opened RunAttempts
  import opened RunTermination
  import opened RunTheorems

  // ---------------------------------------------------------------------------
  // Writes by others

  ghost predicate ByOthers(steps: seq<Step>) {
    forall k :: 0 <= k < |steps| ==> !IsEngineStep(steps[k])
  }

  /** The engine stands where it stood; the store is as it was, or newer by the events appended. */
  ghost predicate Overtaken(s: Sys, t: Sys) {
    && t.phase == s.phase && t.loops == s.loops && s.log <= t.log
    && t.snapshot.version == s.snapshot.version + (|t.log| - |s.log|)
    && (|t.log| == |s.log| ==> t == s)
  }

  lemma WrittenOvertakes(s: Sys, guard: bool, event: Event)
    ensures Overtaken(s, Written(s, guard, event))
  {
  }

  lemma OtherOvertakes(setup: Setup, s: Sys, step: Step)
    requires !IsEngineStep(step)
    ensures Overtaken(s, Next(setup, s, step))
  {
    hide Overtaken, Written;
    match step {
      case Pause => WrittenOvertakes(s, MayRun(s.snapshot.status), WorkflowStatusChanged(Paused));
      case Resume => WrittenOvertakes(s, s.snapshot.status.Paused?, WorkflowStatusChanged(WorkflowStatus.Pending));
      case LoseHost(host) =>
        WrittenOvertakes(s, !s.snapshot.status.Completed? && !s.snapshot.status.Failed?
          && s.snapshot.pinnedWorkerHost == Some(host),
                         WorkflowStatusChanged(WorkflowStatus.Failed));
      case SubmitInput(id, input) =>
        if id in s.snapshot.tasks {
          var next := AttemptId(s.snapshot.tasks[id].taskDefId, s.snapshot.tasks[id].generationIndex + 1);
          WrittenOvertakes(s, s.snapshot.status.InputNeeded? && s.snapshot.tasks[id].status.InputNeeded?
            && next !in s.snapshot.tasks,
                           HumanInputSubmitted(id, next, input));
        } else {
          NothingOvertakes(s);
        }
      case Retry(id) => WrittenOvertakes(s, Retryable(s.snapshot, id), TaskRetryRequested(id));
      case ForceRetry(id, target) =>
        var pin := s.snapshot.pinnedWorkerHost;
        WrittenOvertakes(s, Retryable(s.snapshot, id), TaskForceRetryRequested(id, pin, target, pin != Some(target)));
      case Recover(ids) =>
        WrittenOvertakes(s, s.phase.Idle? && MayRun(s.snapshot.status) && Distinct(ids)
          && (set x | x in ids) == RunningIds(s.snapshot.tasks)
                            && (s.snapshot.status.Running? || ids != []), StartupRecoveryApplied(ids));
    }
  }

  lemma NothingOvertakes(s: Sys)
    ensures Overtaken(s, s)
  {
  }

  lemma OvertakenTwice(s: Sys, t: Sys, u: Sys)
    requires Overtaken(s, t) && Overtaken(t, u)
    ensures Overtaken(s, u)
  {
  }

  lemma {:induction false} OthersOvertake(setup: Setup, s: Sys, steps: seq<Step>)
    requires ByOthers(steps)
    ensures Overtaken(s, Run(setup, s, steps))
    decreases |steps|
  {
    hide Overtaken, Next;
    if steps == [] {
      NothingOvertakes(s);
    } else {
      var t := Next(setup, s, steps[0]);
      OtherOvertakes(setup, s, steps[0]);
      OthersOvertake(setup, t, steps[1..]);
      OvertakenTwice(s, t, Run(setup, t, steps[1..]));
    }
  }

  // ---------------------------------------------------------------------------
  // One commit

  /** A result batch ends its attempt, so it is never empty. */
  lemma ResultBatchNotEmpty(def: WorkflowDef, loops: Loops, i: WorkflowInstance, id: AttemptId, r: ResolvedInputs,
      batch: ResultBatch)
    requires AcceptedBatch(def, loops, i, id, r, batch) && i.tasks[id].status.Running?
    ensures id in Reduce(i, batch.events).value.tasks && !Reduce(i, batch.events).value.tasks[id].status.Running?
    ensures batch.events != []
  {
  }

  lemma BatchLands(s: Sys, todo: seq<AttemptId>, onto: WorkflowInstance, batch: ResultBatch)
    requires todo != [] && batch.Batch? && batch.events != [] && Reduce(onto, batch.events).Success?
    requires onto.version == s.snapshot.version ==> onto == s.snapshot
    ensures var t := RecordBatch(s, todo, onto, batch);
      if onto.version == s.snapshot.version
      then t.log == s.log + batch.events && t.snapshot.tasks == Reduce(onto, batch.events).value.tasks
      else t == s.(phase := Idle)
  {
  }

  lemma RecordingReady(setup: Setup, s: Sys)
    requires Registered(setup.def) && Good(setup, s) && s.phase.Recording?
    ensures Dispatching(setup, s.phase)
    ensures AcceptedBatch(setup.def, s.loops, s.phase.onto, s.phase.todo[0], InputsOf(setup, s),
      BatchOf(setup, s, s.phase.answer))
    ensures s.phase.todo[0] in s.phase.onto.tasks && s.phase.onto.tasks[s.phase.todo[0]].status.Running?
    ensures s.phase.onto.tasks == s.snapshot.tasks
    ensures s.phase.onto.version == s.snapshot.version ==> s.phase.onto == s.snapshot
  {
    RegisteredSlices(setup.def, s.loops);
    var base, todo, onto := s.phase.base, s.phase.todo, s.phase.onto;
    BaseIsGood(setup, s, base);
    AwaitingIsDispatched(setup, s, base, todo);
    RecordStores(setup, s, base, todo, onto, TaskOf(setup, s.phase), s.phase.answer);
  }

  /** A result lands exactly if the snapshot it is committed on is still the stored one. */
  lemma RecordLandsExactlyWhen(setup: Setup, s: Sys)
    requires Registered(setup.def) && Good(setup, s) && s.phase.Recording?
    ensures Dispatching(setup, s.phase)
    ensures var batch, t := BatchOf(setup, s, s.phase.answer), AfterRecord(setup, s);
      var lands := s.phase.onto.version == s.snapshot.version;
      && batch.Batch?
      && t.log == s.log + (if lands then batch.events else [])
      && s.phase.todo[0] in t.snapshot.tasks && (t.snapshot.tasks[s.phase.todo[0]].status.Running? <==> !lands)
      && (!lands ==> t == s.(phase := Idle))
  {
    hide Good, Registered, ResultEvents, ResultStep, RecordBatch;
    RecordingReady(setup, s);
    var onto, id, batch := s.phase.onto, s.phase.todo[0], BatchOf(setup, s, s.phase.answer);
    ResultBatchNotEmpty(setup.def, s.loops, onto, id, InputsOf(setup, s), batch);
    BatchLands(s, s.phase.todo, onto, batch);
  }

  /** Reading the store: the commit base is the stored snapshot if that is paused, else the engine's own. */
  lemma AnswerReads(setup: Setup, s: Sys, answer: DispatchAnswer)
    requires s.phase.Waiting? && Dispatching(setup, s.phase) && InputsAccepted(setup, s)
      && BatchOf(setup, s, answer).Batch?
    ensures AfterAnswer(setup, s, answer)
      == s.(phase := Recording(s.phase.base, s.phase.todo, if s.snapshot.status.Paused? then s.snapshot
        else s.phase.base, answer))
  {
  }

  // ---------------------------------------------------------------------------
  // The whole exchange

  /** What a batch is computed from: the engine's own snapshot and slices. */
  lemma SameDispatch(setup: Setup, s: Sys, t: Sys, answer: DispatchAnswer)
    requires Dispatching(setup, s.phase) && (t.phase.Waiting? || t.phase.Recording?)
    requires t.phase.base == s.phase.base && t.phase.todo == s.phase.todo && t.loops == s.loops
    ensures Dispatching(setup, t.phase) && BatchOf(setup, t, answer) == BatchOf(setup, s, answer)
    ensures InputsAccepted(setup, t) <==> InputsAccepted(setup, s)
  {
  }

  lemma WaitingDispatch(setup: Setup, s: Sys)
    requires Registered(setup.def) && Good(setup, s) && s.phase.Waiting?
    ensures Dispatching(setup, s.phase) && forall answer :: BatchOf(setup, s, answer).Batch?
  {
    RegisteredSlices(setup.def, s.loops);
    BaseIsGood(setup, s, s.phase.base);
    WaitingAccepted(setup, s, s.phase.base, s.phase.todo);
  }

  lemma OneStep(setup: Setup, s: Sys, step: Step)
    ensures Run(setup, s, [step]) == Next(setup, s, step)
  {
    assert [step][1..] == [];
    assert Run(setup, Next(setup, s, step), []) == Next(setup, s, step);
  }

  /** Others write `xs` until the engine reads the store, and `ys` until it commits. */
  lemma Exchange(setup: Setup, s: Sys, xs: seq<Step>, answer: DispatchAnswer, ys: seq<Step>)
    ensures var q := Run(setup, AfterAnswer(setup, Run(setup, s, xs), answer), ys);
      && Run(setup, s, xs + [Answer(answer)] + ys) == q
      && Run(setup, s, xs + [Answer(answer)] + ys + [Record]) == AfterRecord(setup, q)
  {
    hide Next, Run;
    RunThenRun(setup, s, xs, [Answer(answer)]);
    OneStep(setup, Run(setup, s, xs), Answer(answer));
    RunThenRun(setup, s, xs + [Answer(answer)], ys);
    RunThenRun(setup, s, xs + [Answer(answer)] + ys, [Record]);
    var q := Run(setup, AfterAnswer(setup, Run(setup, s, xs), answer), ys);
    OneStep(setup, q, Record);
    NextAnswer(setup, Run(setup, s, xs), answer);
    NextRecord(setup, q);
  }

  lemma NextAnswer(setup: Setup, s: Sys, answer: DispatchAnswer)
    ensures Next(setup, s, Answer(answer)) == AfterAnswer(setup, s, answer)
  {
  }

  lemma NextRecord(setup: Setup, s: Sys)
    ensures Next(setup, s, Record) == AfterRecord(setup, s)
  {
  }

  /** Where the engine stands when it commits, and what it commits on. */
  lemma ExchangeStands(setup: Setup, s: Sys, xs: seq<Step>, answer: DispatchAnswer, ys: seq<Step>)
    requires Registered(setup.def) && Good(setup, s) && s.phase.Waiting? && ByOthers(xs) && ByOthers(ys)
    requires Dispatching(setup, s.phase) && InputsAccepted(setup, s)
    ensures var p := Run(setup, s, xs);
      var q := Run(setup, AfterAnswer(setup, p, answer), ys);
      && Good(setup, q) && q.loops == s.loops
      && q.phase == Recording(s.phase.base, s.phase.todo, if p.snapshot.status.Paused? then p.snapshot
        else s.phase.base, answer)
      && s.phase.base.version <= p.snapshot.version <= q.snapshot.version
      && (q.log == p.log <==> q.snapshot.version == p.snapshot.version)
  {
    hide Run, Next;
    var p := Run(setup, s, xs);
    OthersOvertake(setup, s, xs);
    RunIsGood(setup, s, xs);
    WaitingDispatch(setup, p);
    SameDispatch(setup, s, p, answer);
    AnswerReads(setup, p, answer);
    var answered := AfterAnswer(setup, p, answer);
    StepIsGood(setup, p, Answer(answer));
    NextAnswer(setup, p, answer);
    OthersOvertake(setup, answered, ys);
    RunIsGood(setup, answered, ys);
  }

  /**
   When the result of a dispatch is recorded, whatever others do meanwhile. They take the steps `xs` between the
   start of the attempt and the engine's look at the store, and `ys` between that look and its commit. The batch is
   stored exactly if nobody had written up to the look, or the workflow was paused at it, and nobody wrote after
   it. Otherwise the commit changes nothing, the run ends, and the attempt stays Running.
   */
  lemma ResultLandsExactlyWhen(setup: Setup, s: Sys, xs: seq<Step>, answer: DispatchAnswer, ys: seq<Step>)
    requires Registered(setup.def) && Good(setup, s) && s.phase.Waiting? && ByOthers(xs) && ByOthers(ys)
    ensures Dispatching(setup, s.phase)
    ensures InputsAccepted(setup, s) ==>
      var p := Run(setup, s, xs);
      var q := Run(setup, s, xs + [Answer(answer)] + ys);
      var t := Run(setup, s, xs + [Answer(answer)] + ys + [Record]);
      var lands := (p.snapshot.version == s.phase.base.version || p.snapshot.status.Paused?) && q.log == p.log;
      && BatchOf(setup, s, answer).Batch?
      && t.log == q.log + (if lands then BatchOf(setup, s, answer).events else [])
      && s.phase.todo[0] in t.snapshot.tasks && (t.snapshot.tasks[s.phase.todo[0]].status.Running? <==> !lands)
      && (!lands ==> t == q.(phase := Idle))
  {
    hide Run, Next, InputsAccepted, ResultEvents, PhaseOk, GoodStore, AfterAnswer, AfterRecord;
    WaitingDispatch(setup, s);
    if InputsAccepted(setup, s) {
      Exchange(setup, s, xs, answer, ys);
      ExchangeStands(setup, s, xs, answer, ys);
      var q := Run(setup, s, xs + [Answer(answer)] + ys);
      RecordLandsExactlyWhen(setup, q);
      SameDispatch(setup, s, q, answer);
    }
  }

  // ---------------------------------------------------------------------------
  // Pauses that lose a result

  lemma StatusWritten(s: Sys, status: WorkflowStatus)
    ensures var t := Written(s, true, WorkflowStatusChanged(status));
      && t.snapshot == s.snapshot.(status := status, version := s.snapshot.version + 1)
      && t.phase == s.phase && t.loops == s.loops && t.log == s.log + [WorkflowStatusChanged(status)]
  {
    Reduce1(s.snapshot, WorkflowStatusChanged(status));
  }

  lemma PauseWrites(setup: Setup, s: Sys)
    requires MayRun(s.snapshot.status)
    ensures var t := Run(setup, s, [Pause]);
      && t.snapshot == s.snapshot.(status := Paused, version := s.snapshot.version + 1)
      && t.phase == s.phase && t.loops == s.loops && t.log == s.log + [WorkflowStatusChanged(Paused)]
  {
    OneStep(setup, s, Pause);
    StatusWritten(s, Paused);
  }

  lemma PausedAndResumed(setup: Setup, s: Sys)
    requires MayRun(s.snapshot.status)
    ensures var t := Run(setup, s, [Pause, Resume]);
      && t.snapshot == s.snapshot.(status := WorkflowStatus.Pending, version := s.snapshot.version + 2)
      && t.phase == s.phase && t.loops == s.loops
  {
    PauseWrites(setup, s);
    var paused := Run(setup, s, [Pause]);
    StatusWritten(paused, WorkflowStatus.Pending);
    OneStep(setup, paused, Resume);
    RunThenRun(setup, s, [Pause], [Resume]);
    assert [Pause] + [Resume] == [Pause, Resume];
  }

  /** A result that does not land leaves the store as the others left it, and the attempt Running. */
  lemma LostResult(setup: Setup, s: Sys, xs: seq<Step>, answer: DispatchAnswer, ys: seq<Step>)
    requires Registered(setup.def) && Good(setup, s) && s.phase.Waiting? && ByOthers(xs) && ByOthers(ys)
    ensures Dispatching(setup, s.phase)
    ensures var p := Run(setup, s, xs);
      var q := Run(setup, AfterAnswer(setup, p, answer), ys);
      var t := Run(setup, s, xs + [Answer(answer)] + ys + [Record]);
      InputsAccepted(setup, s)
        && (q.log != p.log || (p.snapshot.version != s.phase.base.version && !p.snapshot.status.Paused?)) ==>
        && t.phase.Idle? && t.snapshot == q.snapshot
        && s.phase.todo[0] in t.snapshot.tasks && t.snapshot.tasks[s.phase.todo[0]].status.Running?
  {
    hide Good, Registered, Run, Next, InputsAccepted, ResultEvents, AfterAnswer, AfterRecord, ByOthers;
    ResultLandsExactlyWhen(setup, s, xs, answer, ys);
    Exchange(setup, s, xs, answer, ys);
  }

  /** A pause and a resume during a dispatch lose its result: the commit is refused and the attempt stays Running. */
  lemma ResumeDuringDispatchLosesResult(setup: Setup, s: Sys, answer: DispatchAnswer)
    requires Registered(setup.def) && Good(setup, s) && s.phase.Waiting? && MayRun(s.snapshot.status)
    ensures Dispatching(setup, s.phase)
    ensures InputsAccepted(setup, s) ==>
      var t := Run(setup, s, [Pause, Resume, Answer(answer), Record]);
      && t.phase.Idle? && t.snapshot.tasks == s.snapshot.tasks && t.snapshot.verifierStates == s.snapshot.verifierStates
      && t.snapshot.status.Pending? && s.phase.todo[0] in t.snapshot.tasks
        && t.snapshot.tasks[s.phase.todo[0]].status.Running?
  {
    hide Good, Registered, Run, Next, InputsAccepted, Dispatching, AfterAnswer, ByOthers, PhaseOk;
    var xs := [Pause, Resume];
    BaseNotNewer(setup, s);
    TwoByOthers(Pause, Resume);
    LostResult(setup, s, xs, answer, []);
    PausedAndResumed(setup, s);
    AnswerKeepsStore(setup, Run(setup, s, xs), answer);
    NoSteps(setup, AfterAnswer(setup, Run(setup, s, xs), answer));
    FourSteps(Pause, Resume, Answer(answer), Record);
  }

  /** One pause alone does, if it falls between the engine's look at the store and its commit. */
  lemma PauseBeforeCommitLosesResult(setup: Setup, s: Sys, answer: DispatchAnswer)
    requires Registered(setup.def) && Good(setup, s) && s.phase.Waiting? && MayRun(s.snapshot.status)
    ensures Dispatching(setup, s.phase)
    ensures InputsAccepted(setup, s) ==>
      var t := Run(setup, s, [Answer(answer), Pause, Record]);
      && t.phase.Idle? && t.snapshot.tasks == s.snapshot.tasks && t.snapshot.verifierStates == s.snapshot.verifierStates
      && t.snapshot.status.Paused? && s.phase.todo[0] in t.snapshot.tasks
        && t.snapshot.tasks[s.phase.todo[0]].status.Running?
  {
    hide Good, Registered, Run, Next, InputsAccepted, Dispatching, AfterAnswer;
    LostResult(setup, s, [], answer, [Pause]);
    NoSteps(setup, s);
    AnswerKeepsStore(setup, s, answer);
    PauseWrites(setup, AfterAnswer(setup, s, answer));
    assert [] + [Answer(answer)] + [Pause] + [Record] == [Answer(answer), Pause, Record];
  }

  lemma BaseNotNewer(setup: Setup, s: Sys)
    requires Good(setup, s) && s.phase.Waiting?
    ensures s.phase.base.version <= s.snapshot.version
  {
  }

  lemma FourSteps(a: Step, b: Step, c: Step, d: Step)
    ensures [a, b] + [c] + [] + [d] == [a, b, c, d]
  {
  }

  lemma TwoByOthers(a: Step, b: Step)
    requires !IsEngineStep(a) && !IsEngineStep(b)
    ensures ByOthers([a, b]) && ByOthers([])
  {
  }

  lemma NoSteps(setup: Setup, s: Sys)
    ensures Run(setup, s, []) == s
  {
  }

  lemma AnswerKeepsStore(setup: Setup, s: Sys, answer: DispatchAnswer)
    ensures AfterAnswer(setup, s, answer).snapshot == s.snapshot && AfterAnswer(setup, s, answer).log == s.log
  {
  }

  // ---------------------------------------------------------------------------
  // The pause boundary

  lemma DoneIgnoresVersion(def: WorkflowDef, loops: Loops, i: WorkflowInstance, version: nat)
    ensures WorkflowAllCompleted(i.(version := version), def, loops) <==> WorkflowAllCompleted(i, def, loops)
  {
  }

  lemma RecordStoresPaused(s: Sys, todo: seq<AttemptId>, batch: ResultBatch)
    requires todo != [] && batch.Batch? && batch.events != [] && Reduce(s.snapshot, batch.events).Success?
    requires batch.outcome.Proceed? <==> Reduce(s.snapshot, batch.events).value.status.Paused?
    ensures var k, t := Reduce(s.snapshot, batch.events).value, RecordBatch(s, todo, s.snapshot, batch);
      && t.snapshot == k.(version := t.snapshot.version) && t.loops == s.loops
      && t.phase == (if batch.outcome.Proceed? then Boundary(t.snapshot) else Idle)
  {
  }

  lemma BoundarySettles(setup: Setup, s: Sys)
    requires s.phase == Boundary(s.snapshot)
    ensures var t := AfterSettle(setup, s);
      && t.phase.Idle? && t.loops == s.loops
      && t.snapshot == s.snapshot.(version := t.snapshot.version,
           status := if WorkflowAllCompleted(s.snapshot, setup.def, s.loops) then WorkflowStatus.Completed
             else s.snapshot.status)
  {
    Reduce1(s.snapshot, WorkflowStatusChanged(WorkflowStatus.Completed));
  }

  lemma IdleSettles(setup: Setup, s: Sys)
    requires s.phase.Idle?
    ensures AfterSettle(setup, s) == s
  {
  }

  lemma RecordThenSettle(setup: Setup, s: Sys)
    ensures Run(setup, s, [Record, Settle]) == AfterSettle(setup, AfterRecord(setup, s))
  {
    hide AfterRecord, AfterSettle;
    assert [Record, Settle][1..] == [Settle];
    OneStep(setup, AfterRecord(setup, s), Settle);
  }

  lemma EndingStatus(def: WorkflowDef, loops: Loops, i: WorkflowInstance, id: AttemptId, r: ResolvedInputs,
      batch: ResultBatch)
    requires AcceptedBatch(def, loops, i, id, r, batch) && !batch.outcome.Proceed?
    ensures var status := Reduce(i, batch.events).value.status; status.Failed? || status.InputNeeded?
  {
  }

  lemma ResultKeys(setup: Setup, q: Sys)
    requires Registered(setup.def) && Good(setup, q) && q.phase.Recording? && q.phase.onto == q.snapshot
    requires Dispatching(setup, q.phase) && BatchOf(setup, q, q.phase.answer).Batch?
    requires Reduce(q.snapshot, BatchOf(setup, q, q.phase.answer).events).Success?
    ensures KeysMatch(setup.def, Reduce(q.snapshot, BatchOf(setup, q, q.phase.answer).events).value.tasks)
  {
    hide ResultEvents, Reduce, Registered, LoopShape, LoopFeeding, LoopsOf, Replayed, ResultStep, WorkflowAllCompleted,
      Initialised, StatesBounded, Dormant, SatisfiedIsSelected, VerifierChain, SettledIsFinal, FailureIsTerminal,
      Provenance, DispatchInputs, Evolves, Plan;
    RegisteredSlices(setup.def, q.loops);
    BaseIsGood(setup, q, q.phase.base);
    ResultOnto(setup, q, q.phase.base, q.phase.todo, q.snapshot, TaskOf(setup, q.phase), q.phase.answer);
  }

  /**
   A result recorded on a paused snapshot that is still current, and the pause boundary behind it. With `k` the
   batch reduced onto that snapshot: the workflow stays Paused exactly if the answer lets the pass go on and `k` is
   not all done, is Completed exactly if it lets the pass go on and `k` is all done, and otherwise has the status
   the batch carries, Failed or InputNeeded.
   */
  lemma PausedResultSettles(setup: Setup, s: Sys)
    requires Registered(setup.def) && Good(setup, s) && s.phase.Recording? && s.phase.onto.status.Paused?
    requires s.phase.onto.version == s.snapshot.version
    ensures Dispatching(setup, s.phase)
    ensures var batch, t := BatchOf(setup, s, s.phase.answer), Run(setup, s, [Record, Settle]);
      var goesOn := PassGoesOn(setup.valid, s.loops, s.phase.base, s.phase.todo[0], TaskOf(setup, s.phase),
        s.phase.answer);
      && batch.Batch? && Reduce(s.snapshot, batch.events).Success?
      && var k := Reduce(s.snapshot, batch.events).value;
      var done := AllDone(setup.def, s.loops, k);
      && t.phase.Idle? && t.snapshot == k.(status := t.snapshot.status, version := t.snapshot.version)
      && (t.snapshot.status.Paused? <==> goesOn && !done)
      && (t.snapshot.status.Completed? <==> goesOn && done)
      && (!goesOn ==> t.snapshot.status == k.status && (k.status.Failed? || k.status.InputNeeded?))
  {
    hide Good, Registered, Run, ResultEvents, ResultStep, RecordBatch, PassGoesOn, WorkflowAllCompleted, AfterSettle,
      NoStatus, InputsOf, AllDone;
    ResultUnderPause(setup, s);
    RecordingReady(setup, s);
    var batch := BatchOf(setup, s, s.phase.answer);
    ResultKeys(setup, s);
    DoneExactlyWhen(setup.def, s.loops, Reduce(s.snapshot, batch.events).value);
    ResultBatchNotEmpty(setup.def, s.loops, s.snapshot, s.phase.todo[0], InputsOf(setup, s), batch);
    RecordThenSettle(setup, s);
    RecordStoresPaused(s, s.phase.todo, batch);
    var recorded := AfterRecord(setup, s);
    DoneIgnoresVersion(setup.def, s.loops, Reduce(s.snapshot, batch.events).value, recorded.snapshot.version);
    if batch.outcome.Proceed? {
      BoundarySettles(setup, recorded);
    } else {
      EndingStatus(setup.def, s.loops, s.snapshot, s.phase.todo[0], InputsOf(setup, s), batch);
      IdleSettles(setup, recorded);
    }
  }
}
