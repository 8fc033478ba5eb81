/**
 Loops without human input iterate as a whole: a generation is created for the whole slice, its tasks run in the
 order of their bindings, and the verifier runs last. So what was runnable at the start of a pass stays so.
 */
module WholeGenerations {
  import opened Prelude
  import opened JsonValues
  import opened AttemptIds
  import opened Model
  import opened Reducer
  import opened LoopSlices
  import opened Engine
  import opened EngineEffects
  import opened EngineInvariants
  import opened EngineSteps
  import opened OpeningAndRecovery

  // ---------------------------------------------------------------------------
  // Every task of a slice leads to its verifier inside the slice

  ghost predicate LeadsInside(def: WorkflowDef, slice: seq<TaskId>, v: TaskId, p: seq<TaskId>) {
    |p| > 0 && p[|p| - 1] == v && IsPath(EdgesOf(def), p) && forall k :: 0 <= k < |p| ==> p[k] in slice
  }

  lemma PathInside(def: WorkflowDef, loops: Loops, v: TaskId, t: TaskId) returns (p: seq<TaskId>)
    requires Registered(def) && LoopsOf(def, loops) && v in loops.body && t in loops.body[v]
    ensures LeadsInside(def, loops.body[v], v, p) && p[0] == t
  {
    var task := TaskOfVerifier(def, v);
    p := PathToVerifier(def, loops, v, task, t);
    forall k | 0 <= k < |p| ensures p[k] in loops.body[v] {
      OnPathInside(def, task, v, p, k);
    }
  }

  lemma PathToVerifier(def: WorkflowDef, loops: Loops, v: TaskId, task: TaskDef, t: TaskId) returns (p: seq<TaskId>)
    requires Registered(def) && LoopsOf(def, loops) && v in loops.body && t in loops.body[v]
    requires task in def.tasks && task.verifier.Some? && task.id == v
    ensures loops.body[v] == SliceOf(def, task) && PathFromTo(EdgesOf(def), p, t, v)
    ensures Reaches(EdgesOf(def), task.RerunStart(), t) && t in TaskIds(def)
  {
    hide Registered, PathFromTo;
    SliceMembers(def, task, t);
    p :| PathFromTo(EdgesOf(def), p, t, v);
  }

  lemma OnPathInside(def: WorkflowDef, task: TaskDef, v: TaskId, p: seq<TaskId>, k: nat)
    requires Registered(def) && task in def.tasks && task.verifier.Some? && task.id == v
    requires k < |p| && PathFromTo(EdgesOf(def), p, p[0], v)
    requires Reaches(EdgesOf(def), task.RerunStart(), p[0]) && p[0] in TaskIds(def)
    ensures p[k] in SliceOf(def, task)
  {
    hide Registered, EdgesOf, SliceOf, TaskIds;
    var edges := EdgesOf(def);
    assert PathFromTo(edges, p[..k + 1], p[0], p[k]);
    assert PathFromTo(edges, p[k..], p[k], v);
    ReachesTransitive(edges, task.RerunStart(), p[0], p[k]);
    if k > 0 { TargetDefined(def, p[k - 1], p[k]); }
    SliceMembers(def, task, p[k]);
  }

  lemma TargetDefined(def: WorkflowDef, source: TaskId, target: TaskId)
    requires Registered(def) && (source, target) in EdgesOf(def)
    ensures target in TaskIds(def)
  {
    var k :| 0 <= k < |def.dataBindings|
      && (def.dataBindings[k].source, def.dataBindings[k].target) == (source, target);
    assert def.dataBindings[k] in def.dataBindings;
  }

  lemma BindingOfEdge(def: WorkflowDef, source: TaskId, target: TaskId) returns (b: DataBinding)
    requires (source, target) in EdgesOf(def)
    ensures b in def.dataBindings && b.source == source && b.target == target
  {
    var k :| 0 <= k < |def.dataBindings|
      && (def.dataBindings[k].source, def.dataBindings[k].target) == (source, target);
    b := def.dataBindings[k];
  }

  // ---------------------------------------------------------------------------
  // Generations in step

  predicate HasStarted(task: TaskInstance) {
    !task.status.Pending? && !task.status.Skipped?
  }

  /** The tasks of a slice have the same generations. */
  ghost predicate Lockstep(loops: Loops, tasks: Tasks) {
    forall v, t, g :: v in loops.body && t in loops.body[v] ==> (AttemptId(t, g) in tasks <==> AttemptId(v, g) in tasks)
  }

  /** A generation is followed by the next only when it is done. */
  ghost predicate OldDone(loops: Loops, tasks: Tasks) {
    forall v, x :: v in loops.body && x in tasks && x.taskDefId in loops.body[v]
           && AttemptId(v, x.generation + 1) in tasks
      ==> tasks[x].status.Completed?
  }

  /** What has started inside a slice was fed by completed attempts of its own generation. */
  ghost predicate FedInside(def: WorkflowDef, loops: Loops, tasks: Tasks) {
    forall v, x, b ::
      (v in loops.body && x in tasks && x.taskDefId in loops.body[v] && HasStarted(tasks[x])
       && b in def.dataBindings && b.target == x.taskDefId && b.source in loops.body[v])
      ==> DoneAt(tasks, b.source, x.generation)
  }

  predicate DoneAt(tasks: Tasks, t: TaskId, g: nat) {
    AttemptId(t, g) in tasks && tasks[AttemptId(t, g)].status.Completed?
  }

  ghost predicate InStep(def: WorkflowDef, loops: Loops, tasks: Tasks) {
    Lockstep(loops, tasks) && OldDone(loops, tasks) && FedInside(def, loops, tasks)
  }

  lemma SameGenerations(loops: Loops, tasks: Tasks, v: TaskId, t: TaskId, g: nat)
    requires Lockstep(loops, tasks) && v in loops.body && t in loops.body[v]
    ensures AttemptId(t, g) in tasks <==> AttemptId(v, g) in tasks
  {
  }

  lemma DoneBefore(loops: Loops, tasks: Tasks, v: TaskId, x: AttemptId)
    requires OldDone(loops, tasks) && v in loops.body && x in tasks && x.taskDefId in loops.body[v]
    requires AttemptId(v, x.generation + 1) in tasks
    ensures tasks[x].status.Completed?
  {
  }

  lemma FedByOwn(def: WorkflowDef, loops: Loops, tasks: Tasks, v: TaskId, x: AttemptId, b: DataBinding)
    requires FedInside(def, loops, tasks) && v in loops.body && x in tasks && x.taskDefId in loops.body[v]
    requires HasStarted(tasks[x]) && b in def.dataBindings && b.target == x.taskDefId && b.source in loops.body[v]
    ensures DoneAt(tasks, b.source, x.generation)
  {
  }

  lemma {:induction false} DoneAlong(def: WorkflowDef, loops: Loops, tasks: Tasks, v: TaskId, g: nat, p: seq<TaskId>,
      k: nat)
    requires FedInside(def, loops, tasks) && v in loops.body && LeadsInside(def, loops.body[v], v, p) && k < |p|
    requires AttemptId(v, g) in tasks && HasStarted(tasks[AttemptId(v, g)])
    ensures AttemptId(p[k], g) in tasks && HasStarted(tasks[AttemptId(p[k], g)])
    ensures k < |p| - 1 ==> DoneAt(tasks, p[k], g)
    decreases |p| - k
  {
    hide FedInside;
    if k < |p| - 1 {
      DoneAlong(def, loops, tasks, v, g, p, k + 1);
      assert (p[k], p[k + 1]) in EdgesOf(def);
      var b := BindingOfEdge(def, p[k], p[k + 1]);
      FedByOwn(def, loops, tasks, v, AttemptId(p[k + 1], g), b);
    }
  }

  /** The verifier runs last: once it has started, every other task of its generation is done. */
  lemma VerifierRunsLast(def: WorkflowDef, loops: Loops, tasks: Tasks, v: TaskId, g: nat, t: TaskId)
    requires Registered(def) && LoopsOf(def, loops) && FedInside(def, loops, tasks)
    requires v in loops.body && t in loops.body[v] && t != v
    requires AttemptId(v, g) in tasks && HasStarted(tasks[AttemptId(v, g)])
    ensures DoneAt(tasks, t, g)
  {
    var p := PathInside(def, loops, v, t);
    DoneAlong(def, loops, tasks, v, g, p, 0);
  }

  /** The generation a loop has accepted is whole: every task of the slice completed it. */
  lemma SelectedIsWhole(def: WorkflowDef, loops: Loops, i: WorkflowInstance, v: TaskId, t: TaskId)
    requires Registered(def) && LoopsOf(def, loops) && Inv(def, loops, i) && InStep(def, loops, i.tasks)
    requires v in loops.body && v in i.verifierStates && i.verifierStates[v].Settled() && t in loops.body[v]
    ensures i.verifierStates[v].selectedGeneration.Some?
      && DoneAt(i.tasks, t, i.verifierStates[v].selectedGeneration.value)
  {
    assert FinalAttempt(i.tasks, v, i.verifierStates[v].selectedGeneration);
    if t != v { VerifierRunsLast(def, loops, i.tasks, v, i.verifierStates[v].selectedGeneration.value, t); }
  }

  // ---------------------------------------------------------------------------
  // Sources after a result

  /** The source lies in the slice of the consumer, as resolution sees it. */
  predicate InsideOf(loops: Loops, t: TaskId, source: TaskId) {
    var owner := FirstSliceWith(loops, loops.order, t);
    owner.Some? && owner.value in loops.body && source in loops.body[owner.value]
  }

  /** The latest attempt of a task was there before. */
  predicate LatestIsOld(before: Tasks, after: Tasks, t: TaskId) {
    var latest := LatestAttempt(after, t, false);
    latest.Some? && latest.value in before
  }

  lemma InsideAfterResult(def: WorkflowDef, loops: Loops, i: WorkflowInstance, id: AttemptId, r: ResolvedInputs,
      j: WorkflowInstance, u: TaskId, a: AttemptId)
    requires KeysMatch(def, i.tasks) && KeysMatch(def, j.tasks) && ResultStep(def, loops, i, id, r, j) && Evolves(i, j)
    requires LatestAttempt(i.tasks, u, false) == Some(a) && a in i.tasks && i.tasks[a].status.Completed?
    ensures LatestAttempt(j.tasks, u, false).Some? && LatestAttempt(j.tasks, u, false).value in j.tasks
    ensures j.tasks[LatestAttempt(j.tasks, u, false).value].status.Completed? <==> LatestIsOld(i.tasks, j.tasks, u)
  {
    LatestAttemptIsLatest(def, i.tasks, u, false);
    LatestAttemptIsLatest(def, j.tasks, u, false);
    assert a in j.tasks && a in Candidates(j.tasks, u, false);
    var b := LatestAttempt(j.tasks, u, false).value;
    assert b in Candidates(j.tasks, u, false);
    if b in i.tasks {
      assert b in Candidates(i.tasks, u, false);
      assert b == a;
    } else {
      assert j.tasks[b] == FreshTask(b.taskDefId, b.generation, None, []);
    }
  }

  lemma OutsideAfterResult(def: WorkflowDef, loops: Loops, i: WorkflowInstance, id: AttemptId, r: ResolvedInputs,
      j: WorkflowInstance, u: TaskId, a: AttemptId)
    requires KeysMatch(def, i.tasks) && KeysMatch(def, j.tasks) && ResultStep(def, loops, i, id, r, j) && Evolves(i, j)
    requires SatisfiedIsSelected(loops, i.tasks, i.verifierStates) && i.tasks[id].status.Running?
    requires id.taskDefId in i.verifierStates ==> !i.verifierStates[id.taskDefId].Settled()
    requires a in Candidates(i.tasks, u, true)
    ensures LatestAttempt(j.tasks, u, true).Some? && LatestAttempt(j.tasks, u, true).value in j.tasks
    ensures j.tasks[LatestAttempt(j.tasks, u, true).value].status.Completed?
  {
    assert a in j.tasks && j.tasks[a].status.Completed? && a != id;
    if j.tasks[a].satisfaction != i.tasks[a].satisfaction { assert false; }
    assert a in Candidates(j.tasks, u, true);
    LatestAttemptIsLatest(def, j.tasks, u, true);
  }

  /** A source is ready if its latest attempt has completed: the latest accepted one, seen from outside its slice. */
  lemma ReadyMeansLatest(tasks: Tasks, loops: Loops, t: TaskId, u: TaskId)
    ensures SourceReady(tasks, loops, Some(t), u) <==>
      var a := LatestAttempt(tasks, u, !InsideOf(loops, t, u));
      a.Some? && a.value in tasks && tasks[a.value].status.Completed?
  {
    hide LatestAttempt, FirstSliceWith;
  }

  lemma ReadyAfterResult(def: WorkflowDef, loops: Loops, i: WorkflowInstance, id: AttemptId, r: ResolvedInputs,
      j: WorkflowInstance, t: TaskId, u: TaskId)
    requires KeysMatch(def, i.tasks) && KeysMatch(def, j.tasks) && ResultStep(def, loops, i, id, r, j) && Evolves(i, j)
    requires SatisfiedIsSelected(loops, i.tasks, i.verifierStates) && i.tasks[id].status.Running?
    requires id.taskDefId in i.verifierStates ==> !i.verifierStates[id.taskDefId].Settled()
    requires SourceReady(i.tasks, loops, Some(t), u)
    ensures SourceReady(j.tasks, loops, Some(t), u) <==> (InsideOf(loops, t, u) ==> LatestIsOld(i.tasks, j.tasks, u))
  {
    hide ResultStep, Evolves, KeysMatch, SatisfiedIsSelected, LatestAttempt, InsideOf, SourceReady;
    ReadyMeansLatest(i.tasks, loops, t, u);
    ReadyMeansLatest(j.tasks, loops, t, u);
    var a := LatestAttempt(i.tasks, u, !InsideOf(loops, t, u)).value;
    if InsideOf(loops, t, u) {
      InsideAfterResult(def, loops, i, id, r, j, u, a);
    } else {
      LatestAttemptIsLatest(def, i.tasks, u, true);
      OutsideAfterResult(def, loops, i, id, r, j, u, a);
    }
  }

  /**
   When a planned attempt stays runnable after the result of another, human input or not: exactly if the result
   has created no attempt that is now the latest of a source in the consumer's own slice. If it has, that source
   is pending, and an attempt dispatched all the same would be given empty inputs.
   */
  lemma StillRunnableExactlyWhen(def: WorkflowDef, loops: Loops, i: WorkflowInstance, id: AttemptId, r: ResolvedInputs,
      j: WorkflowInstance, x: AttemptId)
    requires KeysMatch(def, i.tasks) && KeysMatch(def, j.tasks) && ResultStep(def, loops, i, id, r, j) && Evolves(i, j)
    requires SatisfiedIsSelected(loops, i.tasks, i.verifierStates) && i.tasks[id].status.Running?
    requires id.taskDefId in i.verifierStates ==> !i.verifierStates[id.taskDefId].Settled()
    requires Runnable(i.tasks, def, loops, x) && x in j.tasks && j.tasks[x].status.Pending?
    ensures Runnable(j.tasks, def, loops, x) <==>
      forall b :: b in def.dataBindings && b.target == x.taskDefId && InsideOf(loops, x.taskDefId, b.source)
        ==> LatestIsOld(i.tasks, j.tasks, b.source)
  {
    hide ResultStep, Evolves, KeysMatch, SatisfiedIsSelected, LatestIsOld, InsideOf, SourceReady, ResolveBindings;
    var t := x.taskDefId;
    var inbound := Inbound(def.dataBindings, t);
    SameInputs(def, loops, i, id, r, j, x);
    InboundMembers(def.dataBindings, t);
    ResolvesWhenReady(i.tasks, loops, t, inbound);
    ResolvesWhenReady(j.tasks, loops, t, inbound);
    if inbound != [] {
      forall b | b in inbound
        ensures SourceReady(j.tasks, loops, Some(t), b.source)
          <==> (InsideOf(loops, t, b.source) ==> LatestIsOld(i.tasks, j.tasks, b.source))
      {
        ReadyAfterResult(def, loops, i, id, r, j, t, b.source);
      }
    }
  }

  lemma SameInputs(def: WorkflowDef, loops: Loops, i: WorkflowInstance, id: AttemptId, r: ResolvedInputs,
      j: WorkflowInstance, x: AttemptId)
    requires KeysMatch(def, i.tasks) && ResultStep(def, loops, i, id, r, j) && i.tasks[id].status.Running?
    requires x in i.tasks && i.tasks[x].status.Pending? && x in j.tasks
    ensures j.tasks[x].taskDefId == i.tasks[x].taskDefId == x.taskDefId
    ensures j.tasks[x].inputData == i.tasks[x].inputData && j.tasks[x].inputMapping == i.tasks[x].inputMapping
  {
  }

  // ---------------------------------------------------------------------------
  // Without human input

  /** An attempt of the slice of a running verifier has been completed before. */
  lemma SliceIsDone(def: WorkflowDef, loops: Loops, i: WorkflowInstance, v: TaskId, g: nat, x: AttemptId)
    requires Registered(def) && LoopsOf(def, loops) && InStep(def, loops, i.tasks)
    requires VerifierChain(loops, i.tasks) && KeysMatch(def, i.tasks) && v in loops.body
    requires AttemptId(v, g) in i.tasks && HasStarted(i.tasks[AttemptId(v, g)]) && AttemptId(v, g + 1) !in i.tasks
    requires x in i.tasks && x.taskDefId in loops.body[v] && x != AttemptId(v, g)
    ensures i.tasks[x].status.Completed?
  {
    hide Registered, LoopsOf, Lockstep, OldDone, FedInside, VerifierChain;
    SameGenerations(loops, i.tasks, v, x.taskDefId, x.generation);
    assert AttemptId(x.taskDefId, x.generation) == x;
    if x.generation > g {
      ChainReachesDown(loops, i.tasks, v, x.generation, g + 1);
    } else if x.generation < g {
      ChainReachesDown(loops, i.tasks, v, g, x.generation + 1);
      DoneBefore(loops, i.tasks, v, x);
    } else {
      VerifierRunsLast(def, loops, i.tasks, v, g, x.taskDefId);
    }
  }

  /** In step, what was runnable and is still pending stays runnable. */
  lemma StaysRunnable(def: WorkflowDef, loops: Loops, i: WorkflowInstance, id: AttemptId, r: ResolvedInputs,
      j: WorkflowInstance, x: AttemptId)
    requires Registered(def) && LoopsOf(def, loops) && LoopShape(def, loops)
    requires Inv(def, loops, i) && KeysMatch(def, j.tasks) && InStep(def, loops, i.tasks)
    requires ResultStep(def, loops, i, id, r, j) && Evolves(i, j) && i.tasks[id].status.Running?
    requires Runnable(i.tasks, def, loops, x) && x in j.tasks && j.tasks[x].status.Pending?
    ensures Runnable(j.tasks, def, loops, x)
  {
    Unsettled(def, loops, i, id);
    StillRunnableExactlyWhen(def, loops, i, id, r, j, x);
    var t := x.taskDefId;
    forall b | b in def.dataBindings && b.target == t && InsideOf(loops, t, b.source)
      ensures LatestIsOld(i.tasks, j.tasks, b.source)
    {
      SourceReadyOf(def, loops, i, x, b);
      LatestStaysOld(def, loops, i, id, r, j, x, b.source);
    }
  }

  lemma Unsettled(def: WorkflowDef, loops: Loops, i: WorkflowInstance, id: AttemptId)
    requires LoopShape(def, loops) && Inv(def, loops, i) && id in i.tasks && i.tasks[id].status.Running?
    ensures id.taskDefId in i.verifierStates ==> !i.verifierStates[id.taskDefId].Settled()
    ensures id.taskDefId in loops.body ==> AttemptId(id.taskDefId, id.generation + 1) !in i.tasks
  {
    hide Inv, KeysMatch, StatesBounded, VerifierChain, SettledIsFinal, SlicesOfVerifiers, VerifiersInOwnSlice,
      SlicesDefined, SlicesDisjoint;
    InvParts(def, loops, i);
    StatesAreVerifiers(def, loops, i, id.taskDefId);
    if id.taskDefId in loops.body { LiveVerifierUnsettled(def, loops, i, id); }
  }

  lemma StatesAreVerifiers(def: WorkflowDef, loops: Loops, i: WorkflowInstance, v: TaskId)
    requires SlicesOfVerifiers(def, loops) && StatesBounded(def, i.verifierStates)
    ensures v in i.verifierStates ==> v in loops.body
  {
  }

  lemma SourceReadyOf(def: WorkflowDef, loops: Loops, i: WorkflowInstance, x: AttemptId, b: DataBinding)
    requires KeysMatch(def, i.tasks) && Runnable(i.tasks, def, loops, x) && b in def.dataBindings
      && b.target == x.taskDefId
    ensures SourceReady(i.tasks, loops, Some(x.taskDefId), b.source)
  {
    InboundMembers(def.dataBindings, x.taskDefId);
    ResolvesWhenReady(i.tasks, loops, x.taskDefId, Inbound(def.dataBindings, x.taskDefId));
  }

  lemma InvParts(def: WorkflowDef, loops: Loops, i: WorkflowInstance)
    requires Inv(def, loops, i)
    ensures KeysMatch(def, i.tasks) && VerifierChain(loops, i.tasks)
    ensures StatesBounded(def, i.verifierStates) && SettledIsFinal(loops, i.tasks, i.verifierStates)
  {
  }

  lemma OneSlice(def: WorkflowDef, loops: Loops, u: TaskId, v: TaskId, t: TaskId)
    requires LoopShape(def, loops) && u in loops.body && v in loops.body && t in loops.body[u] && t in loops.body[v]
    ensures u == v
  {
  }

  lemma VerifierIsOwn(def: WorkflowDef, loops: Loops, u: TaskId, v: TaskId)
    requires LoopShape(def, loops) && u in loops.body && v in loops.body && u in loops.body[v]
    ensures u == v
  {
    assert u in loops.body[u];
  }

  /** While a verifier runs, everything else of its slice has been completed. */
  lemma RunningSliceIsDone(def: WorkflowDef, loops: Loops, i: WorkflowInstance, id: AttemptId, x: AttemptId)
    requires Registered(def) && LoopsOf(def, loops) && LoopShape(def, loops) && Inv(def, loops, i)
      && InStep(def, loops, i.tasks)
    requires id in i.tasks && i.tasks[id].status.Running? && id.taskDefId in loops.body
    requires x in i.tasks && x.taskDefId in loops.body[id.taskDefId] && x != id
    ensures i.tasks[x].status.Completed?
  {
    hide Registered, LoopsOf, LoopShape, Inv, InStep, KeysMatch, VerifierChain;
    InvParts(def, loops, i);
    Unsettled(def, loops, i, id);
    assert AttemptId(id.taskDefId, id.generation) == id;
    SliceIsDone(def, loops, i, id.taskDefId, id.generation, x);
  }

  lemma LatestStaysOld(def: WorkflowDef, loops: Loops, i: WorkflowInstance, id: AttemptId, r: ResolvedInputs,
      j: WorkflowInstance, x: AttemptId, u: TaskId)
    requires Registered(def) && LoopsOf(def, loops) && LoopShape(def, loops)
    requires Inv(def, loops, i) && KeysMatch(def, j.tasks) && InStep(def, loops, i.tasks)
    requires ResultStep(def, loops, i, id, r, j) && Evolves(i, j) && i.tasks[id].status.Running?
    requires x in i.tasks && i.tasks[x].status.Pending?
    requires InsideOf(loops, x.taskDefId, u) && SourceReady(i.tasks, loops, Some(x.taskDefId), u)
    ensures LatestIsOld(i.tasks, j.tasks, u)
  {
    hide Registered, LoopsOf, Inv, InStep, Evolves, LatestAttempt, ResultStep, LoopShape, VerifierChain,
      SourceReady, StatesBounded, SettledIsFinal;
    InvParts(def, loops, i);
    ReadyMeansLatest(i.tasks, loops, x.taskDefId, u);
    FirstSliceWithSound(loops, loops.order, x.taskDefId);
    var w := FirstSliceWith(loops, loops.order, x.taskDefId).value;
    InsideAfterResult(def, loops, i, id, r, j, u, LatestAttempt(i.tasks, u, false).value);
    LatestAttemptIsLatest(def, j.tasks, u, false);
    if LatestAttempt(j.tasks, u, false).value !in i.tasks {
      NewAreNext(def, loops, i, id, r, j, LatestAttempt(j.tasks, u, false).value);
      OneSlice(def, loops, w, id.taskDefId, u);
      RunningSliceIsDone(def, loops, i, id, x);
      assert false;
    }
  }

  // ---------------------------------------------------------------------------
  // Every step but human input keeps the slices in step

  lemma NewAreNext(def: WorkflowDef, loops: Loops, i: WorkflowInstance, id: AttemptId, r: ResolvedInputs,
      j: WorkflowInstance, x: AttemptId)
    requires ResultStep(def, loops, i, id, r, j) && x in j.tasks && x !in i.tasks
    ensures var v := id.taskDefId;
      && v in loops.body && x.taskDefId in loops.body[v] && x.generation == id.generation + 1
      && j.tasks[x].status.Pending? && id in i.tasks && id in j.tasks && j.tasks[id].status.Completed?
      && forall t :: t in loops.body[v] ==> AttemptId(t, id.generation + 1) in j.tasks
  {
  }

  lemma ResultKeepsLockstep(def: WorkflowDef, loops: Loops, i: WorkflowInstance, id: AttemptId, r: ResolvedInputs,
      j: WorkflowInstance)
    requires LoopShape(def, loops) && Lockstep(loops, i.tasks) && ResultStep(def, loops, i, id, r, j) && Evolves(i, j)
    ensures Lockstep(loops, j.tasks)
  {
    forall v, t, g | v in loops.body && t in loops.body[v]
      ensures AttemptId(t, g) in j.tasks <==> AttemptId(v, g) in j.tasks
    {
      assert AttemptId(t, g) in i.tasks <==> AttemptId(v, g) in i.tasks;
      if AttemptId(t, g) in j.tasks && AttemptId(t, g) !in i.tasks {
        NewAreNext(def, loops, i, id, r, j, AttemptId(t, g));
      }
      if AttemptId(v, g) in j.tasks && AttemptId(v, g) !in i.tasks {
        NewAreNext(def, loops, i, id, r, j, AttemptId(v, g));
      }
    }
  }

  lemma ResultKeepsOldDone(def: WorkflowDef, loops: Loops, i: WorkflowInstance, id: AttemptId, r: ResolvedInputs,
      j: WorkflowInstance)
    requires Registered(def) && LoopsOf(def, loops) && LoopShape(def, loops) && Inv(def, loops, i)
    requires InStep(def, loops, i.tasks) && ResultStep(def, loops, i, id, r, j) && Evolves(i, j)
    requires i.tasks[id].status.Running?
    ensures OldDone(loops, j.tasks)
  {
    forall v, x | v in loops.body && x in j.tasks && x.taskDefId in loops.body[v]
           && AttemptId(v, x.generation + 1) in j.tasks
      ensures j.tasks[x].status.Completed?
    {
      OldDoneAfter(def, loops, i, id, r, j, v, x);
    }
  }

  lemma OldDoneAfter(def: WorkflowDef, loops: Loops, i: WorkflowInstance, id: AttemptId, r: ResolvedInputs,
      j: WorkflowInstance, v: TaskId, x: AttemptId)
    requires Registered(def) && LoopsOf(def, loops) && LoopShape(def, loops) && Inv(def, loops, i)
    requires InStep(def, loops, i.tasks) && ResultStep(def, loops, i, id, r, j) && Evolves(i, j)
    requires i.tasks[id].status.Running?
    requires v in loops.body && x in j.tasks && x.taskDefId in loops.body[v]
      && AttemptId(v, x.generation + 1) in j.tasks
    ensures j.tasks[x].status.Completed?
  {
    hide Registered, LoopsOf, LoopShape, Inv, OldDone, FedInside, Lockstep, KeysMatch, VerifierChain, Evolves,
      ResultStep;
    var next := AttemptId(v, x.generation + 1);
    InvParts(def, loops, i);
    CompletedStays(i, j, x);
    if next in i.tasks {
      if x in i.tasks {
        DoneBefore(loops, i.tasks, v, x);
      } else {
        assert x == AttemptId(x.taskDefId, x.generation);
        NewAreNext(def, loops, i, id, r, j, x);
        ChainReachesDown(loops, i.tasks, v, x.generation + 1, x.generation);
        SameGenerations(loops, i.tasks, v, x.taskDefId, x.generation);
        assert false;
      }
    } else {
      NewAreNext(def, loops, i, id, r, j, next);
      VerifierIsOwn(def, loops, v, id.taskDefId);
      assert id == AttemptId(v, x.generation);
      if x !in i.tasks {
        NewAreNext(def, loops, i, id, r, j, x);
        assert false;
      } else if x != id {
        RunningSliceIsDone(def, loops, i, id, x);
      }
    }
  }

  lemma CompletedStays(i: WorkflowInstance, j: WorkflowInstance, x: AttemptId)
    requires Evolves(i, j)
    ensures x in i.tasks && i.tasks[x].status.Completed? ==> x in j.tasks && j.tasks[x].status.Completed?
  {
  }

  lemma ResultKeepsFed(def: WorkflowDef, loops: Loops, i: WorkflowInstance, id: AttemptId, r: ResolvedInputs,
      j: WorkflowInstance)
    requires FedInside(def, loops, i.tasks) && ResultStep(def, loops, i, id, r, j) && Evolves(i, j)
      && i.tasks[id].status.Running?
    ensures FedInside(def, loops, j.tasks)
  {
    forall v, x, b | v in loops.body && x in j.tasks && x.taskDefId in loops.body[v] && HasStarted(j.tasks[x])
                     && b in def.dataBindings && b.target == x.taskDefId && b.source in loops.body[v]
      ensures DoneAt(j.tasks, b.source, x.generation)
    {
      if x !in i.tasks { NewAreNext(def, loops, i, id, r, j, x); }
      assert x in i.tasks && HasStarted(i.tasks[x]);
      assert DoneAt(i.tasks, b.source, x.generation);
    }
  }

  lemma ResultKeepsInStep(def: WorkflowDef, loops: Loops, i: WorkflowInstance, id: AttemptId, r: ResolvedInputs,
      j: WorkflowInstance)
    requires Registered(def) && LoopsOf(def, loops) && LoopShape(def, loops) && Inv(def, loops, i)
    requires InStep(def, loops, i.tasks) && ResultStep(def, loops, i, id, r, j) && Evolves(i, j)
    requires i.tasks[id].status.Running?
    ensures InStep(def, loops, j.tasks)
  {
    hide ResultStep, Evolves, Inv, Registered, LoopsOf, Lockstep, OldDone, FedInside;
    ResultKeepsLockstep(def, loops, i, id, r, j);
    ResultKeepsOldDone(def, loops, i, id, r, j);
    ResultKeepsFed(def, loops, i, id, r, j);
  }

  /** Statuses that only go back to Pending, or from Failed or Running to there, change nothing of it. */
  lemma ResetKeepsInStep(def: WorkflowDef, loops: Loops, before: Tasks, after: Tasks)
    requires InStep(def, loops, before) && before.Keys == after.Keys
    requires forall x :: x in before ==>
      && (before[x].status.Completed? ==> after[x].status.Completed?)
      && (HasStarted(after[x]) ==> HasStarted(before[x]))
    ensures InStep(def, loops, after)
  {
    forall v, x, b | v in loops.body && x in after && x.taskDefId in loops.body[v] && HasStarted(after[x])
                     && b in def.dataBindings && b.target == x.taskDefId && b.source in loops.body[v]
      ensures DoneAt(after, b.source, x.generation)
    {
      assert DoneAt(before, b.source, x.generation);
    }
  }

  /** Starting a runnable attempt: its sources inside the slice are of its own generation. */
  lemma StartKeepsInStep(def: WorkflowDef, loops: Loops, i: WorkflowInstance, id: AttemptId)
    requires LoopShape(def, loops) && Inv(def, loops, i) && InStep(def, loops, i.tasks)
      && Runnable(i.tasks, def, loops, id)
    ensures InStep(def, loops, Started(i, id).tasks)
  {
    var after := Started(i, id).tasks;
    hide Inv, LoopShape, Runnable, Lockstep, FedInside, OldDone;
    StartedShape(loops, i, id);
    assert FedInside(def, loops, i.tasks);
    FedAfterStart(def, loops, i, id);
  }

  lemma StartedShape(loops: Loops, i: WorkflowInstance, id: AttemptId)
    requires id in i.tasks && i.tasks[id].status.Pending? && Lockstep(loops, i.tasks) && OldDone(loops, i.tasks)
    ensures Lockstep(loops, Started(i, id).tasks) && OldDone(loops, Started(i, id).tasks)
  {
  }

  lemma Fed(def: WorkflowDef, loops: Loops, tasks: Tasks, v: TaskId, x: AttemptId, b: DataBinding)
    requires InStep(def, loops, tasks) && v in loops.body && x in tasks && x.taskDefId in loops.body[v]
    requires HasStarted(tasks[x]) && b in def.dataBindings && b.target == x.taskDefId && b.source in loops.body[v]
    ensures DoneAt(tasks, b.source, x.generation)
  {
  }

  lemma DoneAfterStart(i: WorkflowInstance, id: AttemptId, x: AttemptId)
    requires id in i.tasks && i.tasks[id].status.Pending? && DoneAt(i.tasks, x.taskDefId, x.generation)
    ensures DoneAt(Started(i, id).tasks, x.taskDefId, x.generation)
  {
  }

  lemma FedAfterStart(def: WorkflowDef, loops: Loops, i: WorkflowInstance, id: AttemptId)
    requires LoopShape(def, loops) && Inv(def, loops, i) && InStep(def, loops, i.tasks)
      && Runnable(i.tasks, def, loops, id)
    ensures FedInside(def, loops, Started(i, id).tasks)
  {
    hide Inv, LoopShape, InStep, Lockstep, OldDone, ResolveInputs, DoneAt;
    var after := Started(i, id).tasks;
    forall v, x, b | v in loops.body && x in after && x.taskDefId in loops.body[v] && HasStarted(after[x])
                     && b in def.dataBindings && b.target == x.taskDefId && b.source in loops.body[v]
      ensures DoneAt(after, b.source, x.generation)
    {
      if x == id { SourceIsSameGeneration(def, loops, i, id, v, b); } else { Fed(def, loops, i.tasks, v, x, b); }
      DoneAfterStart(i, id, AttemptId(b.source, x.generation));
    }
  }

  lemma SourceIsSameGeneration(def: WorkflowDef, loops: Loops, i: WorkflowInstance, id: AttemptId, v: TaskId,
      b: DataBinding)
    requires LoopShape(def, loops) && Inv(def, loops, i) && InStep(def, loops, i.tasks)
      && Runnable(i.tasks, def, loops, id)
    requires v in loops.body && id.taskDefId in loops.body[v]
    requires b in def.dataBindings && b.target == id.taskDefId && b.source in loops.body[v]
    ensures DoneAt(i.tasks, b.source, id.generation)
  {
    InvParts(def, loops, i);
    SourceReadyOf(def, loops, i, id, b);
    FirstSliceWithFinds(loops, loops.order, v, id.taskDefId);
    LatestAttemptIsLatest(def, i.tasks, b.source, false);
    var a := LatestAttempt(i.tasks, b.source, false).value;
    LatestIsOwn(def, loops, i.tasks, id, v, b.source, a);
  }

  lemma LatestIsOwn(def: WorkflowDef, loops: Loops, tasks: Tasks, id: AttemptId, v: TaskId, u: TaskId, a: AttemptId)
    requires Lockstep(loops, tasks) && OldDone(loops, tasks) && VerifierChain(loops, tasks) && KeysMatch(def, tasks)
    requires v in loops.body && id.taskDefId in loops.body[v] && u in loops.body[v]
    requires id in tasks && !tasks[id].status.Completed? && a in Candidates(tasks, u, false)
    requires forall x :: x in Candidates(tasks, u, false) ==> x.generation <= a.generation
    ensures a == AttemptId(u, id.generation)
  {
    hide Lockstep, OldDone, VerifierChain;
    assert AttemptId(id.taskDefId, id.generation) == id && AttemptId(u, a.generation) == a;
    SameGenerations(loops, tasks, v, id.taskDefId, id.generation);
    SameGenerations(loops, tasks, v, u, id.generation);
    SameGenerations(loops, tasks, v, u, a.generation);
    assert AttemptId(u, id.generation) in Candidates(tasks, u, false);
    if a.generation > id.generation {
      ChainReachesDown(loops, tasks, v, a.generation, id.generation + 1);
      DoneBefore(loops, tasks, v, id);
      assert false;
    }
  }

  /** Starting an attempt makes no source ready and none unready. */
  lemma ReadyAfterStart(def: WorkflowDef, loops: Loops, i: WorkflowInstance, id: AttemptId, t: TaskId, u: TaskId)
    requires KeysMatch(def, i.tasks) && id in i.tasks && i.tasks[id].status.Pending?
    ensures SourceReady(Started(i, id).tasks, loops, Some(t), u) <==> SourceReady(i.tasks, loops, Some(t), u)
  {
    hide SourceReady, LatestAttempt, InsideOf, Candidates;
    var after, fromOutside := Started(i, id).tasks, !InsideOf(loops, t, u);
    ReadyMeansLatest(i.tasks, loops, t, u);
    ReadyMeansLatest(after, loops, t, u);
    StartKeepsCandidates(i, id, u, fromOutside);
    SameCandidates(def, i.tasks, after, u, fromOutside);
  }

  lemma StartKeepsCandidates(i: WorkflowInstance, id: AttemptId, u: TaskId, satisfiedOnly: bool)
    requires id in i.tasks && i.tasks[id].status.Pending?
    ensures Candidates(Started(i, id).tasks, u, satisfiedOnly) == Candidates(i.tasks, u, satisfiedOnly)
  {
  }

  lemma SameCandidates(def: WorkflowDef, before: Tasks, after: Tasks, u: TaskId, satisfiedOnly: bool)
    requires KeysMatch(def, before) && KeysMatch(def, after)
    requires Candidates(after, u, satisfiedOnly) == Candidates(before, u, satisfiedOnly)
    ensures LatestAttempt(after, u, satisfiedOnly) == LatestAttempt(before, u, satisfiedOnly)
  {
    LatestAttemptIsLatest(def, before, u, satisfiedOnly);
    LatestAttemptIsLatest(def, after, u, satisfiedOnly);
  }

  /** An attempt resolves after a start exactly if it did before: its own start included. */
  lemma ResolvesAfterStart(def: WorkflowDef, loops: Loops, i: WorkflowInstance, id: AttemptId, x: AttemptId)
    requires KeysMatch(def, i.tasks) && id in i.tasks && i.tasks[id].status.Pending? && x in i.tasks
    ensures ResolveInputs(Started(i, id).tasks, def, loops, Started(i, id).tasks[x]).Some?
      <==> ResolveInputs(i.tasks, def, loops, i.tasks[x]).Some?
  {
    var after, t := Started(i, id).tasks, x.taskDefId;
    var inbound := Inbound(def.dataBindings, t);
    ResolvesWhenReady(i.tasks, loops, t, inbound);
    ResolvesWhenReady(after, loops, t, inbound);
    if inbound != [] {
      forall b | b in inbound ensures SourceReady(after, loops, Some(t), b.source)
             <==> SourceReady(i.tasks, loops, Some(t), b.source) {
        ReadyAfterStart(def, loops, i, id, t, b.source);
      }
    }
  }
}
