/**
 What the engine reads off a snapshot, said of the fields of its attempts and states alone: when a workflow is done,
 which attempt feeds a consumer, when an attempt may run and with which inputs, and when a loop opens.
 */
module FieldReadings {
  import opened Prelude
  import opened JsonValues
  import opened AttemptIds
  import opened Model
  import opened Reducer
  import opened LoopSlices
  import opened Engine
  import opened EngineEffects
  import opened EngineInvariants
  import opened EngineSteps
  import opened OpeningAndRecovery

  // ---------------------------------------------------------------------------
  // Done

  /** The attempt of the task no other attempt of it comes after. */
  ghost predicate Newest(tasks: Tasks, t: TaskId, id: AttemptId) {
    && id in tasks && id.taskDefId == t
    && forall x :: x in tasks && x.taskDefId == t ==> x.generation <= id.generation
  }

  /** An attempt of the slice was skipped or left early. */
  ghost predicate LeftEarly(tasks: Tasks, slice: seq<TaskId>) {
    exists x :: x in tasks && x.taskDefId in slice && (tasks[x].status.Skipped? || tasks[x].earlyExit)
  }

  /** The newest attempt of the task has been completed or skipped. */
  ghost predicate TaskDone(tasks: Tasks, t: TaskId) {
    exists id :: Newest(tasks, t, id) && (tasks[id].status.Completed? || tasks[id].status.Skipped?)
  }

  /** Every loop has accepted a generation, or goes on without end because one of its attempts left early. */
  ghost predicate LoopsDone(loops: Loops, tasks: Tasks, states: States) {
    forall v :: v in states ==>
      || states[v].status.Accepted? || states[v].status.ExhaustedAccepted?
      || (states[v].status.Running? && v in loops.body && LeftEarly(tasks, loops.body[v]))
  }

  ghost predicate AllDone(def: WorkflowDef, loops: Loops, i: WorkflowInstance) {
    (forall task :: task in def.tasks ==> TaskDone(i.tasks, task.id)) && LoopsDone(loops, i.tasks, i.verifierStates)
  }

  lemma CandidatesByFields(def: WorkflowDef, tasks: Tasks, t: TaskId, x: AttemptId)
    requires KeysMatch(def, tasks)
    ensures x in Candidates(tasks, t, false) <==> x in tasks && x.taskDefId == t
    ensures x in Candidates(tasks, t, true)
      <==> x in tasks && x.taskDefId == t && tasks[x].status.Completed? && tasks[x].satisfaction.Satisfied?
  {
  }

  lemma NewestIsLatest(def: WorkflowDef, tasks: Tasks, t: TaskId, id: AttemptId)
    requires KeysMatch(def, tasks)
    ensures Newest(tasks, t, id) <==> LatestAttempt(tasks, t, false) == Some(id)
  {
    LatestAttemptIsLatest(def, tasks, t, false);
    forall x ensures x in Candidates(tasks, t, false) <==> x in tasks && x.taskDefId == t {
      CandidatesByFields(def, tasks, t, x);
    }
    hide LatestAttempt, Candidates, KeysMatch;
  }

  lemma FinishedByFields(def: WorkflowDef, tasks: Tasks, t: TaskId)
    requires KeysMatch(def, tasks)
    ensures FinishedTask(tasks, t) <==> TaskDone(tasks, t)
  {
    hide LatestAttempt, KeysMatch;
    forall id ensures Newest(tasks, t, id) <==> LatestAttempt(tasks, t, false) == Some(id) {
      NewestIsLatest(def, tasks, t, id);
    }
    if FinishedTask(tasks, t) { assert Newest(tasks, t, LatestAttempt(tasks, t, false).value); }
  }

  lemma InterruptedByFields(def: WorkflowDef, tasks: Tasks, slice: seq<TaskId>)
    requires KeysMatch(def, tasks)
    ensures SliceInterruptedByExit(tasks, slice) <==> LeftEarly(tasks, slice)
  {
  }

  /** A workflow is all done exactly if its tasks and its loops are. */
  lemma DoneExactlyWhen(def: WorkflowDef, loops: Loops, i: WorkflowInstance)
    requires KeysMatch(def, i.tasks)
    ensures WorkflowAllCompleted(i, def, loops) <==> AllDone(def, loops, i)
  {
    hide FinishedTask, SliceInterruptedByExit, LeftEarly, TaskDone, KeysMatch;
    forall task | task in def.tasks ensures FinishedTask(i.tasks, task.id) <==> TaskDone(i.tasks, task.id) {
      FinishedByFields(def, i.tasks, task.id);
    }
    forall v | v in loops.body
      ensures SliceInterruptedByExit(i.tasks, loops.body[v]) <==> LeftEarly(i.tasks, loops.body[v])
    {
      InterruptedByFields(def, i.tasks, loops.body[v]);
    }
  }

  // ---------------------------------------------------------------------------
  // Sources

  ghost predicate ShareSlice(loops: Loops, t: TaskId, u: TaskId) {
    exists v :: v in loops.body && t in loops.body[v] && u in loops.body[v]
  }

  /** The accepted attempt of the task no other accepted attempt of it comes after. */
  ghost predicate NewestAccepted(tasks: Tasks, u: TaskId, a: AttemptId) {
    && a in tasks && a.taskDefId == u && tasks[a].status.Completed? && tasks[a].satisfaction.Satisfied?
    && forall x :: x in tasks && x.taskDefId == u && tasks[x].status.Completed? && tasks[x].satisfaction.Satisfied?
         ==> x.generation <= a.generation
  }

  /**
   Attempt `a` is what task `t` reads of task `u`: inside one slice the newest attempt, once it has completed; from
   anywhere else the newest accepted one.
   */
  ghost predicate Feeds(loops: Loops, tasks: Tasks, t: TaskId, u: TaskId, a: AttemptId) {
    if ShareSlice(loops, t, u) then Newest(tasks, u, a) && tasks[a].status.Completed? else NewestAccepted(tasks, u, a)
  }

  lemma NewestAcceptedIsLatest(def: WorkflowDef, tasks: Tasks, u: TaskId, a: AttemptId)
    requires KeysMatch(def, tasks)
    ensures NewestAccepted(tasks, u, a) <==> LatestAttempt(tasks, u, true) == Some(a)
  {
    LatestAttemptIsLatest(def, tasks, u, true);
    forall x ensures x in Candidates(tasks, u, true)
      <==> x in tasks && x.taskDefId == u && tasks[x].status.Completed? && tasks[x].satisfaction.Satisfied?
    {
      CandidatesByFields(def, tasks, u, x);
    }
    hide LatestAttempt, Candidates, KeysMatch;
  }

  lemma OwnerIsShared(def: WorkflowDef, loops: Loops, t: TaskId, u: TaskId)
    requires LoopShape(def, loops)
    ensures var owner := FirstSliceWith(loops, loops.order, t);
      (owner.Some? && owner.value in loops.body && u in loops.body[owner.value]) <==> ShareSlice(loops, t, u)
  {
    FirstSliceWithSound(loops, loops.order, t);
    if ShareSlice(loops, t, u) {
      var v :| v in loops.body && t in loops.body[v] && u in loops.body[v];
      FirstSliceWithFinds(loops, loops.order, v, t);
    }
  }

  /** The source an attempt is given is the one that feeds its task. */
  lemma SourceByFields(def: WorkflowDef, loops: Loops, tasks: Tasks, t: TaskId, u: TaskId, a: AttemptId)
    requires KeysMatch(def, tasks) && LoopShape(def, loops)
    ensures Feeds(loops, tasks, t, u, a)
      <==> ResolveSource(tasks, loops, Some(t), u) == Some(a) && a in tasks && tasks[a].status.Completed?
  {
    hide KeysMatch, LoopShape, LatestAttempt, Newest, NewestAccepted, ShareSlice, FirstSliceWith;
    OwnerIsShared(def, loops, t, u);
    NewestIsLatest(def, tasks, u, a);
    NewestAcceptedIsLatest(def, tasks, u, a);
    AcceptedIsCompleted(tasks, u, a);
  }

  lemma AcceptedIsCompleted(tasks: Tasks, u: TaskId, a: AttemptId)
    ensures NewestAccepted(tasks, u, a) ==> a in tasks && tasks[a].status.Completed?
    ensures Newest(tasks, u, a) ==> a in tasks
  {
  }

  lemma ReadyByFields(def: WorkflowDef, loops: Loops, tasks: Tasks, t: TaskId, u: TaskId)
    requires KeysMatch(def, tasks) && LoopShape(def, loops)
    ensures SourceReady(tasks, loops, Some(t), u) <==> exists a :: Feeds(loops, tasks, t, u, a)
  {
    hide KeysMatch, LoopShape, Feeds, ResolveSource;
    forall a ensures Feeds(loops, tasks, t, u, a)
      <==> ResolveSource(tasks, loops, Some(t), u) == Some(a) && a in tasks && tasks[a].status.Completed?
    {
      SourceByFields(def, loops, tasks, t, u, a);
    }
    if SourceReady(tasks, loops, Some(t), u) {
      assert Feeds(loops, tasks, t, u, ResolveSource(tasks, loops, Some(t), u).value);
    }
  }

  // ---------------------------------------------------------------------------
  // Attempts that may run

  /** Pending, and every source its task is bound to feeds it. */
  ghost predicate MayRunNow(def: WorkflowDef, loops: Loops, tasks: Tasks, id: AttemptId) {
    && id in tasks && tasks[id].status.Pending?
    && forall b :: b in def.dataBindings && b.target == id.taskDefId ==>
         exists a :: Feeds(loops, tasks, id.taskDefId, b.source, a)
  }

  /** An attempt is runnable exactly if it is pending and everything its task is bound to feeds it. */
  lemma RunnableExactlyWhen(def: WorkflowDef, loops: Loops, tasks: Tasks, id: AttemptId)
    requires KeysMatch(def, tasks) && LoopShape(def, loops)
    ensures Runnable(tasks, def, loops, id) <==> MayRunNow(def, loops, tasks, id)
  {
    hide LoopShape, Feeds, SourceReady;
    var t := id.taskDefId;
    var inbound := Inbound(def.dataBindings, t);
    InboundMembers(def.dataBindings, t);
    ResolvesWhenReady(tasks, loops, t, inbound);
    forall b | b in inbound
      ensures SourceReady(tasks, loops, Some(t), b.source) <==> exists a :: Feeds(loops, tasks, t, b.source, a)
    {
      ReadyByFields(def, loops, tasks, t, b.source);
    }
  }

  // ---------------------------------------------------------------------------
  // The inputs

  /** How many of the first `p` bindings end at the task. */
  function EndingAt(bindings: seq<DataBinding>, t: TaskId, p: nat): nat
    requires p <= |bindings|
  {
    if p == 0 then 0 else EndingAt(bindings, t, p - 1) + if bindings[p - 1].target == t then 1 else 0
  }

  lemma {:induction false} EndingAtShift(bindings: seq<DataBinding>, t: TaskId, p: nat)
    requires p < |bindings|
    ensures EndingAt(bindings, t, p + 1) == EndingAt(bindings[1..], t, p) + if bindings[0].target == t then 1 else 0
  {
    if p > 0 {
      EndingAtShift(bindings, t, p - 1);
      assert bindings[1..][p - 1] == bindings[p];
    }
  }

  /** The inbound bindings of a task are those that end at it, in the order of the definition. */
  lemma {:induction false} InboundInOrder(bindings: seq<DataBinding>, t: TaskId, p: nat)
    requires p < |bindings| && bindings[p].target == t
    ensures |Inbound(bindings, t)| == EndingAt(bindings, t, |bindings|)
    ensures EndingAt(bindings, t, p) < |Inbound(bindings, t)|
    ensures Inbound(bindings, t)[EndingAt(bindings, t, p)] == bindings[p]
    decreases |bindings|
  {
    InboundCount(bindings, t);
    if p > 0 {
      EndingAtShift(bindings, t, p - 1);
      assert bindings[1..][p - 1] == bindings[p];
      InboundInOrder(bindings[1..], t, p - 1);
    }
  }

  lemma {:induction false} InboundCount(bindings: seq<DataBinding>, t: TaskId)
    ensures |Inbound(bindings, t)| == EndingAt(bindings, t, |bindings|)
    decreases |bindings|
  {
    if bindings != [] {
      InboundCount(bindings[1..], t);
      EndingAtShift(bindings, t, |bindings| - 1);
    }
  }

  function OutputOrNull(task: TaskInstance): Json {
    match task.outputData
    case Some(value) => value
    case None => JNull
  }

  /**
   The inputs of an attempt. Bound tasks get one value per binding, in the order of the definition: the output of the
   attempt that feeds it, or null if it recorded none. A task without bindings gets what its attempt already holds.
   */
  ghost predicate InputsByFields(def: WorkflowDef, loops: Loops, tasks: Tasks, id: AttemptId, r: ResolvedInputs)
    requires id in tasks
  {
    var t, n := id.taskDefId, EndingAt(def.dataBindings, id.taskDefId, |def.dataBindings|);
    if n == 0 then
      r.values == tasks[id].inputData && r.mapping == (if r.values == [] then [] else tasks[id].inputMapping)
    else
      && |r.values| == |r.mapping| == n
      && forall p :: 0 <= p < |def.dataBindings| && def.dataBindings[p].target == t ==>
           InputAt(loops, tasks, t, def.dataBindings[p].source, r, EndingAt(def.dataBindings, t, p))
  }

  ghost predicate InputAt(loops: Loops, tasks: Tasks, t: TaskId, u: TaskId, r: ResolvedInputs, k: nat) {
    && k < |r.values| == |r.mapping|
    && exists a :: Feeds(loops, tasks, t, u, a) && a in tasks && r.values[k] == OutputOrNull(tasks[a])
                   && r.mapping[k] == TaskInputMapping(u, a.generation)
  }

  lemma {:induction false} BindingsByFields(def: WorkflowDef, loops: Loops, tasks: Tasks, t: TaskId,
      inbound: seq<DataBinding>, k: nat)
    requires KeysMatch(def, tasks) && LoopShape(def, loops)
    requires ResolveBindings(tasks, loops, t, inbound).Some? && k < |inbound|
    ensures var r := ResolveBindings(tasks, loops, t, inbound).value;
      |r.values| == |inbound| && InputAt(loops, tasks, t, inbound[k].source, r, k)
  {
    hide KeysMatch, LoopShape, Feeds, ResolveSource;
    var r := ResolveBindings(tasks, loops, t, inbound).value;
    var source := ResolveSource(tasks, loops, Some(t), inbound[0].source).value;
    ResolvedLength(tasks, loops, t, inbound);
    if k == 0 {
      SourceByFields(def, loops, tasks, t, inbound[0].source, source);
      KeyMatches(def, tasks, source);
    } else {
      BindingsByFields(def, loops, tasks, t, inbound[1..], k - 1);
      var rest := ResolveBindings(tasks, loops, t, inbound[1..]).value;
      assert inbound[1..][k - 1] == inbound[k] && r.values[k] == rest.values[k - 1]
        && r.mapping[k] == rest.mapping[k - 1];
    }
  }

  lemma {:induction false} ResolvedLength(tasks: Tasks, loops: Loops, t: TaskId, inbound: seq<DataBinding>)
    requires ResolveBindings(tasks, loops, t, inbound).Some?
    ensures var r := ResolveBindings(tasks, loops, t, inbound).value; |r.values| == |r.mapping| == |inbound|
  {
    if inbound != [] { ResolvedLength(tasks, loops, t, inbound[1..]); }
  }

  lemma KeyMatches(def: WorkflowDef, tasks: Tasks, id: AttemptId)
    requires KeysMatch(def, tasks) && id in tasks
    ensures tasks[id].taskDefId == id.taskDefId && tasks[id].generationIndex == id.generation
  {
  }

  /** An attempt's inputs, whenever it has any to run with. */
  lemma ResolvedByFields(def: WorkflowDef, loops: Loops, tasks: Tasks, id: AttemptId)
    requires KeysMatch(def, tasks) && LoopShape(def, loops) && id in tasks
    requires ResolveInputs(tasks, def, loops, tasks[id]).Some?
    ensures InputsByFields(def, loops, tasks, id, ResolveInputs(tasks, def, loops, tasks[id]).value)
  {
    hide LoopShape, InputAt, ResolveBindings, EndingAt;
    var t := id.taskDefId;
    var inbound, r := Inbound(def.dataBindings, t), ResolveInputs(tasks, def, loops, tasks[id]).value;
    KeyMatches(def, tasks, id);
    InboundCount(def.dataBindings, t);
    if inbound == [] {
      NothingBound(tasks, loops, t);
    } else {
      ResolvedLength(tasks, loops, t, inbound);
      forall p | 0 <= p < |def.dataBindings| && def.dataBindings[p].target == t
        ensures InputAt(loops, tasks, t, def.dataBindings[p].source, r, EndingAt(def.dataBindings, t, p))
      {
        InboundInOrder(def.dataBindings, t, p);
        BindingsByFields(def, loops, tasks, t, inbound, EndingAt(def.dataBindings, t, p));
      }
    }
  }

  lemma NothingBound(tasks: Tasks, loops: Loops, t: TaskId)
    ensures ResolveBindings(tasks, loops, t, []) == Some(ResolvedInputs([], []))
  {
  }

  // ---------------------------------------------------------------------------
  // Loops that may open

  /** Where a verifier's slice starts. */
  function RerunFrom(task: TaskDef): TaskId
    requires task.verifier.Some?
  {
    match task.verifier.value.rerunFromTaskId
    case Some(start) => start
    case None => task.id
  }

  /**
   The loop of a verifier may open: it has no state, nothing of its slice left early, and every task outside the slice
   that its start is bound to has an accepted attempt.
   */
  ghost predicate MayOpen(def: WorkflowDef, loops: Loops, i: WorkflowInstance, task: TaskDef)
    requires task.verifier.Some?
  {
    && task.id in loops.body && task.id !in i.verifierStates && !LeftEarly(i.tasks, loops.body[task.id])
    && forall b :: b in def.dataBindings && b.target == RerunFrom(task) && b.source !in loops.body[task.id] ==>
         exists a :: a in i.tasks && a.taskDefId == b.source
                     && i.tasks[a].status.Completed? && i.tasks[a].satisfaction.Satisfied?
  }

  lemma AcceptedExists(def: WorkflowDef, loops: Loops, tasks: Tasks, u: TaskId)
    requires KeysMatch(def, tasks)
    ensures SourceReady(tasks, loops, None, u)
      <==> exists a :: a in tasks && a.taskDefId == u && tasks[a].status.Completed? && tasks[a].satisfaction.Satisfied?
  {
    LatestAttemptIsLatest(def, tasks, u, true);
    forall x ensures x in Candidates(tasks, u, true)
      <==> x in tasks && x.taskDefId == u && tasks[x].status.Completed? && tasks[x].satisfaction.Satisfied?
    {
      CandidatesByFields(def, tasks, u, x);
    }
    hide LatestAttempt, Candidates;
  }

  lemma StartByFields(def: WorkflowDef, task: TaskDef)
    requires UniqueIds(def) && task in def.tasks && task.verifier.Some?
    ensures StartOf(def, task.id) == RerunFrom(task) && VerifierOf(def, task.id) == task.verifier
  {
    FindUnique(def.tasks, task);
  }

  lemma StartIsDefined(def: WorkflowDef, task: TaskDef)
    requires Registered(def) && task in def.tasks && task.verifier.Some?
    ensures FindTask(def.tasks, RerunFrom(task)).Some?
  {
    assert task.RerunStart() == RerunFrom(task);
    var k :| 0 <= k < |def.tasks| && def.tasks[k].id == RerunFrom(task);
  }

  /** A loop is eligible to open exactly if it may open. */
  lemma EligibleExactlyWhen(def: WorkflowDef, loops: Loops, i: WorkflowInstance, task: TaskDef)
    requires Registered(def) && KeysMatch(def, i.tasks) && task in def.tasks && task.verifier.Some?
    ensures Eligible(i, def, loops, task.id) <==> MayOpen(def, loops, i, task)
  {
    StartByFields(def, task);
    StartIsDefined(def, task);
    hide Registered, KeysMatch, SliceInterruptedByExit, LeftEarly, ResolveSource, StartOf, RerunFrom;
    if task.id in loops.body {
      InterruptedByFields(def, i.tasks, loops.body[task.id]);
      forall b | b in def.dataBindings
        ensures SourceReady(i.tasks, loops, None, b.source)
          <==> exists a :: a in i.tasks && a.taskDefId == b.source
                           && i.tasks[a].status.Completed? && i.tasks[a].satisfaction.Satisfied?
      {
        AcceptedExists(def, loops, i.tasks, b.source);
      }
    }
  }

  /**
   The opening commit, loop by loop: a loop has a state afterwards exactly if it had one or might open. The state it is
   opened with runs generation 1, has selected none and holds no feedback; states that were there stay as they were.
   */
  lemma OpeningByFields(def: WorkflowDef, loops: Loops, i: WorkflowInstance, task: TaskDef)
    requires Registered(def) && LoopShape(def, loops) && Inv(def, loops, i) && i.tasks != map[]
    requires task in def.tasks && task.verifier.Some?
    ensures Reduce(i, InitialGenerationEvents(i, def, loops, loops.order, {})).Success?
    ensures var j := Reduce(i, InitialGenerationEvents(i, def, loops, loops.order, {})).value;
      && j == i.(verifierStates := j.verifierStates)
      && (task.id in j.verifierStates <==> task.id in i.verifierStates || MayOpen(def, loops, i, task))
      && (task.id in i.verifierStates ==> j.verifierStates[task.id] == i.verifierStates[task.id])
      && (MayOpen(def, loops, i, task) ==>
            j.verifierStates[task.id] ==
              VerifierState(task.id, RerunFrom(task), 1, None, [], VerifierStateStatus.Running, None))
  {
    hide Registered, Inv, Reduce, InitialGenerationEvents, LeftEarly, RerunFrom, StartOf, Eligible, Evolves;
    OpeningKeepsInv(def, loops, i);
    OpeningNeeds(def, loops, i, task);
    StartByFields(def, task);
    EligibleExactlyWhen(def, loops, i, task);
  }

  lemma OpeningNeeds(def: WorkflowDef, loops: Loops, i: WorkflowInstance, task: TaskDef)
    requires Registered(def) && LoopShape(def, loops) && Inv(def, loops, i)
    ensures UniqueIds(def) && KeysMatch(def, i.tasks)
    ensures task.id in loops.body ==> task.id in loops.order
  {
  }
}
