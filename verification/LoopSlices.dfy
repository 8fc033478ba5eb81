/**
 Verifier loop slices. A slice is the part of the binding graph between a verifier's rerun start and
 the verifier; it is found by two graph walks over the data bindings.
 */
module LoopSlices {
  import opened Prelude
  import opened Model

  // ---------------------------------------------------------------------------
  // Binding graph

  type Edges = set<(TaskId, TaskId)>

  ghost function EdgesOf(def: WorkflowDef): Edges {
    set k | 0 <= k < |def.dataBindings| :: (def.dataBindings[k].source, def.dataBindings[k].target)
  }

  ghost function Flip(edges: Edges): Edges {
    set e | e in edges :: (e.1, e.0)
  }

  ghost predicate IsPath(edges: Edges, p: seq<TaskId>) {
    |p| > 0 && forall k :: 0 <= k < |p| - 1 ==> (p[k], p[k + 1]) in edges
  }

  ghost predicate PathFromTo(edges: Edges, p: seq<TaskId>, x: TaskId, y: TaskId) {
    IsPath(edges, p) && p[0] == x && p[|p| - 1] == y
  }

  ghost predicate Reaches(edges: Edges, x: TaskId, y: TaskId) {
    exists p :: PathFromTo(edges, p, x, y)
  }

  lemma ReachesSelf(edges: Edges, x: TaskId)
    ensures Reaches(edges, x, x)
  {
    assert PathFromTo(edges, [x], x, x);
  }

  lemma ReachesStep(edges: Edges, x: TaskId, y: TaskId, z: TaskId)
    requires Reaches(edges, x, y) && (y, z) in edges
    ensures Reaches(edges, x, z)
  {
    var p :| PathFromTo(edges, p, x, y);
    assert PathFromTo(edges, p + [z], x, z);
  }

  lemma ReachesTransitive(edges: Edges, x: TaskId, y: TaskId, z: TaskId)
    requires Reaches(edges, x, y) && Reaches(edges, y, z)
    ensures Reaches(edges, x, z)
  {
    var p :| PathFromTo(edges, p, x, y);
    var q :| PathFromTo(edges, q, y, z);
    var r := p + q[1..];
    forall k | 0 <= k < |r| - 1 ensures (r[k], r[k + 1]) in edges {
      if k >= |p| - 1 {
        assert r[k] == q[k - (|p| - 1)] && r[k + 1] == q[k + 1 - (|p| - 1)];
      }
    }
    assert PathFromTo(edges, r, x, z);
  }

  lemma {:induction false} FlipPath(edges: Edges, x: TaskId, y: TaskId)
    requires Reaches(Flip(edges), x, y)
    ensures Reaches(edges, y, x)
  {
    var p :| PathFromTo(Flip(edges), p, x, y);
    var q := seq(|p|, k requires 0 <= k < |p| => p[|p| - 1 - k]);
    forall k | 0 <= k < |q| - 1 ensures (q[k], q[k + 1]) in edges {
      var m := |p| - 2 - k;
      assert (p[m], p[m + 1]) in Flip(edges);
      assert q[k] == p[m + 1] && q[k + 1] == p[m];
    }
    assert PathFromTo(edges, q, y, x);
  }

  lemma FlipReaches(edges: Edges, x: TaskId, y: TaskId)
    ensures Reaches(Flip(edges), x, y) <==> Reaches(edges, y, x)
  {
    assert Flip(Flip(edges)) == edges by {
      forall e ensures e in Flip(Flip(edges)) <==> e in edges {
        if e in edges { assert (e.1, e.0) in Flip(edges); }
      }
    }
    if Reaches(Flip(edges), x, y) { FlipPath(edges, x, y); }
    if Reaches(edges, y, x) { FlipPath(Flip(edges), y, x); }
  }

  /** A set holding the start and closed under the edges holds everything reachable. */
  lemma ClosedHoldsReachable(edges: Edges, closed: set<TaskId>, x: TaskId, y: TaskId)
    requires x in closed && forall e :: e in edges && e.0 in closed ==> e.1 in closed
    requires Reaches(edges, x, y)
    ensures y in closed
  {
    var p :| PathFromTo(edges, p, x, y);
    var k := 0;
    while k < |p| - 1
      invariant 0 <= k <= |p| - 1 && p[k] in closed
    {
      assert (p[k], p[k + 1]) in edges;
      k := k + 1;
    }
  }

  // ---------------------------------------------------------------------------
  // Walking

  ghost predicate Represents(adjacency: map<TaskId, seq<TaskId>>, edges: Edges) {
    forall x, y :: (x, y) in edges <==> x in adjacency && y in adjacency[x]
  }

  /** What is seen leads only to what is seen or waiting. */
  ghost predicate Frontier(edges: Edges, seen: set<TaskId>, stack: seq<TaskId>) {
    forall e :: e in edges && e.0 in seen ==> e.1 in seen || e.1 in stack
  }

  /** The adjacency lists of `reachable_from` (forward) and `can_reach_target_set` (backward). */
  method BuildAdjacency(def: WorkflowDef, forward: bool) returns (adjacency: map<TaskId, seq<TaskId>>)
    ensures Represents(adjacency, if forward then EdgesOf(def) else Flip(EdgesOf(def)))
  {
    adjacency := map[];
    ghost var seen: Edges := {};
    var k := 0;
    while k < |def.dataBindings|
      invariant 0 <= k <= |def.dataBindings|
      invariant seen == set m | 0 <= m < k :: (def.dataBindings[m].source, def.dataBindings[m].target)
      invariant Represents(adjacency, if forward then seen else Flip(seen))
    {
      var binding := def.dataBindings[k];
      var from, to := if forward then binding.source else binding.target,
                      if forward then binding.target else binding.source;
      ghost var before := seen;
      seen := seen + {(binding.source, binding.target)};
      assert Flip(seen) == Flip(before) + {(binding.target, binding.source)} by {
        forall e ensures e in Flip(seen) <==> e in Flip(before) + {(binding.target, binding.source)} {
          assert e in Flip(seen) <==> (e.1, e.0) in seen;
          assert e in Flip(before) <==> (e.1, e.0) in before;
        }
      }
      adjacency := adjacency[from := (if from in adjacency then adjacency[from] else []) + [to]];
      k := k + 1;
    }
  }

  /** `walk_graph`: stops on every graph, cyclic or not, with exactly the reachable nodes. */
  lemma NothingSeen(edges: Edges, stack: seq<TaskId>)
    ensures Frontier(edges, {}, stack)
  {
  }

  lemma AllSeen(edges: Edges, seen: set<TaskId>, start: TaskId)
    requires Frontier(edges, seen, []) && start in seen
    ensures forall y :: Reaches(edges, start, y) ==> y in seen
  {
    forall y | Reaches(edges, start, y) ensures y in seen {
      ClosedHoldsReachable(edges, seen, start, y);
    }
  }

  lemma FrontierWithout(edges: Edges, seen: set<TaskId>, rest: seq<TaskId>, current: TaskId)
    requires Frontier(edges, seen, rest + [current]) && current in seen
    ensures Frontier(edges, seen, rest)
  {
  }

  lemma FrontierWith(adjacency: map<TaskId, seq<TaskId>>, edges: Edges, seen: set<TaskId>, rest: seq<TaskId>,
      current: TaskId)
    requires Represents(adjacency, edges) && Frontier(edges, seen, rest + [current])
    ensures Frontier(edges, seen + {current}, if current in adjacency then rest + adjacency[current] else rest)
  {
    forall e | e in edges && e.0 == current ensures e.1 in adjacency[current] { assert (e.0, e.1) in edges; }
  }

  lemma NextReached(adjacency: map<TaskId, seq<TaskId>>, edges: Edges, start: TaskId, current: TaskId,
      nodes: set<TaskId>)
    requires Represents(adjacency, edges) && Reaches(edges, start, current)
    requires forall e :: e in edges ==> e.1 in nodes
    ensures current in adjacency ==> forall y :: y in adjacency[current] ==> y in nodes && Reaches(edges, start, y)
  {
    forall y | current in adjacency && y in adjacency[current] ensures y in nodes && Reaches(edges, start, y) {
      assert (current, y) in edges && y == (current, y).1;
      ReachesStep(edges, start, current, y);
    }
  }

  method WalkGraph(start: TaskId, adjacency: map<TaskId, seq<TaskId>>, ghost edges: Edges) returns (seen: set<TaskId>)
    requires Represents(adjacency, edges)
    ensures forall y :: y in seen <==> Reaches(edges, start, y)
  {
    hide Reaches, Represents, Frontier;
    seen := {};
    var stack := [start];
    ghost var nodes := {start} + set e | e in edges :: e.1;
    ReachesSelf(edges, start);
    NothingSeen(edges, stack);
    while stack != []
      invariant forall y :: y in seen || y in stack ==> y in nodes && Reaches(edges, start, y)
      invariant start in seen || start in stack
      invariant Frontier(edges, seen, stack)
      decreases |nodes - seen|, |stack|
    {
      var current := stack[|stack| - 1];
      var rest := stack[..|stack| - 1];
      assert stack == rest + [current];
      stack := rest;
      if current in seen {
        FrontierWithout(edges, seen, rest, current);
        continue;
      }
      assert nodes - (seen + {current}) == nodes - seen - {current};
      NextReached(adjacency, edges, start, current, nodes);
      FrontierWith(adjacency, edges, seen, rest, current);
      seen := seen + {current};
      if current in adjacency { stack := stack + adjacency[current]; }
    }
    AllSeen(edges, seen, start);
  }

  // ---------------------------------------------------------------------------
  // Slices

  function KeepIds(tasks: seq<TaskDef>, keep: set<TaskId>): seq<TaskId> {
    if tasks == [] then []
    else (if tasks[0].id in keep then [tasks[0].id] else []) + KeepIds(tasks[1..], keep)
  }

  lemma {:induction false} KeepIdsMembers(tasks: seq<TaskDef>, keep: set<TaskId>)
    ensures forall t :: t in KeepIds(tasks, keep) <==> t in keep && exists k :: 0 <= k < |tasks| && tasks[k].id == t
  {
    if tasks != [] {
      KeepIdsMembers(tasks[1..], keep);
      forall t ensures t in KeepIds(tasks, keep) <==> t in keep && exists k :: 0 <= k < |tasks| && tasks[k].id == t {
        if t in keep && t in KeepIds(tasks[1..], keep) {
          var k :| 0 <= k < |tasks| - 1 && tasks[1..][k].id == t;
          assert tasks[k + 1].id == t;
        }
        if k :| t in keep && 0 <= k < |tasks| && tasks[k].id == t && k > 0 {
          assert tasks[1..][k - 1].id == t;
        }
      }
    }
  }

  lemma {:induction false} KeepIdsAppend(tasks: seq<TaskDef>, task: TaskDef, keep: set<TaskId>)
    ensures KeepIds(tasks + [task], keep) == KeepIds(tasks, keep) + (if task.id in keep then [task.id] else [])
  {
    if tasks == [] {
      assert tasks + [task] == [task];
    } else {
      assert (tasks + [task])[1..] == tasks[1..] + [task];
      KeepIdsAppend(tasks[1..], task, keep);
    }
  }

  ghost predicate UniqueIds(def: WorkflowDef) {
    forall i, j :: 0 <= i < j < |def.tasks| ==> def.tasks[i].id != def.tasks[j].id
  }

  ghost predicate OnLoopPath(def: WorkflowDef, start: TaskId, verifier: TaskId, t: TaskId) {
    Reaches(EdgesOf(def), start, t) && Reaches(EdgesOf(def), t, verifier)
  }

  /** The ids of `start ~> t ~> verifier` in definition order. */
  ghost function SliceOf(def: WorkflowDef, verifier: TaskDef): seq<TaskId>
    requires verifier.verifier.Some?
  {
    KeepIds(def.tasks, set t | t in TaskIds(def) && OnLoopPath(def, verifier.RerunStart(), verifier.id, t))
  }

  lemma SliceMembers(def: WorkflowDef, verifier: TaskDef, t: TaskId)
    requires verifier.verifier.Some?
    ensures t in SliceOf(def, verifier) <==>
      t in TaskIds(def) && OnLoopPath(def, verifier.RerunStart(), verifier.id, t)
  {
    KeepIdsMembers(def.tasks, set t | t in TaskIds(def) && OnLoopPath(def, verifier.RerunStart(), verifier.id, t));
  }

  /** A slice holds exactly the defined tasks lying on some binding path from the rerun start to the verifier. */
  lemma SliceIsThePaths(def: WorkflowDef, verifier: TaskDef, t: TaskId)
    requires verifier.verifier.Some?
    ensures t in SliceOf(def, verifier) <==>
      t in TaskIds(def) && exists p :: PathFromTo(EdgesOf(def), p, verifier.RerunStart(), verifier.id) && t in p
  {
    var edges, start, v := EdgesOf(def), verifier.RerunStart(), verifier.id;
    SliceMembers(def, verifier, t);
    if OnLoopPath(def, start, v, t) {
      var p :| PathFromTo(edges, p, start, t);
      var q :| PathFromTo(edges, q, t, v);
      var r := p + q[1..];
      forall k | 0 <= k < |r| - 1 ensures (r[k], r[k + 1]) in edges {
        if k >= |p| - 1 {
          assert r[k] == q[k - (|p| - 1)] && r[k + 1] == q[k + 1 - (|p| - 1)];
        }
      }
      assert PathFromTo(edges, r, start, v) && r[|p| - 1] == t;
    }
    if p :| PathFromTo(edges, p, start, v) && t in p {
      var k :| 0 <= k < |p| && p[k] == t;
      assert PathFromTo(edges, p[..k + 1], start, t);
      assert PathFromTo(edges, p[k..], t, v);
    }
  }

  /** The map of slices together with the order in which a run iterates over it. */
  datatype Loops = Loops(order: seq<TaskId>, body: map<TaskId, seq<TaskId>>)

  ghost function VerifierIds(def: WorkflowDef): set<TaskId> {
    set k | 0 <= k < |def.tasks| && def.tasks[k].verifier.Some? :: def.tasks[k].id
  }

  /** `loops` holds the slices of `def`; nothing is said about the iteration order. */
  ghost predicate LoopsOf(def: WorkflowDef, loops: Loops) {
    && Distinct(loops.order)
    && (forall v :: v in loops.order <==> v in loops.body)
    && loops.body.Keys == VerifierIds(def)
    && forall task :: task in def.tasks && task.verifier.Some? ==> loops.body[task.id] == SliceOf(def, task)
  }

  /** `compute_loop_slices` */
  method ComputeLoopSlices(def: WorkflowDef) returns (loops: Loops)
    requires UniqueIds(def)
    ensures LoopsOf(def, loops)
  {
    var order: seq<TaskId>, body: map<TaskId, seq<TaskId>> := [], map[];
    var k := 0;
    while k < |def.tasks|
      invariant 0 <= k <= |def.tasks|
      invariant Distinct(order)
      invariant forall v :: v in order <==> v in body
      invariant body.Keys == set m | 0 <= m < k && def.tasks[m].verifier.Some? :: def.tasks[m].id
      invariant forall m :: 0 <= m < k && def.tasks[m].verifier.Some?
                  ==> body[def.tasks[m].id] == SliceOf(def, def.tasks[m])
    {
      var task := def.tasks[k];
      if task.verifier.Some? {
        var slice := ComputeSlice(def, task);
        assert task.id !in body;
        order, body := order + [task.id], body[task.id := slice];
      }
      k := k + 1;
    }
    return Loops(order, body);
  }

  method ComputeSlice(def: WorkflowDef, task: TaskDef) returns (slice: seq<TaskId>)
    requires task.verifier.Some?
    ensures slice == SliceOf(def, task)
  {
    ghost var edges := EdgesOf(def);
    var forward := BuildAdjacency(def, true);
    var backward := BuildAdjacency(def, false);
    var fromStart := WalkGraph(task.RerunStart(), forward, edges);
    var toVerifier := WalkGraph(task.id, backward, Flip(edges));
    ghost var keep := set t | t in TaskIds(def) && OnLoopPath(def, task.RerunStart(), task.id, t);
    slice := [];
    var k := 0;
    while k < |def.tasks|
      invariant 0 <= k <= |def.tasks|
      invariant slice == KeepIds(def.tasks[..k], keep)
    {
      var t := def.tasks[k].id;
      FlipReaches(edges, task.id, t);
      assert t in TaskIds(def);
      assert def.tasks[..k + 1] == def.tasks[..k] + [def.tasks[k]];
      KeepIdsAppend(def.tasks[..k], def.tasks[k], keep);
      if t in fromStart && t in toVerifier {
        slice := slice + [t];
      }
      k := k + 1;
    }
    assert def.tasks[..k] == def.tasks;
  }

  // ---------------------------------------------------------------------------
  // What registration guarantees

  ghost predicate Cyclic(edges: Edges) {
    exists p, x :: |p| >= 2 && PathFromTo(edges, p, x, x)
  }

  ghost predicate Disjoint(def: WorkflowDef) {
    forall u, v, t ::
      (u in def.tasks && v in def.tasks && u.verifier.Some? && v.verifier.Some? && u.id != v.id && t in SliceOf(def, u))
      ==> t !in SliceOf(def, v)
  }

  /** The rules a definition must pass to be registered. */
  ghost predicate Registered(def: WorkflowDef) {
    && UniqueIds(def)
    && (forall b :: b in def.dataBindings ==> b.source in TaskIds(def) && b.target in TaskIds(def))
    && (forall t :: t in def.tasks && t.verifier.Some? ==>
          t.verifier.value.maxIterations > 0 && t.RerunStart() in TaskIds(def)
          && Reaches(EdgesOf(def), t.RerunStart(), t.id))
    && !Cyclic(EdgesOf(def))
    && Disjoint(def)
  }

  ghost predicate SlicesDisjoint(loops: Loops) {
    forall u, v, t :: u in loops.body && v in loops.body && t in loops.body[u] && t in loops.body[v] ==> u == v
  }

  ghost predicate VerifiersInOwnSlice(loops: Loops) {
    forall v :: v in loops.body ==> v in loops.body[v]
  }

  ghost predicate SlicesDefined(def: WorkflowDef, loops: Loops) {
    forall v, t :: v in loops.body && t in loops.body[v] ==> t in TaskIds(def)
  }

  ghost predicate SlicesOfVerifiers(def: WorkflowDef, loops: Loops) {
    && Distinct(loops.order)
    && (forall v :: v in loops.order <==> v in loops.body)
    && (forall v :: v in loops.body <==> VerifierOf(def, v).Some?)
  }

  /** Slices belong to the verifiers, hold defined tasks and their own verifier, and do not overlap. */
  ghost predicate LoopShape(def: WorkflowDef, loops: Loops) {
    SlicesOfVerifiers(def, loops) && VerifiersInOwnSlice(loops) && SlicesDefined(def, loops) && SlicesDisjoint(loops)
  }

  /** A slice's start belongs to it and is fed from outside only; every other task is also fed from inside. */
  ghost predicate FeedsFromStart(def: WorkflowDef, v: TaskId, slice: seq<TaskId>) {
    && StartOf(def, v) in slice
    && (forall b :: b in def.dataBindings && b.target == StartOf(def, v) ==> b.source !in slice)
    && (forall t :: t in slice && t != StartOf(def, v) ==> FedFromSlice(def, slice, t))
  }

  ghost predicate LoopFeeding(def: WorkflowDef, loops: Loops) {
    forall v :: v in loops.body ==> FeedsFromStart(def, v, loops.body[v])
  }

  /** The facts about slices that the engine relies on. */
  ghost predicate SliceFacts(def: WorkflowDef, loops: Loops) {
    UniqueIds(def) && LoopShape(def, loops) && LoopFeeding(def, loops)
  }

  ghost predicate FedFromSlice(def: WorkflowDef, slice: seq<TaskId>, t: TaskId) {
    exists b :: b in def.dataBindings && b.target == t && b.source in slice
  }

  function StartOf(def: WorkflowDef, v: TaskId): TaskId {
    match VerifierOf(def, v)
    case Some(config) => config.rerunFromTaskId.GetOr(v)
    case None => v
  }

  lemma TaskOfVerifier(def: WorkflowDef, v: TaskId) returns (task: TaskDef)
    requires UniqueIds(def) && v in VerifierIds(def)
    ensures task in def.tasks && task.id == v && task.verifier.Some?
    ensures VerifierOf(def, v) == task.verifier && StartOf(def, v) == task.RerunStart()
  {
    var k :| 0 <= k < |def.tasks| && def.tasks[k].verifier.Some? && def.tasks[k].id == v;
    task := def.tasks[k];
    FindUnique(def.tasks, task);
  }

  lemma VerifierIdsAreVerifiers(def: WorkflowDef, v: TaskId)
    requires UniqueIds(def)
    ensures v in VerifierIds(def) <==> VerifierOf(def, v).Some?
  {
    if v in VerifierIds(def) {
      var task := TaskOfVerifier(def, v);
    }
  }

  lemma EdgeOfBinding(def: WorkflowDef, b: DataBinding)
    requires b in def.dataBindings
    ensures (b.source, b.target) in EdgesOf(def)
  {
    var k :| 0 <= k < |def.dataBindings| && def.dataBindings[k] == b;
  }

  /** On a registered definition every iteration order of the computed slices has the facts. */
  lemma RegisteredSlices(def: WorkflowDef, loops: Loops)
    requires Registered(def) && LoopsOf(def, loops)
    ensures SliceFacts(def, loops)
  {
    forall v ensures v in loops.body <==> VerifierOf(def, v).Some? { VerifierIdsAreVerifiers(def, v); }
    forall v | v in loops.body
      ensures FeedsFromStart(def, v, loops.body[v]) && v in loops.body[v]
    {
      RegisteredSlice(def, loops, v);
    }
    forall v, t | v in loops.body && t in loops.body[v] ensures t in TaskIds(def) {
      var task := TaskOfVerifier(def, v);
      SliceMembers(def, task, t);
    }
    forall u, v, t | u in loops.body && v in loops.body && t in loops.body[u] && t in loops.body[v] ensures u == v {
      SharedTask(def, loops, u, v, t);
    }
  }

  lemma SharedTask(def: WorkflowDef, loops: Loops, u: TaskId, v: TaskId, t: TaskId)
    requires Registered(def) && LoopsOf(def, loops)
    requires u in loops.body && v in loops.body && t in loops.body[u] && t in loops.body[v]
    ensures u == v
  {
    hide EdgesOf, Reaches, Cyclic, SliceOf, TaskIds;
    var a := TaskOfVerifier(def, u);
    var b := TaskOfVerifier(def, v);
    assert loops.body[u] == SliceOf(def, a) && loops.body[v] == SliceOf(def, b);
  }

  lemma RegisteredSlice(def: WorkflowDef, loops: Loops, v: TaskId)
    requires Registered(def) && LoopsOf(def, loops) && v in loops.body
    ensures FeedsFromStart(def, v, loops.body[v]) && v in loops.body[v]
  {
    var task := TaskOfVerifier(def, v);
    assert loops.body[v] == SliceOf(def, task);
    SliceHasEnds(def, task);
    forall b | b in def.dataBindings && b.target == StartOf(def, v) ensures b.source !in loops.body[v] {
      NoBindingBackToStart(def, task, b);
    }
    forall t | t in loops.body[v] && t != StartOf(def, v) ensures FedFromSlice(def, loops.body[v], t) {
      var b := FeedingBinding(def, task, t);
    }
  }

  lemma SliceHasEnds(def: WorkflowDef, task: TaskDef)
    requires Registered(def) && task in def.tasks && task.verifier.Some?
    ensures task.id in SliceOf(def, task) && task.RerunStart() in SliceOf(def, task)
  {
    ReachesSelf(EdgesOf(def), task.id);
    ReachesSelf(EdgesOf(def), task.RerunStart());
    SliceMembers(def, task, task.id);
    SliceMembers(def, task, task.RerunStart());
    var k :| 0 <= k < |def.tasks| && def.tasks[k] == task;
  }

  lemma NoBindingBackToStart(def: WorkflowDef, task: TaskDef, b: DataBinding)
    requires Registered(def) && task in def.tasks && task.verifier.Some?
    requires b in def.dataBindings && b.target == task.RerunStart()
    ensures b.source !in SliceOf(def, task)
  {
    if b.source in SliceOf(def, task) {
      var edges := EdgesOf(def);
      SliceMembers(def, task, b.source);
      EdgeOfBinding(def, b);
      var p :| PathFromTo(edges, p, b.target, b.source);
      assert PathFromTo(edges, p + [b.target], b.target, b.target);
    }
  }

  lemma FeedingBinding(def: WorkflowDef, task: TaskDef, t: TaskId) returns (b: DataBinding)
    requires Registered(def) && task in def.tasks && task.verifier.Some?
    requires t in SliceOf(def, task) && t != task.RerunStart()
    ensures b in def.dataBindings && b.target == t && b.source in SliceOf(def, task)
  {
    var edges, start := EdgesOf(def), task.RerunStart();
    SliceMembers(def, task, t);
    var p :| PathFromTo(edges, p, start, t);
    var source := p[|p| - 2];
    assert (source, t) in edges;
    var k :| 0 <= k < |def.dataBindings| && (def.dataBindings[k].source, def.dataBindings[k].target) == (source, t);
    b := def.dataBindings[k];
    assert PathFromTo(edges, p[..|p| - 1], start, source);
    assert PathFromTo(edges, [source, t], source, t);
    ReachesTransitive(edges, source, t, task.id);
    SliceMembers(def, task, source);
  }
}
