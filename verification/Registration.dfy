/**
 The checks a workflow definition must pass before it is stored. What they ask of its graph is exactly
 Registered, the assumption under which the engine's guarantees are proved.
 */
module Registration {
  import opened Prelude
  import opened JsonValues
  import opened Model
  import opened LoopSlices

  ghost predicate Closed(def: WorkflowDef) {
    forall b :: b in def.dataBindings ==> b.source in TaskIds(def) && b.target in TaskIds(def)
  }

  // ---------------------------------------------------------------------------
  // Cycles

  /** The targets of the bindings whose source is not in `done`, as often as they are bound. */
  function Waiting(bindings: seq<DataBinding>, done: set<TaskId>): multiset<TaskId> {
    if bindings == [] then multiset{}
    else
      (if bindings[0].source in done then multiset{} else multiset{bindings[0].target}) + Waiting(bindings[1..], done)
  }

  function TargetsOf(bindings: seq<DataBinding>, source: TaskId): seq<TaskId> {
    if bindings == [] then []
    else (if bindings[0].source == source then [bindings[0].target] else []) + TargetsOf(bindings[1..], source)
  }

  /** Finishing one task releases exactly its targets. */
  lemma {:induction false} FinishingReleases(bindings: seq<DataBinding>, done: set<TaskId>, node: TaskId)
    requires node !in done
    ensures Waiting(bindings, done) == Waiting(bindings, done + {node}) + multiset(TargetsOf(bindings, node))
  {
    if bindings != [] {
      FinishingReleases(bindings[1..], done, node);
      var rest := TargetsOf(bindings[1..], node);
      assert multiset([bindings[0].target] + rest) == multiset{bindings[0].target} + multiset(rest);
      assert [] + rest == rest;
    }
  }

  lemma {:induction false} WaitingMembers(bindings: seq<DataBinding>, done: set<TaskId>)
    ensures forall t :: t in Waiting(bindings, done)
              <==> exists b :: b in bindings && b.target == t && b.source !in done
  {
    if bindings != [] {
      WaitingMembers(bindings[1..], done);
      forall t ensures t in Waiting(bindings, done)
             <==> exists b :: b in bindings && b.target == t && b.source !in done {
        if t in Waiting(bindings[1..], done) {
          var b :| b in bindings[1..] && b.target == t && b.source !in done;
          assert b in bindings;
        }
        if b :| b in bindings && b.target == t && b.source !in done {
          assert b == bindings[0] || b in bindings[1..];
        }
      }
    }
  }

  lemma {:induction false} WaitingAppend(bindings: seq<DataBinding>, b: DataBinding, done: set<TaskId>)
    ensures Waiting(bindings + [b], done) == Waiting(bindings, done) + if b.source in done then multiset{}
      else multiset{b.target}
  {
    if bindings == [] {
      assert bindings + [b] == [b] && [b][1..] == [];
    } else {
      assert (bindings + [b])[1..] == bindings[1..] + [b];
      WaitingAppend(bindings[1..], b, done);
    }
  }

  lemma {:induction false} TargetsAppend(bindings: seq<DataBinding>, b: DataBinding, source: TaskId)
    ensures TargetsOf(bindings + [b], source) == TargetsOf(bindings, source) + if b.source == source then [b.target]
      else []
  {
    if bindings == [] {
      assert bindings + [b] == [b] && [b][1..] == [];
    } else {
      assert (bindings + [b])[1..] == bindings[1..] + [b];
      TargetsAppend(bindings[1..], b, source);
    }
  }

  ghost predicate Counts(inDegree: map<TaskId, nat>, bindings: seq<DataBinding>) {
    forall t :: t in inDegree ==> inDegree[t] == Waiting(bindings, {})[t]
  }

  ghost predicate Lists(adjacency: map<TaskId, seq<TaskId>>, bindings: seq<DataBinding>) {
    forall t :: t in adjacency ==> adjacency[t] == TargetsOf(bindings, t)
  }

  lemma CountOneMore(inDegree: map<TaskId, nat>, bindings: seq<DataBinding>, b: DataBinding)
    requires Counts(inDegree, bindings) && b.target in inDegree
    ensures Counts(inDegree[b.target := inDegree[b.target] + 1], bindings + [b])
  {
    WaitingAppend(bindings, b, {});
  }

  lemma ListOneMore(adjacency: map<TaskId, seq<TaskId>>, bindings: seq<DataBinding>, b: DataBinding)
    requires Lists(adjacency, bindings) && b.source in adjacency
    ensures Lists(adjacency[b.source := adjacency[b.source] + [b.target]], bindings + [b])
  {
    forall t | t in adjacency
      ensures TargetsOf(bindings + [b], t) == if t == b.source then adjacency[t] + [b.target] else adjacency[t]
    {
      TargetsAppend(bindings, b, t);
    }
  }

  /** In-degrees and adjacency lists over all tasks. */
  lemma NothingCounted(inDegree: map<TaskId, nat>, adjacency: map<TaskId, seq<TaskId>>)
    requires (forall t :: t in inDegree ==> inDegree[t] == 0) && forall t :: t in adjacency ==> adjacency[t] == []
    ensures Counts(inDegree, []) && Lists(adjacency, [])
  {
  }

  method CountEdges(def: WorkflowDef) returns (inDegree: map<TaskId, nat>, adjacency: map<TaskId, seq<TaskId>>)
    requires Closed(def)
    ensures inDegree.Keys == TaskIds(def) && adjacency.Keys == TaskIds(def)
    ensures Counts(inDegree, def.dataBindings) && Lists(adjacency, def.dataBindings)
  {
    hide Counts, Lists, Waiting, TargetsOf, TaskIds, Closed;
    var ids := TaskIds(def);
    inDegree, adjacency := map t | t in ids :: 0, map t | t in ids :: [];
    NothingCounted(inDegree, adjacency);
    WholeSlices(def.dataBindings);
    for k := 0 to |def.dataBindings|
      invariant inDegree.Keys == ids && adjacency.Keys == ids
      invariant Counts(inDegree, def.dataBindings[..k]) && Lists(adjacency, def.dataBindings[..k])
    {
      var b := def.dataBindings[k];
      BindingClosed(def, k);
      PrefixStep(def.dataBindings, k);
      CountOneMore(inDegree, def.dataBindings[..k], b);
      ListOneMore(adjacency, def.dataBindings[..k], b);
      inDegree := inDegree[b.target := inDegree[b.target] + 1];
      adjacency := adjacency[b.source := adjacency[b.source] + [b.target]];
    }
  }

  lemma BindingClosed(def: WorkflowDef, k: nat)
    requires Closed(def) && k < |def.dataBindings|
    ensures def.dataBindings[k].source in TaskIds(def) && def.dataBindings[k].target in TaskIds(def)
  {
    assert def.dataBindings[k] in def.dataBindings;
  }

  /** Tasks listed so that no binding leads backwards or outside. */
  ghost predicate Ordered(bindings: seq<DataBinding>, order: seq<TaskId>) {
    && Distinct(order)
    && forall b, j :: b in bindings && 0 <= j < |order| && order[j] == b.target
         ==> exists i :: 0 <= i < j && order[i] == b.source
  }

  /** Part of the targets of a finished task have been released. */
  ghost predicate Releasing(queue: seq<TaskId>, done: seq<TaskId>, left: seq<TaskId>, rest: multiset<TaskId>,
    degrees: map<TaskId, nat>, extended: seq<TaskId>)
  {
    && (forall t :: t in degrees ==> degrees[t] == rest[t] + multiset(left)[t])
    && Distinct(extended) && queue <= extended
    && (forall t :: t in extended <==> t in queue || (t in done && rest[t] == 0 && t !in left))
  }

  lemma ReleaseOne(queue: seq<TaskId>, done: seq<TaskId>, n: TaskId, left: seq<TaskId>, rest: multiset<TaskId>,
    degrees: map<TaskId, nat>, extended: seq<TaskId>)
    requires Releasing(queue, done, [n] + left, rest, degrees, extended) && n in degrees && n !in queue
    ensures degrees[n] >= 1
    ensures var lower := degrees[n := (degrees[n] - 1) as nat];
      Releasing(queue, done + [n], left, rest, lower, if lower[n] == 0 then extended + [n] else extended)
  {
    assert multiset([n] + left) == multiset{n} + multiset(left);
    assert n in [n] + left;
    assert n !in extended;
    assert n in left <==> multiset(left)[n] > 0;
    assert forall t :: t in done + [n] <==> t in done || t == n;
    assert forall t :: t in [n] + left <==> t == n || t in left;
  }

  /** One pass over the targets of a finished task. */
  method Release(inDegree: map<TaskId, nat>, queue: seq<TaskId>, neighbors: seq<TaskId>, ghost rest: multiset<TaskId>)
    returns (degrees: map<TaskId, nat>, extended: seq<TaskId>)
    requires forall t :: t in neighbors ==> t in inDegree
    requires forall t :: t in inDegree ==> inDegree[t] == rest[t] + multiset(neighbors)[t]
    requires Distinct(queue) && forall t :: t in queue ==> t in inDegree && inDegree[t] == 0
    ensures degrees.Keys == inDegree.Keys && forall t :: t in degrees ==> degrees[t] == rest[t]
    ensures Distinct(extended) && queue <= extended
    ensures forall t :: t in extended <==> t in queue || (t in neighbors && rest[t] == 0)
  {
    ReleaseNone(inDegree, queue, neighbors, rest);
    WholeSlices(neighbors);
    degrees, extended := ReleaseEach(inDegree, queue, neighbors, rest);
    ReleaseDone(queue, neighbors, rest, degrees, extended);
  }

  method ReleaseEach(inDegree: map<TaskId, nat>, queue: seq<TaskId>, neighbors: seq<TaskId>,
      ghost rest: multiset<TaskId>) returns (degrees: map<TaskId, nat>, extended: seq<TaskId>)
    requires forall t :: t in neighbors ==> t in inDegree && t !in queue
    requires Releasing(queue, [], neighbors, rest, inDegree, queue)
    ensures degrees.Keys == inDegree.Keys && Releasing(queue, neighbors, [], rest, degrees, extended)
  {
    hide *;
    degrees, extended := inDegree, queue;
    var left := neighbors;
    ghost var done: seq<TaskId> := [];
    while left != []
      invariant degrees.Keys == inDegree.Keys && done + left == neighbors
      invariant Releasing(queue, done, left, rest, degrees, extended)
      decreases |left|
    {
      var n := left[0];
      Shift(done, left);
      ReleaseOne(queue, done, n, left[1..], rest, degrees, extended);
      degrees := degrees[n := degrees[n] - 1];
      if degrees[n] == 0 { extended := extended + [n]; }
      left, done := left[1..], done + [n];
    }
    assert done == neighbors;
  }

  lemma ReleaseDone(queue: seq<TaskId>, neighbors: seq<TaskId>, rest: multiset<TaskId>, degrees: map<TaskId, nat>,
      extended: seq<TaskId>)
    requires Releasing(queue, neighbors, [], rest, degrees, extended)
    ensures forall t :: t in degrees ==> degrees[t] == rest[t]
    ensures Distinct(extended) && queue <= extended
    ensures forall t :: t in extended <==> t in queue || (t in neighbors && rest[t] == 0)
  {
  }

  lemma ReleaseNone(inDegree: map<TaskId, nat>, queue: seq<TaskId>, neighbors: seq<TaskId>, rest: multiset<TaskId>)
    requires forall t :: t in inDegree ==> inDegree[t] == rest[t] + multiset(neighbors)[t]
    requires Distinct(queue) && forall t :: t in queue ==> t in inDegree && inDegree[t] == 0
    ensures Releasing(queue, neighbors[..0], neighbors[0..], rest, inDegree, queue)
    ensures forall t :: t in neighbors ==> t !in queue
  {
    assert forall t :: t in neighbors ==> multiset(neighbors)[t] > 0;
    assert neighbors[0..] == neighbors && neighbors[..0] == [];
  }

  method InitialQueue(inDegree: map<TaskId, nat>) returns (queue: seq<TaskId>)
    ensures Distinct(queue) && forall t :: t in queue <==> t in inDegree && inDegree[t] == 0
  {
    queue := [];
    var todo := inDegree.Keys;
    while todo != {}
      invariant todo <= inDegree.Keys && Distinct(queue)
      invariant forall t :: t in queue <==> t in inDegree && t !in todo && inDegree[t] == 0
      decreases todo
    {
      var t :| t in todo;
      todo := todo - {t};
      if inDegree[t] == 0 { queue := queue + [t]; }
    }
  }

  /** Tasks finished in `order`, tasks released and waiting in `queue`, and the bindings each task still waits for. */
  ghost predicate Progress(bindings: seq<DataBinding>, ids: set<TaskId>, order: seq<TaskId>, queue: seq<TaskId>,
      inDegree: map<TaskId, nat>)
  {
    && Distinct(order + queue) && inDegree.Keys == ids
    && (forall t :: t in order + queue ==> t in ids)
    && (forall t :: t in inDegree ==> inDegree[t] == Waiting(bindings, Members(order))[t])
    && (forall t :: t in ids ==> (t in order + queue <==> inDegree[t] == 0))
    && Ordered(bindings, order)
  }

  lemma MembersAre(s: seq<TaskId>)
    ensures forall t :: t in Members(s) <==> t in s
  {
  }

  /** A task whose bindings are all from finished tasks may be finished next. */
  lemma FinishKeepsOrdered(bindings: seq<DataBinding>, order: seq<TaskId>, node: TaskId)
    requires Ordered(bindings, order) && node !in order && Waiting(bindings, Members(order))[node] == 0
    ensures Ordered(bindings, order + [node])
  {
    var next := order + [node];
    WaitingMembers(bindings, Members(order));
    forall b, j | b in bindings && 0 <= j < |next| && next[j] == b.target
           ensures exists i :: 0 <= i < j && next[i] == b.source {
      if j < |order| {
        var i :| 0 <= i < j && order[i] == b.source;
        assert next[i] == b.source;
      } else {
        assert b.source in Members(order);
        var i :| 0 <= i < |order| && order[i] == b.source;
        assert next[i] == b.source;
      }
    }
  }

  lemma {:induction false} TargetsAreTasks(def: WorkflowDef, bindings: seq<DataBinding>, source: TaskId)
    requires forall b :: b in bindings ==> b.target in TaskIds(def)
    ensures forall t :: t in TargetsOf(bindings, source) ==> t in TaskIds(def)
  {
    if bindings != [] { TargetsAreTasks(def, bindings[1..], source); }
  }

  lemma HeadIsNew(order: seq<TaskId>, node: TaskId, rest: seq<TaskId>)
    requires Distinct(order + ([node] + rest))
    ensures node !in order && Distinct(order + [node] + rest)
  {
    var all := order + ([node] + rest);
    assert all == order + [node] + rest && all[|order|] == node;
    forall k | 0 <= k < |order| ensures order[k] != node { assert all[k] != all[|order|]; }
  }

  lemma ReleaseKeepsProgress(bindings: seq<DataBinding>, ids: set<TaskId>, order: seq<TaskId>, queue: seq<TaskId>,
      inDegree: map<TaskId, nat>, node: TaskId, rest: seq<TaskId>, degrees: map<TaskId, nat>, extended: seq<TaskId>)
    requires Progress(bindings, ids, order, queue, inDegree) && queue == [node] + rest
    requires degrees.Keys == ids && forall t :: t in degrees
                                      ==> degrees[t] == Waiting(bindings, Members(order + [node]))[t]
    requires Distinct(extended) && rest <= extended
    requires var neighbors := TargetsOf(bindings, node);
      && (forall t :: t in neighbors ==> t in ids)
      && (forall t :: t in ids ==> inDegree[t] == degrees[t] + multiset(neighbors)[t])
      && (forall t :: t in extended <==> t in rest || (t in neighbors && degrees[t] == 0))
    ensures Progress(bindings, ids, order + [node], extended, degrees)
  {
    hide TargetsOf, Waiting, Members, Ordered, Distinct;
    var neighbors := TargetsOf(bindings, node);
    HeadIsNew(order, node, rest);
    assert forall t :: t in order + queue <==> t in order || t == node || t in rest;
    assert node in order + queue && inDegree[node] == 0;
    FinishKeepsOrdered(bindings, order, node);
    forall t | t in neighbors ensures t !in order + queue { assert multiset(neighbors)[t] > 0; }
    assert forall t :: t in order + [node] + extended <==> t in order || t == node || t in extended;
    forall t | t in ids ensures t in order + [node] + extended <==> degrees[t] == 0 {
      assert t in neighbors <==> multiset(neighbors)[t] > 0;
    }
    assert forall t :: t in order + [node] + rest <==> t in order + queue;
    DistinctExtended(order + [node], rest, extended);
  }

  lemma DistinctExtended(front: seq<TaskId>, rest: seq<TaskId>, extended: seq<TaskId>)
    requires Distinct(front + rest) && Distinct(extended) && rest <= extended
    requires forall t :: t in extended && t !in rest ==> t !in front + rest
    ensures Distinct(front + extended)
  {
    var all, next := front + rest, front + extended;
    forall i, j | 0 <= i < j < |next| ensures next[i] != next[j] {
      if i < |front| && j >= |front| {
        var t := extended[j - |front|];
        assert t in extended && all[i] == next[i];
        if t in rest {
          var k :| 0 <= k < |rest| && rest[k] == t;
          assert all[|front| + k] == t;
        }
      } else if j < |front| {
        assert all[i] == next[i] && all[j] == next[j];
      }
    }
  }

  /** `has_data_binding_cycle`: whether some task is never released. */
  method HasDataBindingCycle(def: WorkflowDef) returns (cyclic: bool)
    requires UniqueIds(def) && Closed(def)
    ensures cyclic <==> Cyclic(EdgesOf(def))
  {
    hide Progress, Counts, Waiting, TargetsOf, Cyclic, EdgesOf, Distinct;
    var inDegree, adjacency := CountEdges(def);
    ghost var bindings, ids := def.dataBindings, TaskIds(def);
    var queue := InitialQueue(inDegree);
    ghost var order: seq<TaskId> := [];
    var visited := 0;
    StartOfPass(bindings, ids, queue, inDegree);
    while queue != []
      invariant visited == |order| && Progress(bindings, ids, order, queue, inDegree)
      decreases ids - Members(order)
    {
      var node := queue[0];
      assert queue == [node] + queue[1..];
      NodeIsNew(bindings, ids, order, queue, inDegree);
      DegreesSoFar(bindings, ids, order, queue, inDegree);
      visited := visited + 1;
      FinishingReleases(bindings, Members(order), node);
      assert Members(order + [node]) == Members(order) + {node} by { MembersAppend(order, node); }
      TargetsAreTasks(def, bindings, node);
      var degrees, extended :=
        Release(inDegree, queue[1..], adjacency[node], Waiting(bindings, Members(order + [node])));
      ReleaseKeepsProgress(bindings, ids, order, queue, inDegree, node, queue[1..], degrees, extended);
      inDegree, queue, order := degrees, extended, order + [node];
    }
    EndOfPass(def, order, inDegree);
    cyclic := visited != |def.tasks|;
  }

  lemma StartOfPass(bindings: seq<DataBinding>, ids: set<TaskId>, queue: seq<TaskId>, inDegree: map<TaskId, nat>)
    requires Distinct(queue) && (forall t :: t in queue <==> t in inDegree && inDegree[t] == 0)
    requires inDegree.Keys == ids && Counts(inDegree, bindings)
    ensures Progress(bindings, ids, [], queue, inDegree)
  {
    var none: seq<TaskId> := [];
    assert none + queue == queue && Members(none) == {};
  }

  lemma DegreesSoFar(bindings: seq<DataBinding>, ids: set<TaskId>, order: seq<TaskId>, queue: seq<TaskId>,
      inDegree: map<TaskId, nat>)
    requires Progress(bindings, ids, order, queue, inDegree)
    ensures inDegree.Keys == ids && forall t :: t in inDegree ==> inDegree[t] == Waiting(bindings, Members(order))[t]
  {
  }

  lemma NodeIsNew(bindings: seq<DataBinding>, ids: set<TaskId>, order: seq<TaskId>, queue: seq<TaskId>,
      inDegree: map<TaskId, nat>)
    requires Progress(bindings, ids, order, queue, inDegree) && queue != []
    ensures queue[0] in ids && queue[0] !in Members(order)
    ensures Distinct(queue[1..]) && forall t :: t in queue[1..] ==> t in inDegree && inDegree[t] == 0
  {
    var all := order + queue;
    assert all[|order|] == queue[0] && queue[0] in all;
    forall k | 0 <= k < |order| ensures order[k] != queue[0] { assert all[k] == order[k]; }
    forall i, j | 0 <= i < j < |queue[1..]| ensures queue[1..][i] != queue[1..][j] {
      assert all[|order| + 1 + i] == queue[1..][i] && all[|order| + 1 + j] == queue[1..][j];
    }
    forall t | t in queue[1..] ensures t in all { assert t in queue; }
  }

  // Sizes

  lemma {:induction false} DistinctSize(s: seq<TaskId>)
    requires Distinct(s)
    ensures |Members(s)| == |s|
  {
    if s != [] {
      var front, last := s[..|s| - 1], s[|s| - 1];
      assert s == front + [last];
      DistinctSize(front);
      MembersAppend(front, last);
      assert last !in front;
    }
  }

  function Names(tasks: seq<TaskDef>): (names: seq<TaskId>)
    ensures |names| == |tasks| && forall k :: 0 <= k < |tasks| ==> names[k] == tasks[k].id
  {
    if tasks == [] then [] else [tasks[0].id] + Names(tasks[1..])
  }

  lemma TaskCount(def: WorkflowDef)
    requires UniqueIds(def)
    ensures |TaskIds(def)| == |def.tasks|
  {
    DistinctSize(Names(def.tasks));
    assert Members(Names(def.tasks)) == TaskIds(def);
  }

  // Cycles and orders exclude each other

  ghost predicate Backed(bindings: seq<DataBinding>, rest: set<TaskId>) {
    forall t :: t in rest ==> exists b :: b in bindings && b.target == t && b.source in rest
  }

  lemma PathGrows(edges: Edges, q: seq<TaskId>, t: TaskId)
    requires IsPath(edges, q) && (q[|q| - 1], t) in edges
    ensures IsPath(edges, q + [t])
  {
    var p := q + [t];
    forall k | 0 <= k < |p| - 1 ensures (p[k], p[k + 1]) in edges {
      if k < |q| - 1 { assert (q[k], q[k + 1]) in edges; }
    }
  }

  lemma {:induction false} BackWalk(def: WorkflowDef, rest: set<TaskId>, t: TaskId, n: nat) returns (p: seq<TaskId>)
    requires Backed(def.dataBindings, rest) && t in rest
    ensures |p| == n + 1 && IsPath(EdgesOf(def), p) && forall k :: 0 <= k < |p| ==> p[k] in rest
    ensures p[|p| - 1] == t
    decreases n
  {
    hide EdgesOf, Reaches;
    if n == 0 {
      p := [t];
    } else {
      var b :| b in def.dataBindings && b.target == t && b.source in rest;
      EdgeOfBinding(def, b);
      var q := BackWalk(def, rest, b.source, n - 1);
      p := q + [t];
      PathGrows(EdgesOf(def), q, t);
    }
  }

  /** Tasks that all wait for one another hold a cycle. */
  lemma Repeats(p: seq<TaskId>, rest: set<TaskId>) returns (i: nat, j: nat)
    requires |p| > |rest| && forall k :: 0 <= k < |p| ==> p[k] in rest
    ensures i < j < |p| && p[i] == p[j]
  {
    if Distinct(p) {
      DistinctSize(p);
      SubsetSize(Members(p), rest);
    }
    i, j :| 0 <= i < j < |p| && p[i] == p[j];
  }

  lemma PathRepeats(edges: Edges, p: seq<TaskId>, i: nat, j: nat)
    requires IsPath(edges, p) && i < j < |p| && p[i] == p[j]
    ensures Cyclic(edges)
  {
    var c := p[i..j + 1];
    forall k | 0 <= k < |c| - 1 ensures (c[k], c[k + 1]) in edges { assert (p[i + k], p[i + k + 1]) in edges; }
    assert PathFromTo(edges, c, p[i], p[i]);
  }

  lemma BackedHasCycle(def: WorkflowDef, rest: set<TaskId>)
    requires Backed(def.dataBindings, rest) && rest != {}
    ensures Cyclic(EdgesOf(def))
  {
    hide *;
    var t :| t in rest;
    var p := BackWalk(def, rest, t, |rest|);
    var i, j := Repeats(p, rest);
    PathRepeats(EdgesOf(def), p, i, j);
  }

  lemma {:induction false} PathClimbs(def: WorkflowDef, order: seq<TaskId>, p: seq<TaskId>, last: nat)
      returns (first: nat)
    requires Ordered(def.dataBindings, order) && IsPath(EdgesOf(def), p)
    requires last < |order| && order[last] == p[|p| - 1]
    ensures first <= last && order[first] == p[0] && (|p| >= 2 ==> first < last)
    decreases |p|
  {
    if |p| == 1 {
      first := last;
    } else {
      var q := p[..|p| - 1];
      assert (p[|p| - 2], p[|p| - 1]) in EdgesOf(def);
      var k :| 0 <= k < |def.dataBindings|
        && (def.dataBindings[k].source, def.dataBindings[k].target) == (p[|p| - 2], p[|p| - 1]);
      var b := def.dataBindings[k];
      assert b in def.dataBindings && order[last] == b.target;
      var i :| 0 <= i < last && order[i] == b.source;
      first := PathClimbs(def, order, q, i);
    }
  }

  lemma OrderedIsAcyclic(def: WorkflowDef, order: seq<TaskId>)
    requires Closed(def) && Ordered(def.dataBindings, order) && forall t :: t in TaskIds(def) ==> t in order
    ensures !Cyclic(EdgesOf(def))
  {
    if Cyclic(EdgesOf(def)) {
      var p, x :| |p| >= 2 && PathFromTo(EdgesOf(def), p, x, x);
      assert (p[|p| - 2], p[|p| - 1]) in EdgesOf(def);
      var k :| 0 <= k < |def.dataBindings|
        && (def.dataBindings[k].source, def.dataBindings[k].target) == (p[|p| - 2], p[|p| - 1]);
      assert def.dataBindings[k] in def.dataBindings && x in order;
      var last :| 0 <= last < |order| && order[last] == x;
      var first := PathClimbs(def, order, p, last);
      assert false;
    }
  }

  lemma UnfinishedAreBacked(def: WorkflowDef, order: seq<TaskId>, inDegree: map<TaskId, nat>)
    requires Closed(def) && Progress(def.dataBindings, TaskIds(def), order, [], inDegree)
    ensures Backed(def.dataBindings, TaskIds(def) - Members(order))
  {
    var rest := TaskIds(def) - Members(order);
    assert order + [] == order;
    WaitingMembers(def.dataBindings, Members(order));
    forall t | t in rest ensures exists b :: b in def.dataBindings && b.target == t && b.source in rest {
      assert inDegree[t] != 0 && t in Waiting(def.dataBindings, Members(order));
      var b :| b in def.dataBindings && b.target == t && b.source !in Members(order);
      assert b.source in rest;
    }
  }

  lemma Finished(def: WorkflowDef, order: seq<TaskId>, inDegree: map<TaskId, nat>)
    requires Progress(def.dataBindings, TaskIds(def), order, [], inDegree)
    ensures Distinct(order) && Members(order) <= TaskIds(def) && Ordered(def.dataBindings, order)
  {
    assert order + [] == order;
  }

  lemma AllFinished(def: WorkflowDef, order: seq<TaskId>)
    requires Closed(def) && Ordered(def.dataBindings, order) && Members(order) == TaskIds(def)
    ensures !Cyclic(EdgesOf(def))
  {
    MembersAre(order);
    OrderedIsAcyclic(def, order);
  }

  lemma FinishedCount(order: seq<TaskId>, ids: set<TaskId>)
    requires Distinct(order) && Members(order) <= ids
    ensures |order| == |ids| <==> ids - Members(order) == {}
    ensures |order| == |ids| ==> Members(order) == ids
  {
    DistinctSize(order);
    assert |ids - Members(order)| == |ids| - |Members(order)|;
  }

  lemma EndOfPass(def: WorkflowDef, order: seq<TaskId>, inDegree: map<TaskId, nat>)
    requires UniqueIds(def) && Closed(def) && Progress(def.dataBindings, TaskIds(def), order, [], inDegree)
    ensures |order| != |def.tasks| <==> Cyclic(EdgesOf(def))
  {
    hide *;
    Finished(def, order, inDegree);
    TaskCount(def);
    FinishedCount(order, TaskIds(def));
    if |order| == |def.tasks| {
      AllFinished(def, order);
    } else {
      UnfinishedAreBacked(def, order, inDegree);
      BackedHasCycle(def, TaskIds(def) - Members(order));
    }
  }

  // ---------------------------------------------------------------------------
  // Ancestors

  lemma SourcesAreUpstream(edges: Edges, upstream: map<TaskId, seq<TaskId>>, current: TaskId, x: TaskId)
    requires Represents(upstream, Flip(edges))
    ensures (x, current) in edges <==> current in upstream && x in upstream[current]
  {
    if (current, x) in Flip(edges) {
      var e :| e in edges && (e.1, e.0) == (current, x);
      assert e == (x, current);
    }
    if (x, current) in edges { assert ((x, current).1, (x, current).0) in Flip(edges); }
  }

  /** What the walk knows: everything seen or stacked leads to the task, and the ancestor was not met so far. */
  ghost predicate Walked(edges: Edges, nodes: set<TaskId>, ancestor: TaskId, task: TaskId, seen: set<TaskId>,
      stack: seq<TaskId>)
  {
    && (forall x :: x in seen || x in stack ==> x in nodes && Reaches(edges, x, task))
    && (task in seen || task in stack)
    && (forall e :: e in edges && e.1 in seen ==> e.0 != ancestor && (e.0 in seen || e.0 in stack))
  }

  lemma WalkStart(edges: Edges, nodes: set<TaskId>, ancestor: TaskId, task: TaskId)
    requires task in nodes
    ensures Walked(edges, nodes, ancestor, task, {}, [task])
  {
    ReachesSelf(edges, task);
  }

  /** The top of the stack is a node that leads to the task. */
  lemma WalkTop(edges: Edges, nodes: set<TaskId>, ancestor: TaskId, task: TaskId, seen: set<TaskId>,
      rest: seq<TaskId>, current: TaskId)
    requires Walked(edges, nodes, ancestor, task, seen, rest + [current])
    ensures current in nodes && Reaches(edges, current, task)
  {
    assert current in rest + [current];
  }

  lemma WalkOn(edges: Edges, nodes: set<TaskId>, ancestor: TaskId, task: TaskId, seen: set<TaskId>,
      rest: seq<TaskId>, current: TaskId, sources: seq<TaskId>)
    requires Walked(edges, nodes, ancestor, task, seen, rest + [current])
    requires forall x :: x in sources <==> (x, current) in edges
    requires ancestor !in sources && forall e :: e in edges ==> e.0 in nodes
    ensures Walked(edges, nodes, ancestor, task, seen + {current}, rest + sources)
  {
    forall x | x in sources ensures x in nodes && Reaches(edges, x, task) {
      assert (x, current) in edges && (x, current).0 == x;
      assert PathFromTo(edges, [x, current], x, current);
      assert current in rest + [current];
      ReachesTransitive(edges, x, current, task);
    }
    forall e | e in edges && e.1 in seen + {current}
           ensures e.0 != ancestor && (e.0 in seen + {current} || e.0 in rest + sources) {
      if e.1 == current {
        assert (e.0, current) in edges;
      } else {
        assert e.0 in seen || e.0 in rest + [current];
      }
    }
  }

  lemma WalkPast(edges: Edges, nodes: set<TaskId>, ancestor: TaskId, task: TaskId, seen: set<TaskId>,
      rest: seq<TaskId>, current: TaskId)
    requires Walked(edges, nodes, ancestor, task, seen, rest + [current]) && current in seen
    ensures Walked(edges, nodes, ancestor, task, seen, rest)
  {
    assert forall x :: x in rest + [current] <==> x in rest || x == current;
  }

  /** Pushes the sources of a task until the ancestor is met. */
  method PushUpstream(stack: seq<TaskId>, sources: seq<TaskId>, ancestor: TaskId)
      returns (met: bool, pushed: seq<TaskId>)
    ensures met <==> ancestor in sources
    ensures !met ==> pushed == stack + sources
  {
    pushed := stack;
    for k := 0 to |sources|
      invariant ancestor !in sources[..k] && pushed == stack + sources[..k]
    {
      PrefixStep(sources, k);
      if sources[k] == ancestor { return true, pushed; }
      pushed := pushed + [sources[k]];
    }
    WholeSlices(sources);
    return false, pushed;
  }

  /** `is_upstream_ancestor`: a path of at least one binding leads from the ancestor to the task. */
  method IsUpstreamAncestor(def: WorkflowDef, ancestor: TaskId, task: TaskId) returns (found: bool)
    ensures found <==> exists y :: (ancestor, y) in EdgesOf(def) && Reaches(EdgesOf(def), y, task)
  {
    hide EdgesOf, Walked, Reaches, Represents, Flip;
    ghost var edges := EdgesOf(def);
    var upstream := BuildAdjacency(def, false);
    var stack, seen := [task], {};
    ghost var nodes := {task} + set e | e in edges :: e.0;
    WalkStart(edges, nodes, ancestor, task);
    while stack != []
      invariant Walked(edges, nodes, ancestor, task, seen, stack)
      decreases |nodes - seen|, |stack|
    {
      var current := stack[|stack| - 1];
      var rest := stack[..|stack| - 1];
      assert stack == rest + [current];
      WalkTop(edges, nodes, ancestor, task, seen, rest, current);
      stack := rest;
      if current in seen {
        WalkPast(edges, nodes, ancestor, task, seen, rest, current);
        continue;
      }
      assert nodes - (seen + {current}) == nodes - seen - {current};
      var sources := if current in upstream then upstream[current] else [];
      forall x ensures x in sources <==> (x, current) in edges { SourcesAreUpstream(edges, upstream, current, x); }
      var met;
      met, stack := PushUpstream(rest, sources, ancestor);
      if met {
        assert (ancestor, current) in edges;
        return true;
      }
      WalkOn(edges, nodes, ancestor, task, seen, rest, current, sources);
      seen := seen + {current};
    }
    forall y | (ancestor, y) in edges ensures !Reaches(edges, y, task) {
      NotUpstream(edges, nodes, ancestor, task, seen, y);
    }
    return false;
  }

  lemma NotUpstream(edges: Edges, nodes: set<TaskId>, ancestor: TaskId, task: TaskId, seen: set<TaskId>, y: TaskId)
    requires Walked(edges, nodes, ancestor, task, seen, []) && (ancestor, y) in edges
    ensures !Reaches(edges, y, task)
  {
    assert y !in seen by { assert (ancestor, y).1 == y && (ancestor, y).0 == ancestor; }
    if Reaches(edges, y, task) { NothingUpstreamMissed(edges, seen, y, task); }
  }

  /** A set closed backwards holds every node that leads into it. */
  lemma NothingUpstreamMissed(edges: Edges, seen: set<TaskId>, y: TaskId, task: TaskId)
    requires task in seen && forall e :: e in edges && e.1 in seen ==> e.0 in seen
    requires Reaches(edges, y, task)
    ensures y in seen
  {
    var p :| PathFromTo(edges, p, y, task);
    var k := |p| - 1;
    while k > 0
      invariant 0 <= k < |p| && p[k] in seen
    {
      assert (p[k - 1], p[k]) in edges;
      k := k - 1;
    }
  }

  lemma AncestorMeansReaches(edges: Edges, ancestor: TaskId, task: TaskId)
    requires ancestor != task
    ensures Reaches(edges, ancestor, task) <==> exists y :: (ancestor, y) in edges && Reaches(edges, y, task)
  {
    if Reaches(edges, ancestor, task) {
      var p :| PathFromTo(edges, p, ancestor, task);
      assert (p[0], p[1]) in edges && PathFromTo(edges, p[1..], p[1], task);
    }
    if y :| (ancestor, y) in edges && Reaches(edges, y, task) {
      assert PathFromTo(edges, [ancestor, y], ancestor, y);
      ReachesTransitive(edges, ancestor, y, task);
    }
  }

  // ---------------------------------------------------------------------------
  // Overlap

  /** Claims every task of a slice; stops at the first that is already claimed. */
  method ClaimSlice(owners: map<TaskId, TaskId>, verifier: TaskId, slice: seq<TaskId>)
      returns (claimed: map<TaskId, TaskId>, clash: Option<TaskId>)
    requires Distinct(slice)
    ensures clash.Some? ==> clash.value in slice && clash.value in owners
    ensures clash.None? ==> forall t :: t in claimed <==> t in owners || t in slice
    ensures clash.None? ==> forall t :: t in slice ==> t !in owners
  {
    claimed, clash := owners, None;
    for m := 0 to |slice|
      invariant forall t :: t in claimed <==> t in owners || t in slice[..m]
      invariant forall t :: t in slice[..m] ==> t !in owners
    {
      assert slice[m] !in slice[..m];
      if slice[m] in claimed { return claimed, Some(slice[m]); }
      claimed := claimed[slice[m] := verifier];
    }
    assert slice[..|slice|] == slice;
  }

  /** The first `k` slices are disjoint, and their tasks are the ones claimed. */
  ghost predicate Apart(loops: Loops, k: nat, owners: map<TaskId, TaskId>)
    requires k <= |loops.order| && forall v :: v in loops.order ==> v in loops.body
  {
    && (forall t :: t in owners <==> exists j :: 0 <= j < k && t in loops.body[loops.order[j]])
    && (forall i, j, t :: 0 <= i < j < k && t in loops.body[loops.order[i]] ==> t !in loops.body[loops.order[j]])
  }

  lemma ApartOneMore(loops: Loops, k: nat, owners: map<TaskId, TaskId>, claimed: map<TaskId, TaskId>)
    requires k < |loops.order| && forall v :: v in loops.order ==> v in loops.body
    requires Apart(loops, k, owners)
    requires var slice := loops.body[loops.order[k]];
      (forall t :: t in claimed <==> t in owners || t in slice) && forall t :: t in slice ==> t !in owners
    ensures Apart(loops, k + 1, claimed)
  {
    forall i, t | 0 <= i < k && t in loops.body[loops.order[i]] ensures t !in loops.body[loops.order[k]] {
      assert t in owners;
    }
  }

  /** `validate_non_overlapping_verifier_slices`: each task is claimed by the first slice that holds it. */
  method SlicesOverlap(def: WorkflowDef) returns (overlap: bool)
    requires UniqueIds(def)
    ensures overlap <==> !Disjoint(def)
  {
    var loops := ComputeLoopSlices(def);
    var owners: map<TaskId, TaskId> := map[];
    for k := 0 to |loops.order|
      invariant Apart(loops, k, owners)
    {
      var v := loops.order[k];
      SliceDistinct(def, loops, v);
      var claimed, clash := ClaimSlice(owners, v, loops.body[v]);
      if clash.Some? {
        OwnedBefore(def, loops, k, owners, clash.value);
        return true;
      }
      hide LoopsOf, Apart, SliceOf, Disjoint, TaskIds, UniqueIds;
      ApartOneMore(loops, k, owners, claimed);
      owners := claimed;
    }
    NoOverlapFound(def, loops);
    return false;
  }

  lemma OwnedBefore(def: WorkflowDef, loops: Loops, k: nat, owners: map<TaskId, TaskId>, t: TaskId)
    requires UniqueIds(def) && LoopsOf(def, loops) && k < |loops.order| && Apart(loops, k, owners)
    requires t in owners && t in loops.body[loops.order[k]]
    ensures !Disjoint(def)
  {
    hide LoopsOf, Apart, UniqueIds, Disjoint;
    var j := EarlierOwner(def, loops, k, owners, t);
    OverlapFound(def, loops, loops.order[j], loops.order[k], t);
  }

  lemma EarlierOwner(def: WorkflowDef, loops: Loops, k: nat, owners: map<TaskId, TaskId>, t: TaskId) returns (j: nat)
    requires LoopsOf(def, loops) && k < |loops.order| && Apart(loops, k, owners) && t in owners
    ensures j < k && loops.order[j] != loops.order[k]
    ensures loops.order[j] in loops.body && loops.order[k] in loops.body && t in loops.body[loops.order[j]]
  {
    j :| 0 <= j < k && t in loops.body[loops.order[j]];
  }

  lemma {:induction false} KeepIdsDistinct(tasks: seq<TaskDef>, keep: set<TaskId>)
    requires forall i, j :: 0 <= i < j < |tasks| ==> tasks[i].id != tasks[j].id
    ensures Distinct(KeepIds(tasks, keep))
  {
    if tasks != [] {
      KeepIdsDistinct(tasks[1..], keep);
      KeepIdsMembers(tasks[1..], keep);
      var rest := KeepIds(tasks[1..], keep);
      forall k | 0 <= k < |rest| ensures rest[k] != tasks[0].id {
        assert rest[k] in rest;
        var m :| 0 <= m < |tasks| - 1 && tasks[1..][m].id == rest[k];
      }
    }
  }

  lemma SliceDistinct(def: WorkflowDef, loops: Loops, v: TaskId)
    requires UniqueIds(def) && LoopsOf(def, loops) && v in loops.body
    ensures Distinct(loops.body[v])
  {
    var task := TaskOfVerifier(def, v);
    KeepIdsDistinct(def.tasks, set t | t in TaskIds(def) && OnLoopPath(def, task.RerunStart(), task.id, t));
  }

  lemma OverlapFound(def: WorkflowDef, loops: Loops, u: TaskId, v: TaskId, t: TaskId)
    requires UniqueIds(def) && LoopsOf(def, loops) && u in loops.body && v in loops.body && u != v
    requires t in loops.body[u] && t in loops.body[v]
    ensures !Disjoint(def)
  {
    var a := TaskOfVerifier(def, u);
    var b := TaskOfVerifier(def, v);
    assert loops.body[u] == SliceOf(def, a) && loops.body[v] == SliceOf(def, b);
  }

  lemma NoOverlapFound(def: WorkflowDef, loops: Loops)
    requires UniqueIds(def) && LoopsOf(def, loops)
    requires forall i, j, t :: 0 <= i < j < |loops.order| && t in loops.body[loops.order[i]]
               ==> t !in loops.body[loops.order[j]]
    ensures Disjoint(def)
  {
    forall u, v, t | u in def.tasks && v in def.tasks && u.verifier.Some? && v.verifier.Some? && u.id != v.id
           && t in SliceOf(def, u)
      ensures t !in SliceOf(def, v)
    {
      var a :| 0 <= a < |def.tasks| && def.tasks[a] == u;
      var b :| 0 <= b < |def.tasks| && def.tasks[b] == v;
      assert u.id in loops.body && v.id in loops.body;
      var i :| 0 <= i < |loops.order| && loops.order[i] == u.id;
      var j :| 0 <= j < |loops.order| && loops.order[j] == v.id;
      assert loops.body[loops.order[i]] == SliceOf(def, u) && loops.body[loops.order[j]] == SliceOf(def, v);
    }
  }

  // ---------------------------------------------------------------------------
  // Ids and verifiers

  method HasUniqueIds(def: WorkflowDef) returns (ok: bool)
    ensures ok <==> UniqueIds(def)
  {
    var seen: set<TaskId> := {};
    for k := 0 to |def.tasks|
      invariant seen == set j | 0 <= j < k :: def.tasks[j].id
      invariant forall i, j :: 0 <= i < j < k ==> def.tasks[i].id != def.tasks[j].id
    {
      if def.tasks[k].id in seen { return false; }
      seen := seen + {def.tasks[k].id};
    }
    return true;
  }

  predicate VerifierDeclared(def: WorkflowDef, task: TaskDef) {
    task.verifier.Some? ==> task.verifier.value.maxIterations > 0 && task.RerunStart() in TaskIds(def)
  }

  // ---------------------------------------------------------------------------
  // Schemas, and the whole check

  /**
   What the check needs of schemas: the schema every verdict must meet, and the effective schema of a task, worked
   out from its own schema and its control flags, or an error.
   */
  datatype Schemas = Schemas(verdict: Json, effective: TaskDef -> Result<Option<Json>, string>)

  function WithVerdictSchema(schemas: Schemas, task: TaskDef): TaskDef {
    if task.verifier.Some? then task.(outputSchema := Some(schemas.verdict)) else task
  }

  /** A verifier brings no schema of its own, and the effective schema can be worked out. */
  predicate SchemaFits(schemas: Schemas, task: TaskDef) {
    (task.verifier.Some? ==> task.outputSchema.None?) && schemas.effective(WithVerdictSchema(schemas, task)).Success?
  }

  /** The task as it is stored, with the effective schema the engine will use. */
  function Prepared(schemas: Schemas, task: TaskDef): TaskDef {
    var stored := WithVerdictSchema(schemas, task);
    match schemas.effective(stored)
    case Success(schema) => stored.(effectiveOutputSchema := schema)
    case Failure(_) => stored
  }

  function PreparedDef(schemas: Schemas, def: WorkflowDef): WorkflowDef {
    def.(tasks := seq(|def.tasks|, k requires 0 <= k < |def.tasks| => Prepared(schemas, def.tasks[k])))
  }

  lemma PreparedGraph(schemas: Schemas, def: WorkflowDef)
    ensures var p := PreparedDef(schemas, def);
      && TaskIds(p) == TaskIds(def) && EdgesOf(p) == EdgesOf(def) && (UniqueIds(p) <==> UniqueIds(def))
      && forall k :: 0 <= k < |def.tasks| ==>
           && p.tasks[k].id == def.tasks[k].id && p.tasks[k].verifier == def.tasks[k].verifier
           && (VerifierDeclared(p, p.tasks[k]) <==> VerifierDeclared(def, def.tasks[k]))
  {
    var p := PreparedDef(schemas, def);
    assert forall k :: 0 <= k < |def.tasks| ==> p.tasks[k].id == def.tasks[k].id;
  }

  lemma PreparedSlice(schemas: Schemas, def: WorkflowDef, k: nat, t: TaskId)
    requires k < |def.tasks| && def.tasks[k].verifier.Some?
    ensures var p := PreparedDef(schemas, def);
      t in SliceOf(p, p.tasks[k]) <==> t in SliceOf(def, def.tasks[k])
  {
    var p := PreparedDef(schemas, def);
    PreparedGraph(schemas, def);
    SliceMembers(def, def.tasks[k], t);
    SliceMembers(p, p.tasks[k], t);
  }

  lemma PreparedDisjoint(schemas: Schemas, def: WorkflowDef)
    ensures Disjoint(PreparedDef(schemas, def)) <==> Disjoint(def)
  {
    var p := PreparedDef(schemas, def);
    PreparedGraph(schemas, def);
    forall i: nat, t | i < |def.tasks| && def.tasks[i].verifier.Some?
      ensures t in SliceOf(p, p.tasks[i]) <==> t in SliceOf(def, def.tasks[i])
    {
      PreparedSlice(schemas, def, i, t);
    }
    DisjointByIndex(def);
    DisjointByIndex(p);
  }

  ghost predicate DisjointIndices(def: WorkflowDef) {
    forall i, j, t ::
      (0 <= i < |def.tasks| && 0 <= j < |def.tasks| && def.tasks[i].verifier.Some? && def.tasks[j].verifier.Some?
       && def.tasks[i].id != def.tasks[j].id && t in SliceOf(def, def.tasks[i]))
      ==> t !in SliceOf(def, def.tasks[j])
  }

  lemma DisjointByIndex(def: WorkflowDef)
    ensures Disjoint(def) <==> DisjointIndices(def)
  {
    if DisjointIndices(def) {
      forall u, v, t | u in def.tasks && v in def.tasks && u.verifier.Some? && v.verifier.Some? && u.id != v.id
             && t in SliceOf(def, u)
        ensures t !in SliceOf(def, v)
      {
        var i :| 0 <= i < |def.tasks| && def.tasks[i] == u;
        var j :| 0 <= j < |def.tasks| && def.tasks[j] == v;
      }
    }
  }

  ghost predicate VerifiersReached(def: WorkflowDef) {
    forall k :: 0 <= k < |def.tasks| && def.tasks[k].verifier.Some? ==>
      VerifierDeclared(def, def.tasks[k]) && Reaches(EdgesOf(def), def.tasks[k].RerunStart(), def.tasks[k].id)
  }

  lemma RegisteredParts(def: WorkflowDef)
    ensures Registered(def) <==>
      UniqueIds(def) && Closed(def) && VerifiersReached(def) && !Cyclic(EdgesOf(def)) && Disjoint(def)
  {
  }

  /** Storing the schemas does not touch what Registered is about. */
  lemma PreparedRegistered(schemas: Schemas, def: WorkflowDef)
    ensures Registered(PreparedDef(schemas, def)) <==> Registered(def)
  {
    hide Registered, Disjoint, UniqueIds, Cyclic, Reaches, VerifierDeclared;
    var p := PreparedDef(schemas, def);
    PreparedGraph(schemas, def);
    PreparedDisjoint(schemas, def);
    RegisteredParts(def);
    RegisteredParts(p);
  }

  /** The tasks as they are stored, or nothing if a schema does not fit or a verifier is badly declared. */
  method PrepareTasks(schemas: Schemas, def: WorkflowDef) returns (tasks: Option<seq<TaskDef>>)
    ensures tasks.Some? <==>
      forall k :: 0 <= k < |def.tasks| ==> SchemaFits(schemas, def.tasks[k]) && VerifierDeclared(def, def.tasks[k])
    ensures tasks.Some? ==> tasks.value == PreparedDef(schemas, def).tasks
  {
    var done: seq<TaskDef> := [];
    for k := 0 to |def.tasks|
      invariant |done| == k && forall j :: 0 <= j < k ==> done[j] == Prepared(schemas, def.tasks[j])
      invariant forall j :: 0 <= j < k ==> SchemaFits(schemas, def.tasks[j]) && VerifierDeclared(def, def.tasks[j])
    {
      var task := def.tasks[k];
      if task.verifier.Some? && task.outputSchema.Some? { return None; }
      if !VerifierDeclared(def, task) { return None; }
      var stored := WithVerdictSchema(schemas, task);
      var effective := schemas.effective(stored);
      if effective.Failure? { return None; }
      done := done + [stored.(effectiveOutputSchema := effective.value)];
    }
    return Some(done);
  }

  /**
   `validate_and_normalize_workflow_def` on normalised ids, its checks in their order. A definition is accepted
   exactly if it is Registered and its schemas fit. It is stored with the verdict schema at every verifier, so a
   stored verifier always has an output schema.
   */
  method Validate(schemas: Schemas, def: WorkflowDef) returns (result: Option<WorkflowDef>)
    ensures result.Some? <==>
      Registered(def) && forall task :: task in def.tasks ==>
        && (task.verifier.Some? ==> task.outputSchema.None?)
        && schemas.effective(if task.verifier.None? then task
          else task.(outputSchema := Some(schemas.verdict))).Success?
    ensures result.Some? ==>
      && Registered(result.value) && result.value == def.(tasks := result.value.tasks)
      && |result.value.tasks| == |def.tasks|
      && forall k :: 0 <= k < |def.tasks| ==>
           var task, stored := def.tasks[k], result.value.tasks[k];
           var own := if task.verifier.None? then task else task.(outputSchema := Some(schemas.verdict));
           Success(stored.effectiveOutputSchema) == schemas.effective(own)
           && stored == own.(effectiveOutputSchema := stored.effectiveOutputSchema)
  {
    assert forall task :: task in def.tasks ==> (SchemaFits(schemas, task) <==>
      (task.verifier.Some? ==> task.outputSchema.None?)
      && schemas.effective(if task.verifier.None? then task
        else task.(outputSchema := Some(schemas.verdict))).Success?);
    PreparedRegistered(schemas, def);
    PreparedGraph(schemas, def);
    RegisteredParts(PreparedDef(schemas, def));
    var unique := HasUniqueIds(def);
    if !unique { return None; }
    for k := 0 to |def.dataBindings|
      invariant forall j :: 0 <= j < k
                  ==> def.dataBindings[j].source in TaskIds(def) && def.dataBindings[j].target in TaskIds(def)
    {
      if def.dataBindings[k].source !in TaskIds(def) || def.dataBindings[k].target !in TaskIds(def) {
        assert def.dataBindings[k] in def.dataBindings;
        return None;
      }
    }
    assert Closed(def);
    var tasks := PrepareTasks(schemas, def);
    if tasks.None? { return None; }
    var prepared := def.(tasks := tasks.value);
    var accepted := CheckGraph(prepared);
    return if accepted then Some(prepared) else None;
  }

  /** The checks on the bindings, the rerun starts and the slices. */
  method CheckGraph(def: WorkflowDef) returns (accepted: bool)
    requires UniqueIds(def) && Closed(def) && forall k :: 0 <= k < |def.tasks| ==> VerifierDeclared(def, def.tasks[k])
    ensures accepted <==> Registered(def)
  {
    var cyclic := HasDataBindingCycle(def);
    if cyclic { return false; }
    var reached := RerunStartsAreUpstream(def);
    if !reached { return false; }
    var overlap := SlicesOverlap(def);
    return !overlap;
  }

  method RerunStartsAreUpstream(def: WorkflowDef) returns (ok: bool)
    ensures ok <==> forall t :: t in def.tasks && t.verifier.Some? ==> Reaches(EdgesOf(def), t.RerunStart(), t.id)
  {
    for k := 0 to |def.tasks|
      invariant forall j :: 0 <= j < k && def.tasks[j].verifier.Some?
                  ==> Reaches(EdgesOf(def), def.tasks[j].RerunStart(), def.tasks[j].id)
    {
      var task := def.tasks[k];
      if task.verifier.Some? {
        ReachesSelf(EdgesOf(def), task.id);
        if task.RerunStart() != task.id {
          AncestorMeansReaches(EdgesOf(def), task.RerunStart(), task.id);
          var found := IsUpstreamAncestor(def, task.RerunStart(), task.id);
          if !found {
            assert task in def.tasks;
            return false;
          }
        }
      }
    }
    return true;
  }
}
