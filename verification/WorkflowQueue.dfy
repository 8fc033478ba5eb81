/**
 The run queue: bounded, first in first out, no duplicates, and no item handed out while an earlier
 hand-out of it is unfinished. Together with the scheduler loop it keeps two engines off one instance.
 */
module WorkflowQueue {
  import opened Prelude

  datatype Item = Item(namespace: string, instanceId: string)

  /** What the queue holds: items waiting, oldest first, and items handed out and not completed. */
  datatype Queue = Queue(pending: seq<Item>, active: set<Item>, capacity: nat)

  ghost predicate QueueOk(q: Queue) {
    Distinct(q.pending) && |q.pending| <= q.capacity && q.capacity >= 1
  }

  /** The position of the oldest item that is not active, or the length of the queue. */
  function FirstIdle(pending: seq<Item>, active: set<Item>): (p: nat)
    ensures p <= |pending|
    ensures forall k :: 0 <= k < p ==> pending[k] in active
    ensures p < |pending| ==> pending[p] !in active
  {
    if pending == [] || pending[0] !in active then 0 else 1 + FirstIdle(pending[1..], active)
  }

  function IndexOf(s: seq<Item>, item: Item): (p: nat)
    ensures p <= |s| && (p < |s| ==> s[p] == item)
    ensures p < |s| <==> item in s
  {
    if s == [] || s[0] == item then 0 else 1 + IndexOf(s[1..], item)
  }

  function Outside(s: seq<Item>, namespace: string): seq<Item> {
    if s == [] then []
    else if s[0].namespace == namespace then Outside(s[1..], namespace)
    else [s[0]] + Outside(s[1..], namespace)
  }

  function Inside(s: seq<Item>, namespace: string): seq<Item> {
    if s == [] then []
    else if s[0].namespace == namespace then [s[0]] + Inside(s[1..], namespace)
    else Inside(s[1..], namespace)
  }

  datatype Admission = Queued | AlreadyPending | Full

  function Admit(q: Queue, item: Item): Admission {
    if item in q.pending then AlreadyPending else if |q.pending| < q.capacity then Queued else Full
  }

  function Enqueued(q: Queue, item: Item): Queue {
    if Admit(q, item).Queued? then q.(pending := q.pending + [item]) else q
  }

  function Handed(q: Queue): Option<Item> {
    var p := FirstIdle(q.pending, q.active);
    if p < |q.pending| then Some(q.pending[p]) else None
  }

  function Dequeued(q: Queue): Queue {
    var p := FirstIdle(q.pending, q.active);
    if p < |q.pending| then q.(pending := Without(q.pending, p), active := q.active + {q.pending[p]}) else q
  }

  function Completed(q: Queue, item: Item): Queue {
    q.(active := q.active - {item})
  }

  function Removed(q: Queue, item: Item): Queue {
    var p := IndexOf(q.pending, item);
    if p < |q.pending| then q.(pending := Without(q.pending, p)) else q
  }

  function Purged(q: Queue, namespace: string): Queue {
    q.(pending := Outside(q.pending, namespace))
  }

  // ---------------------------------------------------------------------------
  // The class: one method per region held under the lock

  class MemoryWorkflowQueue {
    const capacity: nat
    var pending: seq<Item>
    var pendingIds: set<Item>
    var activeIds: set<Item>

    ghost function State(): Queue
      reads this
    {
      Queue(pending, activeIds, capacity)
    }

    /** The id set is exactly the queued items, which are distinct and within capacity. */
    ghost predicate Valid()
      reads this
    {
      QueueOk(State()) && pendingIds == Members(pending)
    }

    constructor (capacity: nat)
      ensures Valid() && State() == Queue([], {}, if capacity < 1 then 1 else capacity)
    {
      this.capacity := if capacity < 1 then 1 else capacity;
      pending, pendingIds, activeIds := [], {}, {};
    }

    /** One turn of the `enqueue` loop; after Full the caller waits and tries again. */
    method TryEnqueue(item: Item) returns (admission: Admission)
      requires Valid()
      modifies this
      ensures Valid() && admission == Admit(old(State()), item) && State() == Enqueued(old(State()), item)
    {
      if item in pendingIds { return AlreadyPending; }
      if |pending| < capacity {
        MembersAppend(pending, item);
        pendingIds := pendingIds + {item};
        pending := pending + [item];
        return Queued;
      }
      return Full;
    }

    /** One turn of the `dequeue` loop: the oldest item that is not active, if there is one. */
    method TryDequeue() returns (item: Option<Item>)
      requires Valid()
      modifies this
      ensures Valid() && item == Handed(old(State())) && State() == Dequeued(old(State()))
    {
      var position := 0;
      while position < |pending| && pending[position] in activeIds
        invariant 0 <= position <= |pending|
        invariant FirstIdle(pending, activeIds) == position + FirstIdle(pending[position..], activeIds)
      {
        assert pending[position..][1..] == pending[position + 1..];
        position := position + 1;
      }
      if position == |pending| { return None; }
      var found := pending[position];
      WithoutMembers(pending, position);
      pending := Without(pending, position);
      pendingIds := pendingIds - {found};
      activeIds := activeIds + {found};
      return Some(found);
    }

    method Complete(item: Item)
      requires Valid()
      modifies this
      ensures Valid() && State() == Completed(old(State()), item)
    {
      activeIds := activeIds - {item};
    }

    method Remove(item: Item) returns (removed: bool)
      requires Valid()
      modifies this
      ensures Valid() && removed == (item in old(pending)) && State() == Removed(old(State()), item)
    {
      var position := 0;
      while position < |pending| && pending[position] != item
        invariant 0 <= position <= |pending|
        invariant IndexOf(pending, item) == position + IndexOf(pending[position..], item)
      {
        assert pending[position..][1..] == pending[position + 1..];
        position := position + 1;
      }
      if position == |pending| { return false; }
      WithoutMembers(pending, position);
      pending := Without(pending, position);
      pendingIds := pendingIds - {item};
      return true;
    }

    /** `retain` splits the queue; the id set is collected anew from what is left. */
    method Purge(namespace: string) returns (purged: seq<Item>)
      requires Valid()
      modifies this
      ensures Valid() && purged == Inside(old(pending), namespace) && State() == Purged(old(State()), namespace)
    {
      var kept;
      kept, purged := Split(pending, namespace);
      OutsideMembers(pending, namespace);
      OutsideDistinct(pending, namespace);
      pending := kept;
      pendingIds := Members(kept);
    }

    /** What `retain` keeps and what it hands to the caller, in queue order. */
    method Split(items: seq<Item>, namespace: string) returns (kept: seq<Item>, dropped: seq<Item>)
      ensures kept == Outside(items, namespace) && dropped == Inside(items, namespace)
    {
      kept, dropped := [], [];
      var left := items;
      while left != []
        invariant kept + Outside(left, namespace) == Outside(items, namespace)
        invariant dropped + Inside(left, namespace) == Inside(items, namespace)
        decreases |left|
      {
        if left[0].namespace == namespace { dropped := dropped + [left[0]]; } else { kept := kept + [left[0]]; }
        left := left[1..];
      }
    }

    method PendingIds(namespace: string) returns (ids: seq<Item>)
      requires Valid()
      ensures ids == Inside(pending, namespace)
    {
      ids := [];
      for k := 0 to |pending|
        invariant ids + Inside(pending[k..], namespace) == Inside(pending, namespace)
      {
        assert pending[k..][1..] == pending[k + 1..];
        if pending[k].namespace == namespace { ids := ids + [pending[k]]; }
      }
    }
  }

  lemma WithoutMembers(s: seq<Item>, k: nat)
    requires Distinct(s) && k < |s|
    ensures Distinct(Without(s, k)) && Members(Without(s, k)) == Members(s) - {s[k]}
    ensures multiset(Without(s, k)) + multiset{s[k]} == multiset(s)
  {
    var r := Without(s, k);
    assert forall i :: 0 <= i < |r| ==> r[i] == if i < k then s[i] else s[i + 1];
    forall x | x in Members(s) && x != s[k] ensures x in Members(r) {
      var i :| 0 <= i < |s| && s[i] == x;
      assert r[if i < k then i else i - 1] == x;
    }
    assert s == s[..k] + [s[k]] + s[k + 1..];
  }

  lemma {:induction false} OutsideMembers(s: seq<Item>, namespace: string)
    ensures |Outside(s, namespace)| <= |s|
    ensures forall x :: x in Outside(s, namespace) <==> x in s && x.namespace != namespace
  {
    if s != [] {
      OutsideMembers(s[1..], namespace);
      assert forall x :: x in s <==> x == s[0] || x in s[1..];
    }
  }

  lemma {:induction false} OutsideDistinct(s: seq<Item>, namespace: string)
    requires Distinct(s)
    ensures Distinct(Outside(s, namespace))
  {
    if s != [] {
      OutsideDistinct(s[1..], namespace);
      OutsideMembers(s[1..], namespace);
      var rest := Outside(s[1..], namespace);
      assert s[0] !in s[1..];
      assert forall k :: 0 <= k < |rest| ==> rest[k] in rest;
    }
  }

  lemma {:induction false} OutsideInside(s: seq<Item>, namespace: string)
    ensures multiset(s) == multiset(Outside(s, namespace)) + multiset(Inside(s, namespace))
  {
    if s != [] {
      OutsideInside(s[1..], namespace);
      assert s == [s[0]] + s[1..];
    }
  }

  // ---------------------------------------------------------------------------
  // The scheduler

  /** `run_workflow_queue`: a permit, a dequeue, an engine run, a complete. `running` lists the engine runs. */
  datatype Scheduler = Scheduler(queue: Queue, running: seq<Item>, permits: nat)

  datatype Action = Submit(item: Item) | Dispatch | Finish(run: nat) | Drop(item: Item) | PurgeAll(namespace: string)

  function Act(s: Scheduler, action: Action): Scheduler {
    match action
    case Submit(item) => s.(queue := Enqueued(s.queue, item))
    case Dispatch =>
      if |s.running| < s.permits && Handed(s.queue).Some?
      then s.(queue := Dequeued(s.queue), running := s.running + [Handed(s.queue).value]) else s
    case Finish(run) =>
      if run < |s.running| then s.(queue := Completed(s.queue, s.running[run]), running := Without(s.running, run))
        else s
    case Drop(item) => s.(queue := Removed(s.queue, item))
    case PurgeAll(namespace) => s.(queue := Purged(s.queue, namespace))
  }

  function Acts(s: Scheduler, actions: seq<Action>): Scheduler
    decreases |actions|
  {
    if actions == [] then s else Acts(Act(s, actions[0]), actions[1..])
  }

  /** The active ids are exactly the instances some engine is running, each of them once. */
  ghost predicate Exclusive(s: Scheduler) {
    QueueOk(s.queue) && Distinct(s.running) && Members(s.running) == s.queue.active && |s.running| <= s.permits
  }

  lemma ActKeepsExclusive(s: Scheduler, action: Action)
    requires Exclusive(s)
    ensures Exclusive(Act(s, action)) && Act(s, action).permits == s.permits
      && Act(s, action).queue.capacity == s.queue.capacity
  {
    match action {
      case Submit(item) =>
      case Dispatch =>
        var p := FirstIdle(s.queue.pending, s.queue.active);
        if p < |s.queue.pending| {
          WithoutMembers(s.queue.pending, p);
          var item := s.queue.pending[p];
          assert item !in Members(s.running);
          assert Members(s.running + [item]) == Members(s.running) + {item} by { MembersAppend(s.running, item); }
          forall k | 0 <= k < |s.running| ensures s.running[k] != item { assert s.running[k] in Members(s.running); }
        }
      case Finish(run) => if run < |s.running| { WithoutMembers(s.running, run); }
      case Drop(item) =>
        var p := IndexOf(s.queue.pending, item);
        if p < |s.queue.pending| { WithoutMembers(s.queue.pending, p); }
      case PurgeAll(namespace) =>
        OutsideMembers(s.queue.pending, namespace);
        OutsideDistinct(s.queue.pending, namespace);
    }
  }

  /** In every run of the scheduler no two engine runs share an instance, and there are never more than the permits. */
  lemma {:induction false} EnginesNeverShareAnInstance(s: Scheduler, actions: seq<Action>)
    requires Exclusive(s)
    ensures var t := Acts(s, actions);
      Exclusive(t) && t.permits == s.permits && t.queue.capacity == s.queue.capacity
    decreases |actions|
  {
    if actions != [] {
      ActKeepsExclusive(s, actions[0]);
      EnginesNeverShareAnInstance(Act(s, actions[0]), actions[1..]);
    }
  }

  /** The scheduler over a new queue, before any engine runs. */
  function AtStart(capacity: nat, permits: nat): Scheduler {
    Scheduler(Queue([], {}, if capacity < 1 then 1 else capacity), [], if permits < 1 then 1 else permits)
  }

  /**
   Every run of the scheduler from its start: the instances being run are distinct and are the active ones, there are
   never more of them than permits and never more waiting than fit, and both bounds are at least one.
   */
  lemma SchedulerStaysExclusive(capacity: nat, permits: nat, actions: seq<Action>)
    ensures var s := Acts(AtStart(capacity, permits), actions);
      && Distinct(s.running) && (forall item :: item in s.running <==> item in s.queue.active)
      && s.permits == (if permits < 1 then 1 else permits) && |s.running| <= s.permits
      && s.queue.capacity == (if capacity < 1 then 1 else capacity) && |s.queue.pending| <= s.queue.capacity
  {
    EnginesNeverShareAnInstance(AtStart(capacity, permits), actions);
    var s := Acts(AtStart(capacity, permits), actions);
    assert Members(s.running) == s.queue.active;
    forall item ensures item in s.running <==> item in s.queue.active {
      assert item in s.running <==> item in Members(s.running);
    }
  }

  // ---------------------------------------------------------------------------
  // Hand-outs over a run

  /** What the queue hands out in one action. */
  function HandOut(s: Scheduler, action: Action): Option<Item> {
    if action.Dispatch? && |s.running| < s.permits then Handed(s.queue) else None
  }

  predicate Finishes(s: Scheduler, action: Action, item: Item) {
    action.Finish? && action.run < |s.running| && s.running[action.run] == item
  }

  /** Some action of the run completes the item. */
  predicate CompletedDuring(s: Scheduler, actions: seq<Action>, item: Item)
    decreases |actions|
  {
    actions != [] && (Finishes(s, actions[0], item) || CompletedDuring(Act(s, actions[0]), actions[1..], item))
  }

  lemma {:induction false} RunningUntilCompleted(s: Scheduler, actions: seq<Action>, item: Item)
    requires Exclusive(s) && item in s.queue.active && !CompletedDuring(s, actions, item)
    ensures item in Acts(s, actions).queue.active
    decreases |actions|
  {
    if actions != [] {
      ActKeepsExclusive(s, actions[0]);
      RunningUntilCompleted(Act(s, actions[0]), actions[1..], item);
    }
  }

  /** No item is handed out twice unless it was completed in between. */
  lemma NoSecondHandOut(s: Scheduler, between: seq<Action>, item: Item)
    requires Exclusive(s) && HandOut(s, Dispatch) == Some(item)
    requires HandOut(Acts(Act(s, Dispatch), between), Dispatch) == Some(item)
    ensures CompletedDuring(Act(s, Dispatch), between, item)
  {
    ActKeepsExclusive(s, Dispatch);
    if !CompletedDuring(Act(s, Dispatch), between, item) {
      RunningUntilCompleted(Act(s, Dispatch), between, item);
    }
  }

  /** The hand-out is the oldest item no engine is running; everything older is being run. */
  lemma HandOutIsOldestIdle(q: Queue)
    requires QueueOk(q) && Handed(q).Some?
    ensures exists p :: (
      && 0 <= p < |q.pending| && q.pending[p] == Handed(q).value && Handed(q).value !in q.active
      && (forall k :: 0 <= k < p ==> q.pending[k] in q.active)
        && Dequeued(q).pending == q.pending[..p] + q.pending[p + 1..])
  {
    var p := FirstIdle(q.pending, q.active);
    assert q.pending[p] == Handed(q).value;
  }

  // ---------------------------------------------------------------------------
  // Conservation

  function Accepted(s: Scheduler, action: Action): multiset<Item> {
    if action.Submit? && Admit(s.queue, action.item).Queued? then multiset{action.item} else multiset{}
  }

  /** Items that leave the queue in one action: handed out, removed or purged. */
  function Left(s: Scheduler, action: Action): multiset<Item> {
    match action
    case Dispatch => if HandOut(s, action).Some? then multiset{HandOut(s, action).value} else multiset{}
    case Drop(item) => if item in s.queue.pending then multiset{item} else multiset{}
    case PurgeAll(namespace) => multiset(Inside(s.queue.pending, namespace))
    case _ => multiset{}
  }

  function AllAccepted(s: Scheduler, actions: seq<Action>): multiset<Item>
    decreases |actions|
  {
    if actions == [] then multiset{} else Accepted(s, actions[0]) + AllAccepted(Act(s, actions[0]), actions[1..])
  }

  function AllLeft(s: Scheduler, actions: seq<Action>): multiset<Item>
    decreases |actions|
  {
    if actions == [] then multiset{} else Left(s, actions[0]) + AllLeft(Act(s, actions[0]), actions[1..])
  }

  lemma ActConserves(s: Scheduler, action: Action)
    requires Exclusive(s)
    ensures multiset(s.queue.pending) + Accepted(s, action) == multiset(Act(s, action).queue.pending) + Left(s, action)
  {
    match action {
      case Submit(item) =>
      case Dispatch =>
        var p := FirstIdle(s.queue.pending, s.queue.active);
        if p < |s.queue.pending| { WithoutMembers(s.queue.pending, p); }
      case Finish(run) =>
      case Drop(item) =>
        var p := IndexOf(s.queue.pending, item);
        if p < |s.queue.pending| { WithoutMembers(s.queue.pending, p); }
      case PurgeAll(namespace) => OutsideInside(s.queue.pending, namespace);
    }
  }

  /** Nothing is lost or invented: what was accepted is still waiting or left once. */
  lemma {:induction false} QueueConserves(s: Scheduler, actions: seq<Action>)
    requires Exclusive(s)
    ensures multiset(s.queue.pending) + AllAccepted(s, actions)
      == multiset(Acts(s, actions).queue.pending) + AllLeft(s, actions)
    decreases |actions|
  {
    if actions != [] {
      ActKeepsExclusive(s, actions[0]);
      ActConserves(s, actions[0]);
      var t := Act(s, actions[0]);
      QueueConserves(t, actions[1..]);
      var was, now, end := multiset(s.queue.pending), multiset(t.queue.pending),
        multiset(Acts(t, actions[1..]).queue.pending);
      var accepted, left := Accepted(s, actions[0]), Left(s, actions[0]);
      var laterAccepted, laterLeft := AllAccepted(t, actions[1..]), AllLeft(t, actions[1..]);
      assert was + (accepted + laterAccepted) == (was + accepted) + laterAccepted;
      assert (now + left) + laterAccepted == (now + laterAccepted) + left;
      assert (end + laterLeft) + left == end + (left + laterLeft);
    }
  }
}
