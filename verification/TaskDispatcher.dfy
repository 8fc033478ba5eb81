/**
 The worker lease protocol. The dispatcher keeps pending tasks, leases and result waiters behind three
 locks, so claims, results, timeouts and cancellations interleave between them: one action here is one
 region held under a lock. `place` follows the one-shot result channel of every dispatch.
 */
module TaskDispatcher {
  import opened Prelude
  import AttemptIds

  type DispatchId = string
  type WorkerId = string
  type HostId = string

  datatype Worker = Worker(id: WorkerId, host: HostId)

  datatype Task = Task(dispatchId: DispatchId, namespace: string, instanceId: string, pin: Option<HostId>, timeout: nat)

  datatype Lease = Lease(
    dispatchId: DispatchId, namespace: string, instanceId: string, workerId: WorkerId, hostId: HostId, claimedAt: nat,
      expiresAt: nat)

  /** Where the sender of a dispatch's result channel is. */
  datatype Place = Queued | WithClaimer | InWaiters | WithResolver | Sent | Dropped

  function Rank(p: Place): nat {
    match p
    case Queued => 0
    case WithClaimer => 1
    case InWaiters => 2
    case WithResolver => 3
    case Sent => 4
    case Dropped => 4
  }

  datatype Dispatcher = Dispatcher(
    pending: seq<Task>,
    inFlight: map<DispatchId, Lease>,
    waiters: set<DispatchId>,
    next: nat,
    issued: map<DispatchId, Task>,
    place: map<DispatchId, Place>)

  /** `{task}-{dispatcher}-{n}` */
  function MakeId(taskDefId: string, dispatcher: string, n: nat): DispatchId {
    taskDefId + "-" + dispatcher + "-" + AttemptIds.Decimal(n)
  }

  lemma MakeIdInjective(a: string, b: string, dispatcher: string, m: nat, n: nat)
    requires MakeId(a, dispatcher, m) == MakeId(b, dispatcher, n)
    ensures a == b && m == n
  {
    var p, q := a + "-" + dispatcher, b + "-" + dispatcher;
    assert MakeId(a, dispatcher, m) == p + ['-'] + AttemptIds.Decimal(m);
    assert MakeId(b, dispatcher, n) == q + ['-'] + AttemptIds.Decimal(n);
    AttemptIds.SuffixInjective(p, q, '-', m, n);
    assert |a| == |b| && a == p[..|a|] && b == q[..|b|];
  }

  /** The id names the task, the dispatcher and, in decimal digits, the number it was given. */
  lemma IdReads(taskDefId: string, dispatcher: string, n: nat)
    ensures var s, a := MakeId(taskDefId, dispatcher, n), |taskDefId|;
      var b := a + 1 + |dispatcher|;
      && |s| > b + 1 && s[..a] == taskDefId && s[a] == '-' && s[a + 1..b] == dispatcher && s[b] == '-'
      && AttemptIds.NumberOf(s[b + 1..]) == n
  {
    var s, a := MakeId(taskDefId, dispatcher, n), |taskDefId|;
    AttemptIds.DecimalReads(n);
    assert s[a + 1 + |dispatcher| + 1..] == AttemptIds.Decimal(n);
  }

  // ---------------------------------------------------------------------------
  // Regions

  datatype Action =
    | Push(task: Task)
    | Claim(worker: Worker, now: nat)
    | Register(id: DispatchId)
    | AbandonClaim(id: DispatchId)
    | TakeWaiter(id: DispatchId)
    | ReleaseLease(id: DispatchId)
    | Send(id: DispatchId)
    | CancelLostHosts(hosts: set<HostId>)
    | RemovePending(id: DispatchId)

  predicate MatchesWorker(task: Task, worker: Worker) {
    task.pin.None? || task.pin.value == worker.host
  }

  predicate WorkerBusy(inFlight: map<DispatchId, Lease>, worker: WorkerId) {
    exists id :: id in inFlight && inFlight[id].workerId == worker
  }

  predicate InstanceBusy(inFlight: map<DispatchId, Lease>, task: Task) {
    exists id :: id in inFlight && inFlight[id].namespace == task.namespace
      && inFlight[id].instanceId == task.instanceId
  }

  /** The position of the first task this worker may take, or the length of the queue. */
  function FirstFor(pending: seq<Task>, inFlight: map<DispatchId, Lease>, worker: Worker): (p: nat)
    ensures p <= |pending|
    ensures p < |pending| ==> MatchesWorker(pending[p], worker) && !InstanceBusy(inFlight, pending[p])
    ensures forall k :: 0 <= k < p ==> !(MatchesWorker(pending[k], worker) && !InstanceBusy(inFlight, pending[k]))
  {
    if pending == [] || (MatchesWorker(pending[0], worker) && !InstanceBusy(inFlight, pending[0])) then 0
    else 1 + FirstFor(pending[1..], inFlight, worker)
  }

  function LeaseFor(task: Task, worker: Worker, now: nat): Lease {
    Lease(task.dispatchId, task.namespace, task.instanceId, worker.id, worker.host, now, now + task.timeout)
  }

  function PositionOf(s: seq<Task>, id: DispatchId): (p: nat)
    ensures p <= |s| && (p < |s| ==> s[p].dispatchId == id)
    ensures p == |s| ==> forall k :: 0 <= k < |s| ==> s[k].dispatchId != id
  {
    if s == [] || s[0].dispatchId == id then 0 else 1 + PositionOf(s[1..], id)
  }

  predicate Lost(task: Task, hosts: set<HostId>) {
    task.pin.Some? && task.pin.value in hosts
  }

  function Retained(s: seq<Task>, hosts: set<HostId>): seq<Task> {
    if s == [] then [] else (if Lost(s[0], hosts) then [] else [s[0]]) + Retained(s[1..], hosts)
  }

  function Ids(s: seq<Task>): set<DispatchId> {
    set k | 0 <= k < |s| :: s[k].dispatchId
  }

  /** The channels of these dispatches are dropped: whoever waits for them is told of the cancellation. */
  function DropAll(place: map<DispatchId, Place>, ids: set<DispatchId>): map<DispatchId, Place> {
    map id | id in place :: if id in ids then Dropped else place[id]
  }

  function Act(d: Dispatcher, action: Action): Dispatcher {
    match action
    case Push(task) =>
      if task.dispatchId in d.issued then d
      else d.(pending := d.pending + [task], issued := d.issued[task.dispatchId := task], place :=
        d.place[task.dispatchId := Queued])
    case Claim(worker, now) =>
      if WorkerBusy(d.inFlight, worker.id) then d
      else
        var p := FirstFor(d.pending, d.inFlight, worker);
        if p == |d.pending| then d
        else
          var task := d.pending[p];
          d.(pending := Without(d.pending, p), inFlight := d.inFlight[task.dispatchId := LeaseFor(task, worker, now)],
             place := d.place[task.dispatchId := WithClaimer])
    case Register(id) =>
      if At(d, id, WithClaimer) then d.(waiters := d.waiters + {id}, place := d.place[id := InWaiters]) else d
    case AbandonClaim(id) => if At(d, id, WithClaimer) then d.(place := d.place[id := Dropped]) else d
    case TakeWaiter(id) =>
      if id in d.waiters then d.(waiters := d.waiters - {id}, place := d.place[id := WithResolver]) else d
    case ReleaseLease(id) => d.(inFlight := d.inFlight - {id})
    case Send(id) => if At(d, id, WithResolver) then d.(place := d.place[id := Sent]) else d
    case CancelLostHosts(hosts) =>
      var kept := Retained(d.pending, hosts);
      d.(pending := kept, place := DropAll(d.place, Ids(d.pending) - Ids(kept)))
    case RemovePending(id) =>
      var p := PositionOf(d.pending, id);
      if p == |d.pending| then d else d.(pending := Without(d.pending, p), place := DropAll(d.place, {id}))
  }

  predicate At(d: Dispatcher, id: DispatchId, p: Place) {
    id in d.place && d.place[id] == p
  }

  function Acts(d: Dispatcher, actions: seq<Action>): Dispatcher
    decreases |actions|
  {
    if actions == [] then d else Acts(Act(d, actions[0]), actions[1..])
  }

  const Empty := Dispatcher([], map[], {}, 0, map[], map[])

  // ---------------------------------------------------------------------------
  // Claims by the fields of tasks and leases

  ghost predicate Leases(inFlight: map<DispatchId, Lease>, worker: WorkerId) {
    exists id :: id in inFlight && inFlight[id].workerId == worker
  }

  /** The task is pinned to another host, or some lease is for its own workflow instance. */
  ghost predicate OutOfReach(inFlight: map<DispatchId, Lease>, task: Task, host: HostId) {
    || (task.pin.Some? && task.pin.value != host)
    || exists id :: id in inFlight
         && inFlight[id].namespace == task.namespace && inFlight[id].instanceId == task.instanceId
  }

  lemma ReachExactlyWhen(inFlight: map<DispatchId, Lease>, task: Task, worker: Worker)
    ensures MatchesWorker(task, worker) && !InstanceBusy(inFlight, task) <==> !OutOfReach(inFlight, task, worker.host)
    ensures WorkerBusy(inFlight, worker.id) <==> Leases(inFlight, worker.id)
  {
  }

  lemma FirstInReach(pending: seq<Task>, inFlight: map<DispatchId, Lease>, worker: Worker, p: nat)
    requires p <= |pending| && forall k :: 0 <= k < p ==> OutOfReach(inFlight, pending[k], worker.host)
    requires p < |pending| ==> !OutOfReach(inFlight, pending[p], worker.host)
    ensures FirstFor(pending, inFlight, worker) == p
  {
    hide OutOfReach, MatchesWorker, InstanceBusy;
    ReachInQueue(pending, inFlight, worker);
  }

  lemma ReachInQueue(pending: seq<Task>, inFlight: map<DispatchId, Lease>, worker: Worker)
    ensures forall k :: 0 <= k < |pending| ==>
      (MatchesWorker(pending[k], worker) && !InstanceBusy(inFlight, pending[k]))
        == !OutOfReach(inFlight, pending[k], worker.host)
  {
    forall k | 0 <= k < |pending|
      ensures MatchesWorker(pending[k], worker) && !InstanceBusy(inFlight, pending[k])
        <==> !OutOfReach(inFlight, pending[k], worker.host)
    {
      ReachExactlyWhen(inFlight, pending[k], worker);
    }
  }

  /**
   A claim, told by the fields of leases and tasks. It changes nothing if the worker has a lease or every pending task
   is out of its reach; otherwise it leases it the first task within reach, for the task's own timeout from now on.
   */
  lemma ClaimExactlyWhen(d: Dispatcher, worker: Worker, now: nat, p: nat)
    requires p <= |d.pending| && forall k :: 0 <= k < p ==> OutOfReach(d.inFlight, d.pending[k], worker.host)
    requires p < |d.pending| ==> !OutOfReach(d.inFlight, d.pending[p], worker.host)
    ensures Act(d, Claim(worker, now)) ==
      if Leases(d.inFlight, worker.id) || p == |d.pending| then d
      else
        var task := d.pending[p];
        d.(pending := d.pending[..p] + d.pending[p + 1..],
           inFlight := d.inFlight[task.dispatchId := Lease(
             task.dispatchId, task.namespace, task.instanceId, worker.id, worker.host, now, now + task.timeout)],
           place := d.place[task.dispatchId := WithClaimer])
  {
    hide OutOfReach, MatchesWorker, InstanceBusy;
    FirstInReach(d.pending, d.inFlight, worker, p);
  }

  // ---------------------------------------------------------------------------
  // What every reachable state satisfies

  ghost predicate OneLeasePerWorker(inFlight: map<DispatchId, Lease>) {
    forall a, b :: a in inFlight && b in inFlight && inFlight[a].workerId == inFlight[b].workerId ==> a == b
  }

  ghost predicate OneLeasePerInstance(inFlight: map<DispatchId, Lease>) {
    forall a, b ::
      (a in inFlight && b in inFlight && inFlight[a].namespace == inFlight[b].namespace
        && inFlight[a].instanceId == inFlight[b].instanceId)
      ==> a == b
  }

  /** Every lease is for the task it was issued for, on a host its pin allows. */
  ghost predicate LeasesMatch(d: Dispatcher) {
    forall id :: id in d.inFlight ==>
      && id in d.issued && d.inFlight[id].dispatchId == id
      && d.inFlight[id].namespace == d.issued[id].namespace && d.inFlight[id].instanceId == d.issued[id].instanceId
      && (d.issued[id].pin.Some? ==> d.issued[id].pin.value == d.inFlight[id].hostId)
      && d.inFlight[id].expiresAt == d.inFlight[id].claimedAt + d.issued[id].timeout
  }

  /** The channel is in one place: pending tasks are exactly the queued ones, waiters those registered. */
  ghost predicate Placed(d: Dispatcher) {
    && d.place.Keys == d.issued.Keys
    && (forall k :: 0 <= k < |d.pending|
          ==> d.pending[k].dispatchId in d.issued && d.issued[d.pending[k].dispatchId] == d.pending[k])
    && (forall i, j :: 0 <= i < j < |d.pending| ==> d.pending[i].dispatchId != d.pending[j].dispatchId)
    && (forall id :: At(d, id, Queued) <==> id in Ids(d.pending))
    && (forall id :: At(d, id, InWaiters) <==> id in d.waiters)
    && (forall id :: id in d.inFlight ==> id in d.place && !d.place[id].Queued?)
  }

  ghost predicate Sound(d: Dispatcher) {
    OneLeasePerWorker(d.inFlight) && OneLeasePerInstance(d.inFlight) && LeasesMatch(d) && Placed(d)
  }

  lemma WithoutIds(s: seq<Task>, k: nat)
    requires k < |s| && forall i, j :: 0 <= i < j < |s| ==> s[i].dispatchId != s[j].dispatchId
    ensures Ids(Without(s, k)) == Ids(s) - {s[k].dispatchId}
    ensures forall i, j :: 0 <= i < j < |s| - 1 ==> Without(s, k)[i].dispatchId != Without(s, k)[j].dispatchId
    ensures forall i :: 0 <= i < |s| - 1 ==> Without(s, k)[i] in s
  {
    var r := Without(s, k);
    assert forall i :: 0 <= i < |r| ==> r[i] == if i < k then s[i] else s[i + 1];
    forall id | id in Ids(s) && id != s[k].dispatchId ensures id in Ids(r) {
      var i :| 0 <= i < |s| && s[i].dispatchId == id;
      assert r[if i < k then i else i - 1].dispatchId == id;
    }
  }

  lemma {:induction false} RetainedTasks(s: seq<Task>, hosts: set<HostId>)
    requires forall i, j :: 0 <= i < j < |s| ==> s[i].dispatchId != s[j].dispatchId
    ensures var r := Retained(s, hosts);
      && (forall i, j :: 0 <= i < j < |r| ==> r[i].dispatchId != r[j].dispatchId)
      && (forall t :: t in r <==> t in s && !Lost(t, hosts))
  {
    if s != [] {
      RetainedTasks(s[1..], hosts);
      var rest := Retained(s[1..], hosts);
      forall k | 0 <= k < |rest| ensures rest[k].dispatchId != s[0].dispatchId {
        assert rest[k] in s[1..];
      }
      assert forall t :: t in s <==> t == s[0] || t in s[1..];
    }
  }

  lemma PushSound(d: Dispatcher, task: Task)
    requires Sound(d)
    ensures Sound(Act(d, Push(task)))
  {
    hide Placed, Ids;
    if task.dispatchId !in d.issued { PushPlaced(d, task); }
  }

  lemma PushPlaced(d: Dispatcher, task: Task)
    requires Placed(d) && task.dispatchId !in d.issued
    ensures Placed(Act(d, Push(task)))
  {
    hide Ids;
    PendingAreNamed(d.pending);
    IdsAppend(d.pending, task);
  }

  lemma PendingAreNamed(pending: seq<Task>)
    ensures forall k :: 0 <= k < |pending| ==> pending[k].dispatchId in Ids(pending)
  {
  }

  lemma IdsAppend(s: seq<Task>, task: Task)
    ensures Ids(s + [task]) == Ids(s) + {task.dispatchId}
  {
    forall id | id in Ids(s) ensures id in Ids(s + [task]) {
      var k :| 0 <= k < |s| && s[k].dispatchId == id;
      assert (s + [task])[k].dispatchId == id;
    }
    assert (s + [task])[|s|] == task;
  }

  lemma ClaimSound(d: Dispatcher, worker: Worker, now: nat)
    requires Sound(d)
    ensures Sound(Act(d, Claim(worker, now)))
  {
    hide Placed, LeasesMatch, OneLeasePerWorker, OneLeasePerInstance, LeaseFor, InstanceBusy, MatchesWorker;
    var p := FirstFor(d.pending, d.inFlight, worker);
    if !WorkerBusy(d.inFlight, worker.id) && p < |d.pending| {
      ClaimLeases(d, p, worker, now);
      ClaimPlaced(d, p, worker, now);
    }
  }

  lemma ClaimLeases(d: Dispatcher, p: nat, worker: Worker, now: nat)
    requires Sound(d) && !WorkerBusy(d.inFlight, worker.id)
      && p == FirstFor(d.pending, d.inFlight, worker) < |d.pending|
    ensures var e := Act(d, Claim(worker, now));
      OneLeasePerWorker(e.inFlight) && OneLeasePerInstance(e.inFlight) && LeasesMatch(e)
  {
    hide Ids, Placed, OneLeasePerWorker, OneLeasePerInstance, WorkerBusy, InstanceBusy, LeaseFor, Without;
    NotLeased(d, p);
    OneMoreLease(d, d.pending[p], worker, now);
  }

  lemma OneMoreLease(d: Dispatcher, task: Task, worker: Worker, now: nat)
    requires OneLeasePerWorker(d.inFlight) && OneLeasePerInstance(d.inFlight) && LeasesMatch(d)
    requires !WorkerBusy(d.inFlight, worker.id) && !InstanceBusy(d.inFlight, task) && MatchesWorker(task, worker)
    requires task.dispatchId in d.issued && d.issued[task.dispatchId] == task && task.dispatchId !in d.inFlight
    ensures var e := d.(inFlight := d.inFlight[task.dispatchId := LeaseFor(task, worker, now)]);
      OneLeasePerWorker(e.inFlight) && OneLeasePerInstance(e.inFlight) && LeasesMatch(e)
  {
  }

  lemma NotLeased(d: Dispatcher, p: nat)
    requires Placed(d) && p < |d.pending|
    ensures d.pending[p].dispatchId !in d.inFlight
    ensures d.pending[p].dispatchId in d.issued && d.issued[d.pending[p].dispatchId] == d.pending[p]
  {
    assert d.pending[p].dispatchId in Ids(d.pending);
  }

  lemma ClaimPlaced(d: Dispatcher, p: nat, worker: Worker, now: nat)
    requires Placed(d) && p < |d.pending|
    ensures var task := d.pending[p];
      Placed(d.(pending := Without(d.pending, p), inFlight :=
        d.inFlight[task.dispatchId := LeaseFor(task, worker, now)],
                place := d.place[task.dispatchId := WithClaimer]))
  {
    var id := d.pending[p].dispatchId;
    WithoutIds(d.pending, p);
    assert id in Ids(d.pending) && At(d, id, Queued);
    var e := d.(pending := Without(d.pending, p), inFlight :=
      d.inFlight[id := LeaseFor(d.pending[p], worker, now)], place := d.place[id := WithClaimer]);
    forall x ensures At(e, x, Queued) <==> x in Ids(e.pending) { assert At(d, x, Queued) <==> x in Ids(d.pending); }
    forall x ensures At(e, x, InWaiters) <==> x in e.waiters { assert At(d, x, InWaiters) <==> x in d.waiters; }
  }

  lemma ChannelPlaced(d: Dispatcher, e: Dispatcher, id: DispatchId, p: Place)
    requires Placed(d) && id in d.place && !d.place[id].Queued? && !p.Queued?
    requires e == d.(place := d.place[id := p], waiters := if p.InWaiters? then d.waiters + {id} else d.waiters - {id})
    ensures Placed(e)
  {
    forall x ensures At(e, x, Queued) <==> x in Ids(e.pending) { assert At(d, x, Queued) <==> x in Ids(d.pending); }
    forall x ensures At(e, x, InWaiters) <==> x in e.waiters { assert At(d, x, InWaiters) <==> x in d.waiters; }
  }

  lemma ReleasePlaced(d: Dispatcher, id: DispatchId)
    requires Sound(d)
    ensures Sound(d.(inFlight := d.inFlight - {id}))
  {
    var e := d.(inFlight := d.inFlight - {id});
    forall x ensures At(e, x, Queued) <==> x in Ids(e.pending) { assert At(d, x, Queued) <==> x in Ids(d.pending); }
    forall x ensures At(e, x, InWaiters) <==> x in e.waiters { assert At(d, x, InWaiters) <==> x in d.waiters; }
  }

  lemma ChannelSound(d: Dispatcher, action: Action)
    requires Sound(d) && (action.Register? || action.AbandonClaim? || action.TakeWaiter? || action.ReleaseLease?
      || action.Send?)
    ensures Sound(Act(d, action))
  {
    var e := Act(d, action);
    if action.ReleaseLease? {
      ReleasePlaced(d, action.id);
    } else if e != d {
      var id := action.id;
      assert id in d.waiters <==> At(d, id, InWaiters);
      assert e.waiters == if e.place[id].InWaiters? then d.waiters + {id} else d.waiters - {id};
      hide Placed, OneLeasePerWorker, OneLeasePerInstance;
      ChannelPlaced(d, e, id, e.place[id]);
    }
  }

  lemma DropSound(d: Dispatcher, kept: seq<Task>, ids: set<DispatchId>)
    requires Sound(d) && ids <= Ids(d.pending) && Ids(kept) == Ids(d.pending) - ids
    requires forall i, j :: 0 <= i < j < |kept| ==> kept[i].dispatchId != kept[j].dispatchId
    requires forall t :: t in kept ==> t in d.pending
    ensures Sound(d.(pending := kept, place := DropAll(d.place, ids)))
  {
    var e := d.(pending := kept, place := DropAll(d.place, ids));
    forall x ensures At(e, x, Queued) <==> x in Ids(e.pending) { assert At(d, x, Queued) <==> x in Ids(d.pending); }
    forall x ensures At(e, x, InWaiters) <==> x in e.waiters {
      assert At(d, x, InWaiters) <==> x in d.waiters;
      assert At(d, x, Queued) <==> x in Ids(d.pending);
    }
    forall k | 0 <= k < |kept| ensures kept[k].dispatchId in d.issued && d.issued[kept[k].dispatchId] == kept[k] {
      assert kept[k] in d.pending;
    }
  }

  lemma CancelSound(d: Dispatcher, hosts: set<HostId>)
    requires Sound(d)
    ensures Sound(Act(d, CancelLostHosts(hosts)))
  {
    hide Sound, Ids, Retained;
    var kept := Retained(d.pending, hosts);
    PendingAreDistinct(d);
    IdsOfRetained(d.pending, hosts);
    RetainedTasks(d.pending, hosts);
    DropSound(d, kept, Ids(d.pending) - Ids(kept));
  }

  lemma PendingAreDistinct(d: Dispatcher)
    requires Sound(d)
    ensures forall i, j :: 0 <= i < j < |d.pending| ==> d.pending[i].dispatchId != d.pending[j].dispatchId
  {
  }

  lemma LostIds(pending: seq<Task>, hosts: set<HostId>, id: DispatchId)
    requires forall i, j :: 0 <= i < j < |pending| ==> pending[i].dispatchId != pending[j].dispatchId
    ensures id in Ids(pending) - Ids(Retained(pending, hosts))
      <==> exists t :: t in pending && t.dispatchId == id && t.pin.Some? && t.pin.value in hosts
  {
    RetainedTasks(pending, hosts);
    var kept := Retained(pending, hosts);
    forall a, b | a in pending && b in pending && a.dispatchId == b.dispatchId ensures a == b {
      var i :| 0 <= i < |pending| && pending[i] == a;
      var j :| 0 <= j < |pending| && pending[j] == b;
    }
    forall t | t in pending && t.dispatchId == id ensures id in Ids(kept) <==> t in kept {
      if id in Ids(kept) {
        var k :| 0 <= k < |kept| && kept[k].dispatchId == id;
        assert kept[k] in pending;
      }
    }
  }

  /**
   Hosts that are lost take the pending tasks pinned to them out of the queue, and their channels are dropped. All
   others stay where they are.
   */
  lemma CancelExactlyWhen(d: Dispatcher, hosts: set<HostId>)
    requires Sound(d)
    ensures var e := Act(d, CancelLostHosts(hosts));
      && e == d.(pending := e.pending, place := e.place) && e.place.Keys == d.place.Keys
      && (forall t :: t in e.pending <==> t in d.pending && !(t.pin.Some? && t.pin.value in hosts))
      && forall id :: id in d.place ==>
           e.place[id] == if exists t :: t in d.pending && t.dispatchId == id && t.pin.Some? && t.pin.value in hosts
                          then Dropped else d.place[id]
  {
    hide Sound, Ids, Retained;
    PendingAreDistinct(d);
    RetainedTasks(d.pending, hosts);
    forall id ensures id in Ids(d.pending) - Ids(Retained(d.pending, hosts))
      <==> exists t :: t in d.pending && t.dispatchId == id && t.pin.Some? && t.pin.value in hosts
    {
      LostIds(d.pending, hosts, id);
    }
  }

  lemma IdsOfRetained(pending: seq<Task>, hosts: set<HostId>)
    requires forall i, j :: 0 <= i < j < |pending| ==> pending[i].dispatchId != pending[j].dispatchId
    ensures Ids(Retained(pending, hosts)) <= Ids(pending)
  {
    var kept := Retained(pending, hosts);
    RetainedTasks(pending, hosts);
    forall id | id in Ids(kept) ensures id in Ids(pending) {
      var k :| 0 <= k < |kept| && kept[k].dispatchId == id;
      assert kept[k] in pending;
      var i :| 0 <= i < |pending| && pending[i] == kept[k];
    }
  }

  lemma RemoveSound(d: Dispatcher, id: DispatchId)
    requires Sound(d)
    ensures Sound(Act(d, RemovePending(id)))
  {
    var p := PositionOf(d.pending, id);
    if p < |d.pending| {
      WithoutIds(d.pending, p);
      assert d.pending[p].dispatchId in Ids(d.pending);
      var r := Without(d.pending, p);
      forall t | t in r ensures t in d.pending { var k :| 0 <= k < |r| && r[k] == t; }
      DropSound(d, r, {id});
    }
  }

  lemma ActSound(d: Dispatcher, action: Action)
    requires Sound(d)
    ensures Sound(Act(d, action))
  {
    match action {
      case Push(task) => PushSound(d, task);
      case Claim(worker, now) => ClaimSound(d, worker, now);
      case CancelLostHosts(hosts) => CancelSound(d, hosts);
      case RemovePending(id) => RemoveSound(d, id);
      case _ => ChannelSound(d, action);
    }
  }

  /** In every reachable state each worker and each instance has one lease at most, on an allowed host. */
  lemma {:induction false} ReachableSound(d: Dispatcher, actions: seq<Action>)
    requires Sound(d)
    ensures Sound(Acts(d, actions))
    decreases |actions|
  {
    if actions != [] {
      ActSound(d, actions[0]);
      ReachableSound(Act(d, actions[0]), actions[1..]);
    }
  }

  // ---------------------------------------------------------------------------
  // The result channel moves one way

  /** Each region moves the channel of a dispatch forward, and once sent or dropped it stays there. */
  ghost predicate Forward(d: Dispatcher, e: Dispatcher) {
    forall id :: id in d.place
           ==> id in e.place && (e.place[id] == d.place[id] || Rank(d.place[id]) < Rank(e.place[id]))
  }

  ghost predicate IssuedStay(d: Dispatcher, e: Dispatcher) {
    forall id :: id in d.issued ==> id in e.issued && e.issued[id] == d.issued[id]
  }

  lemma ActForward(d: Dispatcher, action: Action)
    requires Sound(d)
    ensures Forward(d, Act(d, action)) && IssuedStay(d, Act(d, action))
  {
    hide Sound, InstanceBusy, WorkerBusy, MatchesWorker, LeaseFor, Ids, Retained, Without, DropAll, FirstFor;
    PlacesMatch(d);
    match action {
      case CancelLostHosts(hosts) => DroppedForward(d, Ids(d.pending) - Ids(Retained(d.pending, hosts)));
      case RemovePending(id) =>
        if PositionOf(d.pending, id) < |d.pending| {
          assert At(d, id, Queued);
          DroppedForward(d, {id});
        }
      case _ => MoveForward(d, action);
    }
  }

  /** The actions that move one dispatch to another place. */
  lemma MoveForward(d: Dispatcher, action: Action)
    requires !action.CancelLostHosts? && !action.RemovePending? && d.place.Keys == d.issued.Keys
    requires forall k :: 0 <= k < |d.pending| ==> At(d, d.pending[k].dispatchId, Queued)
    requires forall id :: id in d.waiters ==> At(d, id, InWaiters)
    ensures Forward(d, Act(d, action)) && IssuedStay(d, Act(d, action))
  {
    hide Sound, InstanceBusy, WorkerBusy, MatchesWorker, LeaseFor, Ids, Retained, Without, DropAll, PositionOf;
    if action.Claim? {
      var p := FirstFor(d.pending, d.inFlight, action.worker);
      if p < |d.pending| { assert At(d, d.pending[p].dispatchId, Queued); }
    }
    if action.TakeWaiter? && action.id in d.waiters { assert At(d, action.id, InWaiters); }
  }

  lemma DroppedForward(d: Dispatcher, ids: set<DispatchId>)
    requires forall id :: id in ids ==> At(d, id, Queued)
    ensures forall id :: id in d.place ==>
      && id in DropAll(d.place, ids)
      && (DropAll(d.place, ids)[id] == d.place[id] || Rank(d.place[id]) < Rank(DropAll(d.place, ids)[id]))
  {
  }

  lemma CounterApart(d: Dispatcher, next: nat)
    ensures Sound(d.(next := next)) <==> Sound(d)
  {
  }

  lemma PlacesMatch(d: Dispatcher)
    requires Sound(d)
    ensures d.place.Keys == d.issued.Keys
    ensures forall k :: 0 <= k < |d.pending| ==> At(d, d.pending[k].dispatchId, Queued)
    ensures forall id :: id in Ids(d.pending) ==> At(d, id, Queued)
    ensures forall id :: id in d.waiters ==> At(d, id, InWaiters)
  {
    PendingAreNamed(d.pending);
  }

  lemma {:induction false} RunForward(d: Dispatcher, actions: seq<Action>)
    requires Sound(d)
    ensures Sound(Acts(d, actions)) && Forward(d, Acts(d, actions)) && IssuedStay(d, Acts(d, actions))
    decreases |actions|
  {
    hide Sound, Act;
    if actions != [] {
      ActSound(d, actions[0]);
      ActForward(d, actions[0]);
      var e := Act(d, actions[0]);
      RunForward(e, actions[1..]);
      ForwardTransitive(d, e, Acts(e, actions[1..]));
    }
  }

  lemma ForwardTransitive(d: Dispatcher, e: Dispatcher, f: Dispatcher)
    requires Forward(d, e) && Forward(e, f) && IssuedStay(d, e) && IssuedStay(e, f)
    ensures Forward(d, f) && IssuedStay(d, f)
  {
  }

  /** A dispatch is never both pending and leased, and once it has left the queue it never returns. */
  lemma NeverPendingAgain(d: Dispatcher, actions: seq<Action>, id: DispatchId)
    requires Sound(d) && id in d.issued && id !in Ids(d.pending)
    ensures id !in Ids(Acts(d, actions).pending)
    ensures forall x :: x in d.inFlight ==> x !in Ids(d.pending)
  {
    RunForward(d, actions);
    var e := Acts(d, actions);
    assert !At(d, id, Queued);
    assert At(e, id, Queued) <==> id in Ids(e.pending);
    forall x | x in d.inFlight ensures x !in Ids(d.pending) { assert At(d, x, Queued) <==> x in Ids(d.pending); }
  }

  /** The number of times a result is sent for a dispatch in the course of a run. */
  function Sends(d: Dispatcher, actions: seq<Action>, id: DispatchId): nat
    decreases |actions|
  {
    if actions == [] then 0
    else
      (if actions[0] == Send(id) && At(d, id, WithResolver) then 1 else 0) + Sends(Act(d, actions[0]), actions[1..], id)
  }

  lemma SendIsLast(d: Dispatcher, id: DispatchId)
    requires At(d, id, WithResolver)
    ensures At(Act(d, Send(id)), id, Sent)
  {
  }

  /** Its waiter is resolved at most once, however results and timeouts race. */
  lemma {:induction false} ResolvedAtMostOnce(d: Dispatcher, actions: seq<Action>, id: DispatchId)
    requires Sound(d)
    ensures Sends(d, actions, id) <= 1
    ensures At(d, id, Sent) || At(d, id, Dropped) ==> Sends(d, actions, id) == 0
    decreases |actions|
  {
    hide Sound, Act, IssuedStay;
    if actions != [] {
      ActSound(d, actions[0]);
      ActForward(d, actions[0]);
      if actions[0] == Send(id) && At(d, id, WithResolver) { SendIsLast(d, id); }
      ResolvedAtMostOnce(Act(d, actions[0]), actions[1..], id);
    }
  }

  /** Of a worker result and a timeout that race for one dispatch, only the first to take the waiter finds it. */
  lemma SecondTakeFindsNothing(d: Dispatcher, id: DispatchId, between: seq<Action>)
    requires Sound(d) && id in d.waiters
    ensures id !in Acts(Act(d, TakeWaiter(id)), between).waiters
  {
    ActSound(d, TakeWaiter(id));
    var e := Act(d, TakeWaiter(id));
    RunForward(e, between);
    var f := Acts(e, between);
    assert At(f, id, InWaiters) <==> id in f.waiters;
  }

  /** A lease seen twice is the same lease: the timeout monitor never releases one it did not see expire. */
  lemma {:induction false} LeaseNeverRenewed(d: Dispatcher, actions: seq<Action>, id: DispatchId)
    requires Sound(d) && id in d.place && !d.place[id].Queued?
    ensures id in Acts(d, actions).inFlight ==> id in d.inFlight && Acts(d, actions).inFlight[id] == d.inFlight[id]
    decreases |actions|
  {
    if actions != [] {
      assert Placed(d);
      hide Sound, Act, IssuedStay, Placed;
      ActSound(d, actions[0]);
      ActForward(d, actions[0]);
      ActKeepsLease(d, actions[0], id);
      LeaseNeverRenewed(Act(d, actions[0]), actions[1..], id);
    }
  }

  lemma ActKeepsLease(d: Dispatcher, action: Action, id: DispatchId)
    requires Placed(d) && id in d.place && !d.place[id].Queued?
    ensures id in Act(d, action).inFlight ==> id in d.inFlight && Act(d, action).inFlight[id] == d.inFlight[id]
  {
    if action.Claim? {
      var p := FirstFor(d.pending, d.inFlight, action.worker);
      if p < |d.pending| {
        assert d.pending[p].dispatchId in Ids(d.pending);
        assert At(d, d.pending[p].dispatchId, Queued);
      }
    }
  }

  // ---------------------------------------------------------------------------
  // Leases and waiters

  /** None of these actions is `action`. */
  ghost predicate Never(actions: seq<Action>, action: Action) {
    forall k :: 0 <= k < |actions| ==> actions[k] != action
  }

  lemma NeverTail(actions: seq<Action>, action: Action)
    requires actions != []
    ensures Never(actions, action) <==> actions[0] != action && Never(actions[1..], action)
  {
    if actions[0] != action && Never(actions[1..], action) {
      forall k | 0 <= k < |actions|
             ensures actions[k] != action { if k > 0 { assert actions[k] == actions[1..][k - 1]; } }
    }
    if Never(actions, action) {
      forall k | 0 <= k < |actions[1..]| ensures actions[1..][k] != action { assert actions[1..][k] == actions[k + 1]; }
    }
  }

  lemma ActLease(d: Dispatcher, action: Action, id: DispatchId)
    requires Placed(d) && id in d.inFlight
    ensures id in Act(d, action).inFlight <==> action != ReleaseLease(id)
  {
  }

  /** A lease lasts until it is released, and never comes back. */
  lemma {:induction false} LeaseLastsUntilReleased(d: Dispatcher, actions: seq<Action>, id: DispatchId)
    requires Sound(d) && id in d.inFlight
    ensures id in Acts(d, actions).inFlight <==> Never(actions, ReleaseLease(id))
    ensures id in Acts(d, actions).inFlight ==> Acts(d, actions).inFlight[id] == d.inFlight[id]
    decreases |actions|
  {
    LeaseIsOut(d, id);
    LeaseNeverRenewed(d, actions, id);
    if actions != [] {
      NeverTail(actions, ReleaseLease(id));
      ActLease(d, actions[0], id);
      ActSound(d, actions[0]);
      ActForward(d, actions[0]);
      LeaseIsOut(Act(d, actions[0]), id);
      hide Sound, Act, Never;
      var e := Act(d, actions[0]);
      if id in e.inFlight { LeaseLastsUntilReleased(e, actions[1..], id); } else {
        LeaseNeverRenewed(e, actions[1..], id);
      }
    }
  }

  lemma LeaseIsOut(d: Dispatcher, id: DispatchId)
    requires Placed(d)
    ensures id in d.inFlight ==> id in d.place && !d.place[id].Queued?
  {
  }

  lemma ActTakes(d: Dispatcher, action: Action, id: DispatchId)
    requires Placed(d) && id in d.waiters
    ensures if action == TakeWaiter(id) then At(Act(d, action), id, WithResolver) else id in Act(d, action).waiters
  {
    assert At(d, id, InWaiters);
  }

  /** A waiter stays until somebody takes it. */
  lemma {:induction false} WaiterStaysUntilTaken(d: Dispatcher, actions: seq<Action>, id: DispatchId)
    requires Sound(d) && id in d.waiters
    ensures id in Acts(d, actions).waiters <==> Never(actions, TakeWaiter(id))
    decreases |actions|
  {
    if actions != [] {
      NeverTail(actions, TakeWaiter(id));
      ActTakes(d, actions[0], id);
      ActSound(d, actions[0]);
      var e := Act(d, actions[0]);
      if actions[0] == TakeWaiter(id) {
        WaiterGone(e, actions[1..], id);
      } else {
        hide Sound, Act, Never;
        WaiterStaysUntilTaken(e, actions[1..], id);
      }
    }
  }

  lemma WaiterGone(d: Dispatcher, actions: seq<Action>, id: DispatchId)
    requires Sound(d) && id in d.place && Rank(d.place[id]) > Rank(InWaiters)
    ensures id !in Acts(d, actions).waiters
  {
    RunForward(d, actions);
    var e := Acts(d, actions);
    assert At(e, id, InWaiters) <==> id in e.waiters;
  }

  /**
   The claim registers its waiter at position `k`: nobody did before, it was not given up, and nobody takes it after.
   */
  ghost predicate WaitsFrom(actions: seq<Action>, id: DispatchId, k: nat) {
    && k < |actions| && actions[k] == Register(id)
    && Never(actions[..k], Register(id)) && Never(actions[..k], AbandonClaim(id))
    && Never(actions[k + 1..], TakeWaiter(id))
  }

  lemma ActClaimed(d: Dispatcher, action: Action, id: DispatchId)
    requires Placed(d) && At(d, id, WithClaimer)
    ensures At(Act(d, action), id, if action == Register(id) then InWaiters else if action == AbandonClaim(id) then
      Dropped else WithClaimer)
  {
    if action.Claim? {
      var p := FirstFor(d.pending, d.inFlight, action.worker);
      if p < |d.pending| {
        assert d.pending[p].dispatchId in Ids(d.pending);
        assert At(d, d.pending[p].dispatchId, Queued);
      }
    }
    if action.TakeWaiter? && action.id in d.waiters { assert At(d, action.id, InWaiters); }
    if action.CancelLostHosts? {
      forall x | x in Ids(d.pending) ensures At(d, x, Queued) {}
    }
    if action.RemovePending? {
      var p := PositionOf(d.pending, action.id);
      if p < |d.pending| { assert d.pending[p].dispatchId in Ids(d.pending); assert At(d, action.id, Queued); }
    }
  }

  lemma HeadBreaks(actions: seq<Action>, action: Action, k: nat)
    requires 0 < k <= |actions| && actions[0] == action
    ensures !Never(actions[..k], action)
  {
    assert actions[..k][0] == action;
  }

  lemma WaitsFromNow(actions: seq<Action>, id: DispatchId)
    requires actions != [] && actions[0] == Register(id)
    ensures (exists k: nat :: WaitsFrom(actions, id, k)) <==> Never(actions[1..], TakeWaiter(id))
  {
    if Never(actions[1..], TakeWaiter(id)) {
      assert actions[..0] == [];
      assert WaitsFrom(actions, id, 0);
    }
    if k: nat :| WaitsFrom(actions, id, k) {
      if k > 0 { HeadBreaks(actions, Register(id), k); }
    }
  }

  lemma WaitsFromLater(actions: seq<Action>, id: DispatchId)
    requires actions != [] && actions[0] != Register(id)
    ensures (exists k: nat :: WaitsFrom(actions, id, k))
      <==> actions[0] != AbandonClaim(id) && exists k: nat :: WaitsFrom(actions[1..], id, k)
  {
    var rest := actions[1..];
    forall k: nat | k < |rest|
      ensures WaitsFrom(actions, id, k + 1) <==> actions[0] != AbandonClaim(id) && WaitsFrom(rest, id, k)
    {
      assert actions[..k + 1] == [actions[0]] + rest[..k] && actions[k + 2..] == rest[k + 1..];
      NeverTail(actions[..k + 1], Register(id));
      NeverTail(actions[..k + 1], AbandonClaim(id));
      assert actions[..k + 1][1..] == rest[..k];
    }
    if k: nat :| WaitsFrom(actions, id, k) {
      assert k > 0;
      assert WaitsFrom(actions, id, (k - 1) + 1) && WaitsFrom(rest, id, k - 1);
    }
    if actions[0] != AbandonClaim(id) {
      if k: nat :| WaitsFrom(rest, id, k) { assert WaitsFrom(actions, id, k + 1); }
    }
  }

  lemma {:induction false} WaiterExactlyWhen(d: Dispatcher, actions: seq<Action>, id: DispatchId)
    requires Sound(d) && At(d, id, WithClaimer)
    ensures id in Acts(d, actions).waiters <==> exists k: nat :: WaitsFrom(actions, id, k)
    decreases |actions|
  {
    if actions == [] {
      assert At(d, id, InWaiters) <==> id in d.waiters;
    } else {
      var action, e := actions[0], Act(d, actions[0]);
      ActSound(d, action);
      ActClaimed(d, action, id);
      if action == Register(id) {
        WaitsFromNow(actions, id);
        assert At(e, id, InWaiters) <==> id in e.waiters;
        WaiterStaysUntilTaken(e, actions[1..], id);
      } else {
        WaitsFromLater(actions, id);
        hide Sound, Act, WaitsFrom;
        if action == AbandonClaim(id) { WaiterGone(e, actions[1..], id); } else {
          WaiterExactlyWhen(e, actions[1..], id);
        }
      }
    }
  }

  /**
   When a claimed dispatch has its lease and its waiter, over every interleaving that follows the claim. The
   waiter is there exactly if the claim has registered it, was not given up before, and nobody has taken it
   since; the lease exactly until it is released. The two are inserted under different locks, so neither implies
   the other.
   */
  lemma LeaseHasWaiterExactlyWhen(d: Dispatcher, actions: seq<Action>, id: DispatchId)
    requires Sound(d) && At(d, id, WithClaimer) && id in d.inFlight
    ensures id in Acts(d, actions).waiters <==> exists k: nat :: WaitsFrom(actions, id, k)
    ensures id in Acts(d, actions).inFlight <==> Never(actions, ReleaseLease(id))
  {
    WaiterExactlyWhen(d, actions, id);
    LeaseLastsUntilReleased(d, actions, id);
  }

  /** Every claim that takes a task leads to such a state. */
  lemma ClaimGivesLease(d: Dispatcher, worker: Worker, now: nat, id: DispatchId)
    requires Sound(d) && id in Act(d, Claim(worker, now)).inFlight && id !in d.inFlight
    ensures var e := Act(d, Claim(worker, now));
      Sound(e) && At(e, id, WithClaimer) && id !in e.waiters && e.inFlight[id].workerId == worker.id
  {
    var e := Act(d, Claim(worker, now));
    ActSound(d, Claim(worker, now));
    assert At(e, id, InWaiters) <==> id in e.waiters;
  }

  /**
   A claim given up between its locks leaves its lease without a waiter: from then on the dispatch never has
   one, and the lease stays until it is released.
   */
  lemma GivenUpClaimKeepsLease(d: Dispatcher, actions: seq<Action>, id: DispatchId)
    requires Sound(d) && At(d, id, WithClaimer) && id in d.inFlight
    ensures var e := Acts(Act(d, AbandonClaim(id)), actions);
      id !in e.waiters && (id in e.inFlight <==> Never(actions, ReleaseLease(id)))
  {
    ActSound(d, AbandonClaim(id));
    ActClaimed(d, AbandonClaim(id), id);
    WaiterGone(Act(d, AbandonClaim(id)), actions, id);
    LeaseLastsUntilReleased(Act(d, AbandonClaim(id)), actions, id);
  }

  /** Such a state is reached from the start: push, claim, give up. */
  lemma LeaseWithoutWaiter(task: Task, worker: Worker, now: nat)
    requires MatchesWorker(task, worker)
    ensures var d := Acts(Empty, [Push(task), Claim(worker, now), AbandonClaim(task.dispatchId)]);
      task.dispatchId in d.inFlight && task.dispatchId !in d.waiters && At(d, task.dispatchId, Dropped)
  {
    var a := Act(Empty, Push(task));
    assert a.pending == [task];
    assert FirstFor(a.pending, a.inFlight, worker) == 0;
    var b := Act(a, Claim(worker, now));
    var c := Act(b, AbandonClaim(task.dispatchId));
    var actions := [Push(task), Claim(worker, now), AbandonClaim(task.dispatchId)];
    assert actions[1..] == [Claim(worker, now), AbandonClaim(task.dispatchId)];
    assert actions[1..][1..] == [AbandonClaim(task.dispatchId)] && actions[1..][1..][1..] == [];
    assert Acts(Empty, actions) == Acts(a, actions[1..]);
    assert Acts(a, actions[1..]) == Acts(b, actions[1..][1..]);
    assert Acts(b, actions[1..][1..]) == Acts(c, []);
  }

  /**
   While a lease is not released, no claim by its worker changes anything, and no claim by anyone takes a task
   of its workflow instance.
   */
  lemma LeaseBlocks(d: Dispatcher, actions: seq<Action>, id: DispatchId, worker: Worker, now: nat)
    requires Sound(d) && id in d.inFlight && Never(actions, ReleaseLease(id))
    ensures var e, lease := Acts(d, actions), d.inFlight[id];
      && (worker.id == lease.workerId ==> Act(e, Claim(worker, now)) == e)
      && forall x :: x in Act(e, Claim(worker, now)).inFlight && x !in e.inFlight ==>
           var taken := Act(e, Claim(worker, now)).inFlight[x];
           !(taken.namespace == lease.namespace && taken.instanceId == lease.instanceId)
  {
    LeaseLastsUntilReleased(d, actions, id);
    var e := Acts(d, actions);
    assert e.inFlight[id] == d.inFlight[id];
    BusyLease(e, id, worker, now);
  }

  lemma BusyLease(e: Dispatcher, id: DispatchId, worker: Worker, now: nat)
    requires id in e.inFlight
    ensures worker.id == e.inFlight[id].workerId ==> Act(e, Claim(worker, now)) == e
    ensures forall x :: x in Act(e, Claim(worker, now)).inFlight && x !in e.inFlight ==>
      var taken := Act(e, Claim(worker, now)).inFlight[x];
      !(taken.namespace == e.inFlight[id].namespace && taken.instanceId == e.inFlight[id].instanceId)
  {
    var p := FirstFor(e.pending, e.inFlight, worker);
    if p < |e.pending| { assert !InstanceBusy(e.inFlight, e.pending[p]); }
  }

  /**
   The mirror of it: a waiter without a lease. It comes about exactly if the lease was released and the waiter
   registered and not taken. From then on no timeout sees the dispatch, at any time: its waiter stays until some
   TakeWaiter, which is then the worker's own result or the rest of the timeout that released the lease. If that
   timeout looked for the waiter before it was registered, only a late result of the worker is left.
   */
  lemma WaiterWithoutLeaseExactlyWhen(d: Dispatcher, actions: seq<Action>, later: seq<Action>, id: DispatchId)
    requires Sound(d) && At(d, id, WithClaimer) && id in d.inFlight
    ensures var e := Acts(d, actions);
      && (id in e.waiters && id !in e.inFlight
        <==> !Never(actions, ReleaseLease(id)) && exists k: nat :: WaitsFrom(actions, id, k))
      && (id in e.waiters && id !in e.inFlight ==>
            && id !in Acts(e, later).inFlight
            && (id in Acts(e, later).waiters <==> Never(later, TakeWaiter(id))))
  {
    hide Sound, Act, WaitsFrom, Never;
    LeaseHasWaiterExactlyWhen(d, actions, id);
    var e := Acts(d, actions);
    RunForward(d, actions);
    if id in e.waiters && id !in e.inFlight {
      assert id in e.place && !e.place[id].Queued?;
      LeaseNeverRenewed(e, later, id);
      WaiterStaysUntilTaken(e, later, id);
    }
  }

  /** That race, step by step: the monitor releases the lease and finds no waiter, then the claim registers one. */
  lemma TimeoutBeforeRegistration(d: Dispatcher, later: seq<Action>, id: DispatchId)
    requires Sound(d) && At(d, id, WithClaimer) && id in d.inFlight
    ensures var e := Acts(d, [ReleaseLease(id), TakeWaiter(id), Register(id)]);
      && id in e.waiters && id !in e.inFlight && id !in Acts(e, later).inFlight
      && (Never(later, TakeWaiter(id)) ==> id in Acts(e, later).waiters)
  {
    var actions := [ReleaseLease(id), TakeWaiter(id), Register(id)];
    assert actions[2] == Register(id) && actions[..2] == [ReleaseLease(id), TakeWaiter(id)] && actions[3..] == [];
    assert WaitsFrom(actions, id, 2);
    assert actions[0] == ReleaseLease(id);
    WaiterWithoutLeaseExactlyWhen(d, actions, later, id);
  }

  lemma EmptyIsSound()
    ensures Sound(Empty)
  {
  }

  /** Over every run of the dispatcher from its start: one lease per worker and per instance, on an allowed host. */
  lemma DispatcherStaysSound(actions: seq<Action>)
    ensures Sound(Acts(Empty, actions))
  {
    EmptyIsSound();
    ReachableSound(Empty, actions);
  }

  // ---------------------------------------------------------------------------
  // The class: fields behind their locks, one method per region

  datatype ClaimOutcome = Claimed(task: Task) | NoTask | HasLease

  class DispatcherService {
    const name: string
    var pending: seq<Task>
    var inFlight: map<DispatchId, Lease>
    var waiters: set<DispatchId>
    var next: nat
    ghost var numbered: set<DispatchId>
    ghost var issued: map<DispatchId, Task>
    ghost var place: map<DispatchId, Place>

    ghost function State(): Dispatcher
      reads this
    {
      Dispatcher(pending, inFlight, waiters, next, issued, place)
    }

    ghost predicate Valid()
      reads this
    {
      && Sound(State()) && issued.Keys <= numbered
      && forall id :: id in numbered ==> exists t, n: nat :: n < next && id == MakeId(t, name, n)
    }

    constructor (name: string)
      ensures Valid() && State() == Empty && numbered == {}
    {
      this.name := name;
      pending, inFlight, waiters, next := [], map[], {}, 0;
      numbered, issued, place := {}, map[], map[];
    }

    /** `fetch_add` on the counter: an id no earlier call was given. */
    method NextDispatchId(taskDefId: string) returns (id: DispatchId)
      requires Valid()
      modifies `next, `numbered
      ensures Valid() && id !in old(numbered) && numbered == old(numbered) + {id}
        && State() == old(State()).(next := next)
    {
      hide Sound, MakeId;
      CounterApart(State(), next + 1);
      id := MakeId(taskDefId, name, next);
      if id in numbered {
        var t, n: nat :| n < next && id == MakeId(t, name, n);
        MakeIdInjective(taskDefId, t, name, next, n);
      }
      next := next + 1;
      numbered := numbered + {id};
      forall x | x in numbered ensures exists t, n: nat :: n < next && x == MakeId(t, name, n) {
        if x == id {
          assert next - 1 < next && x == MakeId(taskDefId, name, next - 1);
        } else {
          var t, n: nat :| n < old(next) && x == MakeId(t, name, n);
        }
      }
    }

    /** Each dispatch pushes the id it was given, once. */
    method Push(task: Task)
      requires Valid() && task.dispatchId in numbered && task.dispatchId !in issued
      modifies `pending, `issued, `place
      ensures Valid() && State() == Act(old(State()), Action.Push(task)) && pending == old(pending) + [task]
    {
      hide Sound, MakeId;
      ActSound(State(), Action.Push(task));
      pending := pending + [task];
      issued := issued[task.dispatchId := task];
      place := place[task.dispatchId := Queued];
    }

    /** The position of the first task this worker can take. */
    method FindFor(worker: Worker) returns (position: nat)
      ensures position == FirstFor(pending, inFlight, worker)
    {
      position := 0;
      while position < |pending|
        && !(MatchesWorker(pending[position], worker) && !InstanceBusy(inFlight, pending[position]))
        invariant 0 <= position <= |pending|
        invariant FirstFor(pending, inFlight, worker) == position + FirstFor(pending[position..], inFlight, worker)
      {
        assert pending[position..][1..] == pending[position + 1..];
        position := position + 1;
      }
    }

    /** The region of `claim_task` under the lease and pending locks. */
    method Claim(worker: Worker, now: nat) returns (outcome: ClaimOutcome)
      requires Valid()
      modifies `pending, `inFlight, `place
      ensures Valid() && State() == Act(old(State()), Action.Claim(worker, now))
      ensures outcome.HasLease? <==> exists id :: id in old(inFlight) && old(inFlight)[id].workerId == worker.id
      ensures outcome.NoTask? <==>
        !outcome.HasLease?
        && forall k :: 0 <= k < |old(pending)| ==> OutOfReach(old(inFlight), old(pending)[k], worker.host)
      ensures !outcome.Claimed? ==> pending == old(pending) && inFlight == old(inFlight) && place == old(place)
      ensures outcome.Claimed? ==> exists p ::
        && 0 <= p < |old(pending)|
        && outcome.task == old(pending)[p] && !OutOfReach(old(inFlight), old(pending)[p], worker.host)
        && (forall k :: 0 <= k < p ==> OutOfReach(old(inFlight), old(pending)[k], worker.host))
        && pending == old(pending)[..p] + old(pending)[p + 1..]
      ensures outcome.Claimed? ==>
        var task := outcome.task;
        inFlight == old(inFlight)[task.dispatchId := Lease(
          task.dispatchId, task.namespace, task.instanceId, worker.id, worker.host, now, now + task.timeout)]
    {
      hide Sound, InstanceBusy, MatchesWorker, MakeId, OutOfReach, Act;
      ActSound(State(), Action.Claim(worker, now));
      ReachInQueue(pending, inFlight, worker);
      ClaimExactlyWhen(State(), worker, now, FirstFor(pending, inFlight, worker));
      if WorkerBusy(inFlight, worker.id) { return HasLease; }
      var position := FindFor(worker);
      if position == |pending| { return NoTask; }
      var task := pending[position];
      pending := Without(pending, position);
      inFlight := inFlight[task.dispatchId := LeaseFor(task, worker, now)];
      place := place[task.dispatchId := WithClaimer];
      return Claimed(task);
    }

    /** The last region of `claim_task`. */
    method RegisterWaiter(id: DispatchId)
      requires Valid() && At(State(), id, WithClaimer)
      modifies `waiters, `place
      ensures Valid() && State() == Act(old(State()), Action.Register(id)) && waiters == old(waiters) + {id}
    {
      hide Sound, MakeId;
      ActSound(State(), Action.Register(id));
      waiters := waiters + {id};
      place := place[id := InWaiters];
    }

    /** First region of a worker result, last region of a timeout: whoever comes second finds nothing. */
    method TakeWaiter(id: DispatchId) returns (found: bool)
      requires Valid()
      modifies `waiters, `place
      ensures Valid() && State() == Act(old(State()), Action.TakeWaiter(id)) && found == (id in old(waiters))
      ensures waiters == old(waiters) - {id} && (found ==> At(State(), id, WithResolver))
    {
      hide Sound, MakeId;
      ActSound(State(), Action.TakeWaiter(id));
      found := id in waiters;
      if found {
        waiters := waiters - {id};
        place := place[id := WithResolver];
      }
    }

    method ReleaseLease(id: DispatchId) returns (lease: Option<Lease>)
      requires Valid()
      modifies `inFlight
      ensures Valid() && State() == Act(old(State()), Action.ReleaseLease(id)) && inFlight == old(inFlight) - {id}
      ensures lease == if id in old(inFlight) then Some(old(inFlight)[id]) else None
    {
      hide Sound, MakeId;
      ActSound(State(), Action.ReleaseLease(id));
      lease := if id in inFlight then Some(inFlight[id]) else None;
      inFlight := inFlight - {id};
    }

    /** The snapshot of `complete_timed_out_tasks`. */
    method ExpiredIds(now: nat) returns (ids: set<DispatchId>)
      ensures forall id :: id in ids <==> id in inFlight && inFlight[id].expiresAt <= now
    {
      ids := {};
      var todo := inFlight.Keys;
      while todo != {}
        invariant todo <= inFlight.Keys
        invariant forall id :: id in ids <==> id in inFlight && id !in todo && inFlight[id].expiresAt <= now
        decreases todo
      {
        var id :| id in todo;
        todo := todo - {id};
        if inFlight[id].expiresAt <= now { ids := ids + {id}; }
      }
    }

    /** The queue is drained from the front; what is not lost is kept in order. */
    method Drain(tasks: seq<Task>, hosts: set<HostId>) returns (retained: seq<Task>)
      ensures retained == Retained(tasks, hosts)
    {
      var rest := tasks;
      retained := [];
      while rest != []
        invariant retained + Retained(rest, hosts) == Retained(tasks, hosts)
        decreases |rest|
      {
        if !Lost(rest[0], hosts) { retained := retained + [rest[0]]; }
        rest := rest[1..];
      }
    }

    /** `cancel_pending_tasks_for_lost_hosts` */
    method CancelPending(hosts: set<HostId>)
      requires Valid()
      modifies `pending, `place
      ensures Valid() && State() == Act(old(State()), CancelLostHosts(hosts))
      ensures forall t :: t in pending <==> t in old(pending) && !(t.pin.Some? && t.pin.value in hosts)
      ensures place.Keys == old(place.Keys)
      ensures forall id :: id in place ==>
        place[id] == if exists t :: t in old(pending) && t.dispatchId == id && t.pin.Some? && t.pin.value in hosts
                     then Dropped else old(place)[id]
    {
      hide Sound, Ids, DropAll, MakeId, Retained;
      ActSound(State(), CancelLostHosts(hosts));
      CancelExactlyWhen(State(), hosts);
      var retained := Drain(pending, hosts);
      place := DropAll(place, Ids(pending) - Ids(retained));
      pending := retained;
    }

    /** `position` over the queue. */
    method FindPending(id: DispatchId) returns (position: nat)
      ensures position == PositionOf(pending, id)
    {
      position := 0;
      while position < |pending| && pending[position].dispatchId != id
        invariant 0 <= position <= |pending|
        invariant PositionOf(pending, id) == position + PositionOf(pending[position..], id)
      {
        assert pending[position..][1..] == pending[position + 1..];
        position := position + 1;
      }
    }

    method RemovePendingTask(id: DispatchId)
      requires Valid()
      modifies `pending, `place
      ensures Valid() && State() == Act(old(State()), RemovePending(id))
    {
      hide Sound;
      ActSound(State(), RemovePending(id));
      var position := FindPending(id);
      if position < |pending| {
        pending := Without(pending, position);
        place := DropAll(place, {id});
      }
    }
  }
}
