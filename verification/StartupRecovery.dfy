/**
 What happens between a restart and the first engine run: attempts left Running are put back, and every
 runnable instance is queued.
 */
module StartupRecovery {
  import opened Prelude
  import opened AttemptIds
  import opened Model
  import opened Reducer
  import opened StateManager
  import opened Storage
  import opened Paging
  import WorkflowQueue

  predicate NeedsRecovery(i: WorkflowInstance) {
    MayRun(i.status) && (i.status.Running? || RunningIds(i.tasks) != {})
  }

  /** A recovered instance: Pending, nothing Running, everything else as it was, one version on. */
  function RecoveredInstance(i: WorkflowInstance): WorkflowInstance {
    if !NeedsRecovery(i) then i
    else i.(status := WorkflowStatus.Pending, version := i.version + 1, tasks := map id | id in i.tasks ::
      Recovered(i.tasks[id]))
  }

  lemma RecoveryLeavesNothingRunning(i: WorkflowInstance)
    ensures !NeedsRecovery(RecoveredInstance(i)) && RecoveredInstance(RecoveredInstance(i)) == RecoveredInstance(i)
    ensures RecoveredInstance(i).pinnedWorkerHost == i.pinnedWorkerHost
      && RecoveredInstance(i).verifierStates == i.verifierStates
    ensures !MayRun(i.status) ==> RecoveredInstance(i) == i
    ensures forall id :: id in i.tasks && !i.tasks[id].status.Running? ==> RecoveredInstance(i).tasks[id] == i.tasks[id]
  {
  }

  /** The committed event does exactly that, in whatever order the ids are listed. */
  lemma RecoveryEventRecovers(i: WorkflowInstance, ids: seq<AttemptId>)
    requires NeedsRecovery(i) && forall id :: id in ids <==> id in RunningIds(i.tasks)
    ensures Commit(Some(i), Some(i), [StartupRecoveryApplied(ids)]) == Success(RecoveredInstance(i))
  {
    var event := StartupRecoveryApplied(ids);
    assert forall k :: 0 <= k < |ids| ==> ids[k] in ids;
    RecoverAttemptsSucceeds(i.tasks, ids);
    RecoverAttemptsFrame(i.tasks, ids);
    var after := RecoverAttempts(i.tasks, ids).value;
    forall id | id in i.tasks ensures after[id] == Recovered(i.tasks[id]) {
      assert id in ids <==> id in RunningIds(i.tasks);
    }
    assert after == map id | id in i.tasks :: Recovered(i.tasks[id]);
    assert [event][1..] == [];
    assert Reduce(i, [event]) == Reduce(ApplyEvent(i, event).value, []);
  }

  // ---------------------------------------------------------------------------
  // Which instances

  /** The summaries tell the status of the snapshots. */
  ghost predicate Described(journal: Journal) {
    forall key :: key in journal ==>
      && journal[key].instance.id == key.1
      && journal[key].info.namespace == key.0 && journal[key].info.id == key.1
      && journal[key].info.status == journal[key].instance.status
  }

  function KeyOf(info: WorkflowInfo): Key {
    (info.namespace, info.id)
  }

  /** The scan names every runnable instance once. */
  lemma ScanIsComplete(infos: map<Key, WorkflowInfo>, runnable: seq<WorkflowInfo>)
    requires Keys(infos) && runnable == Keep(Listing(infos, None, [NonterminalFilter]), true)
    ensures forall key :: key in infos && IsRunnable(infos[key])
              <==> exists k :: 0 <= k < |runnable| && KeyOf(runnable[k]) == key
    ensures forall k :: 0 <= k < |runnable| ==> KeyOf(runnable[k]) in infos && infos[KeyOf(runnable[k])] == runnable[k]
    ensures forall i, j :: 0 <= i < j < |runnable| ==> KeyOf(runnable[i]) != KeyOf(runnable[j])
  {
    var l := Listing(infos, None, [NonterminalFilter]);
    SelectionKeyed(infos, None, [NonterminalFilter]);
    KeepMembers(l, true);
    forall k | 0 <= k < |runnable|
           ensures KeyOf(runnable[k]) in infos && infos[KeyOf(runnable[k])] == runnable[k] && IsRunnable(runnable[k]) {
      assert runnable[k] in Selection(infos, None, [NonterminalFilter]);
    }
    forall key | key in infos && IsRunnable(infos[key])
           ensures exists k :: 0 <= k < |runnable| && KeyOf(runnable[k]) == key {
      assert infos[key] in Selection(infos, None, [NonterminalFilter]);
      assert infos[key] in runnable;
    }
    forall i, j | 0 <= i < j < |runnable| ensures KeyOf(runnable[i]) != KeyOf(runnable[j]) {
      AheadTotal(CursorOf(runnable[i]), CursorOf(runnable[j]));
      assert infos[KeyOf(runnable[i])] == runnable[i] && infos[KeyOf(runnable[j])] == runnable[j];
    }
  }

  // ---------------------------------------------------------------------------
  // synchronize_startup_tasks

  function CountNeeding(journal: Journal, runnable: seq<WorkflowInfo>): nat {
    if runnable == [] then 0
    else
      (if KeyOf(runnable[0]) in journal && NeedsRecovery(journal[KeyOf(runnable[0])].instance) then 1 else 0)
      + CountNeeding(journal, runnable[1..])
  }

  lemma {:induction false} CountNeedingAppend(journal: Journal, a: seq<WorkflowInfo>, x: WorkflowInfo)
    ensures CountNeeding(journal, a + [x]) ==
      CountNeeding(journal, a) + if KeyOf(x) in journal && NeedsRecovery(journal[KeyOf(x)].instance) then 1 else 0
  {
    if a == [] {
      assert a + [x] == [x] && [x][1..] == [];
    } else {
      assert (a + [x])[1..] == a[1..] + [x];
      CountNeedingAppend(journal, a[1..], x);
    }
  }

  /** The scan names runnable instances only, and none twice. */
  ghost predicate Scanned(journal: Journal, found: seq<WorkflowInfo>) {
    && (forall k :: 0 <= k < |found| ==> KeyOf(found[k]) in journal && MayRun(journal[KeyOf(found[k])].instance.status))
    && (forall i, j :: 0 <= i < j < |found| ==> KeyOf(found[i]) != KeyOf(found[j]))
  }

  ghost predicate Complete(journal: Journal, found: seq<WorkflowInfo>) {
    forall key :: key in journal && IsRunnable(journal[key].info)
           ==> exists k :: 0 <= k < |found| && KeyOf(found[k]) == key
  }

  /** The instance the loop has reached is still as it was. */
  lemma NotReachedYet(was: Journal, now: Journal, found: seq<WorkflowInfo>, n: nat)
    requires n < |found| && Scanned(was, found) && RecoveredUpTo(was, now, found, n)
    ensures KeyOf(found[n]) in was && KeyOf(found[n]) in now && now[KeyOf(found[n])] == was[KeyOf(found[n])]
    ensures MayRun(now[KeyOf(found[n])].instance.status)
  {
    assert forall k :: 0 <= k < n ==> KeyOf(found[k]) != KeyOf(found[n]);
  }

  /** The first `n` instances of the scan are recovered and the others as they were. */
  ghost predicate RecoveredUpTo(was: Journal, now: Journal, found: seq<WorkflowInfo>, n: nat)
    requires n <= |found|
  {
    && now.Keys == was.Keys
    && (forall k :: 0 <= k < n && KeyOf(found[k]) in was
          ==> now[KeyOf(found[k])].instance == RecoveredInstance(was[KeyOf(found[k])].instance))
    && (forall key :: key in was && (forall k :: 0 <= k < n ==> KeyOf(found[k]) != key) ==> now[key] == was[key])
  }

  lemma RecoveredOneMore(was: Journal, now: Journal, next: Journal, found: seq<WorkflowInfo>, n: nat)
    requires n < |found| && RecoveredUpTo(was, now, found, n) && Scanned(was, found)
    requires KeyOf(found[n]) in now && next.Keys == now.Keys
    requires next[KeyOf(found[n])].instance == RecoveredInstance(now[KeyOf(found[n])].instance)
    requires forall other :: other in now && other != KeyOf(found[n]) ==> next[other] == now[other]
    ensures RecoveredUpTo(was, next, found, n + 1)
  {
    NotReachedYet(was, now, found, n);
  }

  lemma NoneRecoveredYet(was: Journal, found: seq<WorkflowInfo>)
    ensures RecoveredUpTo(was, was, found, 0) && CountNeeding(was, found[..0]) == 0
  {
  }

  lemma AllRecovered(was: Journal, now: Journal, found: seq<WorkflowInfo>)
    requires Described(was) && RecoveredUpTo(was, now, found, |found|)
    requires Complete(was, found)
    ensures now.Keys == was.Keys
    ensures forall key :: key in was ==> now[key].instance == RecoveredInstance(was[key].instance)
  {
    forall key | key in was ensures now[key].instance == RecoveredInstance(was[key].instance) {
      if IsRunnable(was[key].info) {
        var k :| 0 <= k < |found| && KeyOf(found[k]) == key;
      } else if forall k :: 0 <= k < |found| ==> KeyOf(found[k]) != key {
        RecoveryLeavesNothingRunning(was[key].instance);
      }
    }
  }

  /**
   `synchronize_startup_tasks`: afterwards every instance is its recovered self, and the count says how many changed.
   */
  method SynchronizeStartupTasks(store: MemoryStorage, now: nat)
      returns (recovered: nat, ghost runnable: seq<WorkflowInfo>)
    requires store.Valid() && Described(store.Contents())
    modifies store
    ensures store.Valid() && Described(store.Contents())
    ensures store.Contents().Keys == old(store.Contents()).Keys
    ensures forall key :: key in old(store.Contents())
              ==> store.Contents()[key].instance == RecoveredInstance(old(store.Contents())[key].instance)
    ensures runnable == Keep(Listing(old(store.infos), None, [NonterminalFilter]), true)
    ensures recovered == CountNeeding(old(store.Contents()), runnable)
  {
    hide RecoveredUpTo, Scanned, Complete, CountNeeding, MayRun, MemoryStorage.Contents, MemoryStorage.Valid;
    hide Described, RecoveredInstance, NeedsRecovery, Listing, Keep, IsRunnable;
    ghost var was := store.Contents();
    var found := FindRunnable(store);
    runnable := found;
    recovered := 0;
    assert RecoveredUpTo(was, was, found, 0) && CountNeeding(was, found[..0]) == 0 by { NoneRecoveredYet(was, found); }
    var n := 0;
    while n < |found|
      invariant 0 <= n <= |found| && store.Valid() && Described(store.Contents())
      invariant RecoveredUpTo(was, store.Contents(), found, n)
      invariant recovered == CountNeeding(was, found[..n])
    {
      var changed := RecoverNth(store, found, n, now, was);
      assert found[..n + 1] == found[..n] + [found[n]];
      CountNeedingAppend(was, found[..n], found[n]);
      if changed { recovered := recovered + 1; }
      n := n + 1;
    }
    assert found[..n] == found;
    AllRecovered(was, store.Contents(), found);
  }

  method RecoverNth(store: MemoryStorage, found: seq<WorkflowInfo>, n: nat, now: nat, ghost was: Journal)
      returns (changed: bool)
    requires store.Valid() && Described(store.Contents())
    requires n < |found| && Scanned(was, found) && RecoveredUpTo(was, store.Contents(), found, n)
    modifies store
    ensures store.Valid() && Described(store.Contents()) && RecoveredUpTo(was, store.Contents(), found, n + 1)
    ensures changed <==> KeyOf(found[n]) in was && NeedsRecovery(was[KeyOf(found[n])].instance)
  {
    hide Described, RecoveredInstance, NeedsRecovery, RecoveredUpTo, Scanned;
    ghost var before := store.Contents();
    NotReachedYet(was, before, found, n);
    changed := RecoverOne(store, KeyOf(found[n]), now);
    RecoveredOneMore(was, before, store.Contents(), found, n);
  }

  /** The runnable instances of the scan, each once, all of them there. */
  method FindRunnable(store: MemoryStorage) returns (found: seq<WorkflowInfo>)
    requires store.Valid() && Described(store.Contents())
    ensures found == Keep(Listing(store.infos, None, [NonterminalFilter]), true)
    ensures Complete(store.Contents(), found)
    ensures Scanned(store.Contents(), found)
  {
    var blocked;
    found, blocked := ListNonterminal(store.infos, None);
    ScanIsComplete(store.infos, found);
    ghost var journal := store.Contents();
    assert forall key :: key in journal ==> journal[key].info == store.infos[key];
    forall k | 0 <= k < |found| ensures KeyOf(found[k]) in journal && MayRun(journal[KeyOf(found[k])].instance.status) {
      KeepMembers(Listing(store.infos, None, [NonterminalFilter]), true);
      assert found[k] in found;
    }
  }

  /** The batch that recovers an instance, if it needs one. */
  method RecoveryBatch(i: WorkflowInstance) returns (events: seq<Event>, updated: WorkflowInstance)
    ensures |events| == (if NeedsRecovery(i) then 1 else 0)
    ensures updated == RecoveredInstance(i)
    requires MayRun(i.status)
  {
    var ids := SortIds(RunningIds(i.tasks));
    assert ids != [] <==> RunningIds(i.tasks) != {} by {
      if ids != [] { assert ids[0] in RunningIds(i.tasks); }
    }
    if !i.status.Running? && ids == [] { return [], i; }
    events := [StartupRecoveryApplied(ids)];
    RecoveryEventRecovers(i, ids);
    var committed := Commit(Some(i), Some(i), events);
    return events, committed.value;
  }

  lemma DescribedAfter(journal: Journal, namespace: Namespace, expected: nat, records: seq<EventRecord>,
      i: WorkflowInstance, now: nat)
    requires Described(journal) && Saved(journal, namespace, expected, records, i, now).Success?
    ensures Described(Saved(journal, namespace, expected, records, i, now).value)
  {
  }

  lemma RecoveryKeepsId(i: WorkflowInstance)
    ensures RecoveredInstance(i).id == i.id
  {
  }

  lemma NothingToRecover(i: WorkflowInstance)
    requires !NeedsRecovery(i)
    ensures RecoveredInstance(i) == i
  {
  }

  lemma DescribedId(journal: Journal, key: Key)
    requires Described(journal) && key in journal
    ensures journal[key].instance.id == key.1 && (key.0, key.1) == key
  {
  }

  /** One instance of the scan: read, decide, commit. */
  method RecoverOne(store: MemoryStorage, key: Key, now: nat) returns (changed: bool)
    requires store.Valid() && Described(store.Contents()) && key in store.Contents()
      && MayRun(store.Contents()[key].instance.status)
    modifies store
    ensures store.Valid() && Described(store.Contents()) && store.Contents().Keys == old(store.Contents()).Keys
    ensures changed == NeedsRecovery(old(store.Contents())[key].instance)
    ensures store.Contents()[key].instance == RecoveredInstance(old(store.Contents())[key].instance)
    ensures forall other :: other in old(store.Contents()) && other != key
              ==> store.Contents()[other] == old(store.Contents())[other]
  {
    hide Described, NeedsRecovery, RecoveredInstance, InfoAfter;
    ghost var was := store.Contents();
    DescribedId(was, key);
    var read := store.Get(key.0, key.1);
    var i := read.value;
    var events, updated := RecoveryBatch(i);
    changed := events != [];
    assert updated.id == i.id by { RecoveryKeepsId(i); }
    if changed {
      var records := [EventRecord(now, events[0])];
      var conflict := store.Save(key.0, i.version, records, updated, now);
      DescribedAfter(was, key.0, i.version, records, updated, now);
    } else {
      NothingToRecover(i);
    }
  }

  /** After a recovery a second one finds nothing to do. */
  lemma {:induction false} SecondRecoveryFindsNothing(before: Journal, after: Journal, runnable: seq<WorkflowInfo>)
    requires after.Keys == before.Keys
    requires forall key :: key in after ==> after[key].instance == RecoveredInstance(before[key].instance)
    ensures CountNeeding(after, runnable) == 0
  {
    if runnable != [] {
      if KeyOf(runnable[0]) in after { RecoveryLeavesNothingRunning(before[KeyOf(runnable[0])].instance); }
      SecondRecoveryFindsNothing(before, after, runnable[1..]);
    }
  }

  // ---------------------------------------------------------------------------
  // enqueue_active_workflow_instances

  function ItemOf(info: WorkflowInfo): WorkflowQueue.Item {
    WorkflowQueue.Item(info.namespace, info.id)
  }

  function ItemsOf(infos: seq<WorkflowInfo>): (items: seq<WorkflowQueue.Item>)
    ensures |items| == |infos| && forall k :: 0 <= k < |items| ==> items[k] == ItemOf(infos[k])
  {
    if infos == [] then [] else [ItemOf(infos[0])] + ItemsOf(infos[1..])
  }

  lemma DistinctItems(infos: map<Key, WorkflowInfo>, found: seq<WorkflowInfo>) returns (items: seq<WorkflowQueue.Item>)
    requires Keys(infos) && found == Keep(Listing(infos, None, [NonterminalFilter]), true)
    ensures items == ItemsOf(found) && |items| == |found|
    ensures forall k :: 0 <= k < |items| ==>
      items[k] == WorkflowQueue.Item(found[k].namespace, found[k].id) && items[k] !in items[..k]
  {
    items := ItemsOf(found);
    ScanIsComplete(infos, found);
    forall j, k | 0 <= j < k < |items| ensures items[j] != items[k] { assert KeyOf(found[j]) != KeyOf(found[k]); }
  }

  /**
   `enqueue_active_workflow_instances`, before any consumer runs: each enqueue waits while the queue is
   full, so the call returns exactly when every runnable instance fits; then each is queued once.
   */
  method EnqueueActive(store: MemoryStorage, queue: WorkflowQueue.MemoryWorkflowQueue)
      returns (returned: bool, ghost runnable: seq<WorkflowInfo>)
    requires store.Valid() && queue.Valid() && queue.pending == []
    modifies queue
    ensures queue.Valid()
    ensures runnable == Keep(Listing(store.infos, None, [NonterminalFilter]), true)
    ensures returned <==> |runnable| <= queue.capacity
    ensures returned ==> queue.pending == ItemsOf(runnable)
    ensures Distinct(queue.pending)
  {
    hide Listing, Keep, IsRunnable, Selected, ItemsOf, Distinct;
    var found, blocked := ListNonterminal(store.infos, None);
    ghost var items := DistinctItems(store.infos, found);
    runnable := found;
    var n := 0;
    while n < |found|
      invariant 0 <= n <= |found| && queue.Valid() && queue.pending == items[..n]
    {
      var admission := queue.TryEnqueue(WorkflowQueue.Item(found[n].namespace, found[n].id));
      if admission.Full? { return false, runnable; }
      assert items[..n + 1] == items[..n] + [items[n]];
      n := n + 1;
    }
    assert items[..n] == items;
    return true, runnable;
  }
}
