/**
 The two versioned stores. MemoryStorage keeps whole snapshots; SqliteStorage keeps rows and writes only
 the task rows a batch changed. A Journal is what both mean: per key, a snapshot and its event records.
 */
module Storage {
  import opened Prelude
  import opened JsonValues
  import opened AttemptIds
  import opened Model
  import opened Reducer
  import opened StateManager

  type Namespace = string
  type Key = (Namespace, string)

  datatype EventRecord = EventRecord(createdTime: nat, event: Event)

  datatype VersionConflict = VersionConflict(instanceId: string, expected: nat, actual: nat)

  /** `WorkflowInfo`, with the timestamps the store keeps. */
  datatype WorkflowInfo = WorkflowInfo(
    namespace: Namespace, id: string, workflowDefId: string, status: WorkflowStatus,
    createdAt: nat, modifiedAt: nat, completedAt: Option<nat>, totalTasks: nat, completedTasks: nat)

  datatype Entry = Entry(instance: WorkflowInstance, records: seq<EventRecord>, info: WorkflowInfo)

  type Journal = map<Key, Entry>

  function Events(records: seq<EventRecord>): (events: seq<Event>)
    ensures |events| == |records|
  {
    seq(|records|, k requires 0 <= k < |records| => records[k].event)
  }

  function CompletedIds(tasks: map<AttemptId, TaskInstance>): set<AttemptId> {
    set id | id in tasks && tasks[id].status.Completed?
  }

  function VersionAt(journal: Journal, key: Key): nat {
    if key in journal then journal[key].instance.version else 0
  }

  function RecordsAt(journal: Journal, key: Key): seq<EventRecord> {
    if key in journal then journal[key].records else []
  }

  function FirstTime(records: seq<EventRecord>, now: nat): nat {
    if records == [] then now else records[0].createdTime
  }

  function LastTime(records: seq<EventRecord>, now: nat): nat {
    if records == [] then now else records[|records| - 1].createdTime
  }

  function CompletionTime(i: WorkflowInstance, time: nat): Option<nat> {
    if i.status.Completed? || i.status.Failed? then Some(time) else None
  }

  /** Created once, completed once, modified by every commit. */
  function InfoAfter(before: Option<WorkflowInfo>, namespace: Namespace, records: seq<EventRecord>,
      i: WorkflowInstance, now: nat): WorkflowInfo
  {
    var completed := if before.Some? && before.value.completedAt.Some? then before.value.completedAt
                     else CompletionTime(i, LastTime(records, now));
    WorkflowInfo(namespace, i.id, i.workflowDefId, i.status,
                 if before.Some? then before.value.createdAt else FirstTime(records, now),
                 LastTime(records, now), completed, |i.tasks|, |CompletedIds(i.tasks)|)
  }

  function InfoAt(journal: Journal, key: Key): Option<WorkflowInfo> {
    if key in journal then Some(journal[key].info) else None
  }

  /** What `save_workflow_instance` means to a reader of either store. */
  function Saved(journal: Journal, namespace: Namespace, expected: nat, records: seq<EventRecord>,
      i: WorkflowInstance, now: nat) : Result<Journal, VersionConflict>
  {
    var key := (namespace, i.id);
    if VersionAt(journal, key) != expected then Failure(VersionConflict(i.id, expected, VersionAt(journal, key)))
    else
      Success(journal[key := Entry(i, RecordsAt(journal, key)
        + records, InfoAfter(InfoAt(journal, key), namespace, records, i, now))])
  }

  /**
   When a save is accepted, and what it leaves: the version it expects must be the stored one, or none. Then snapshot
   and summary are replaced, the events appended, and every other instance stays as it was.
   */
  lemma SavedExactlyWhen(journal: Journal, namespace: Namespace, expected: nat, records: seq<EventRecord>,
      i: WorkflowInstance, now: nat)
    ensures var key, saved := (namespace, i.id), Saved(journal, namespace, expected, records, i, now);
      var stored := if key in journal then journal[key].instance.version else 0;
      if stored != expected then saved == Failure(VersionConflict(i.id, expected, stored))
      else
        && saved.Success? && saved.value.Keys == journal.Keys + {key}
        && (forall other :: other in journal && other != key ==> saved.value[other] == journal[other])
        && saved.value[key].instance == i
        && saved.value[key].records == (if key in journal then journal[key].records else []) + records
        && var info := saved.value[key].info;
           && info.namespace == namespace && info.id == i.id && info.workflowDefId == i.workflowDefId
           && info.status == i.status && info.totalTasks == |i.tasks|
           && info.completedTasks == |set id | id in i.tasks && i.tasks[id].status.Completed?|
  {
    assert CompletedIds(i.tasks) == set id | id in i.tasks && i.tasks[id].status.Completed?;
  }

  // ---------------------------------------------------------------------------
  // The times of a summary, over any commits

  /** A call of `save_workflow_instance`. */
  datatype SaveCall = SaveCall(namespace: Namespace, expected: nat, records: seq<EventRecord>,
    instance: WorkflowInstance, now: nat)

  function KeyOfCall(call: SaveCall): Key {
    (call.namespace, call.instance.id)
  }

  function SavedBy(journal: Journal, call: SaveCall): Result<Journal, VersionConflict> {
    Saved(journal, call.namespace, call.expected, call.records, call.instance, call.now)
  }

  /** The journal after a list of calls; a refused call changes nothing. */
  function AfterCalls(journal: Journal, calls: seq<SaveCall>): Journal
    decreases |calls|
  {
    if calls == [] then journal
    else AfterCalls(match SavedBy(journal, calls[0]) case Success(j) => j case Failure(_) => journal, calls[1..])
  }

  lemma {:induction false} TimesStand(journal: Journal, calls: seq<SaveCall>, key: Key)
    requires key in journal
    ensures var last := AfterCalls(journal, calls);
      && key in last && last[key].info.createdAt == journal[key].info.createdAt
      && (journal[key].info.completedAt.Some? ==> last[key].info.completedAt == journal[key].info.completedAt)
    decreases |calls|
  {
    if calls != [] {
      var next := match SavedBy(journal, calls[0]) case Success(j) => j case Failure(_) => journal;
      TimesStand(next, calls[1..], key);
    }
  }

  /**
   The times of a summary. A commit sets the modification time to that of its last event and, if it is the first,
   the creation time to that of its first; it sets a completion time exactly if there is none yet and its snapshot
   has ended. No later commit changes the creation time or a completion time that is set: a workflow that failed,
   was retried and completed keeps the time of its first failure.
   */
  lemma SummaryTimes(journal: Journal, call: SaveCall, later: seq<SaveCall>)
    requires SavedBy(journal, call).Success? && call.records != []
    ensures var key, after := KeyOfCall(call), SavedBy(journal, call).value;
      var last := AfterCalls(after, later);
      var ended := call.instance.status.Completed? || call.instance.status.Failed?;
      var records := call.records;
      && key in after && key in last
      && after[key].info.modifiedAt == records[|records| - 1].createdTime
      && (key !in journal ==> after[key].info.createdAt == records[0].createdTime)
      && (key in journal ==> after[key].info.createdAt == journal[key].info.createdAt)
      && (after[key].info.completedAt.Some? <==> ended || (key in journal && journal[key].info.completedAt.Some?))
      && (key in journal && journal[key].info.completedAt.Some?
        ==> after[key].info.completedAt == journal[key].info.completedAt)
      && (ended && !(key in journal && journal[key].info.completedAt.Some?) ==>
            after[key].info.completedAt == Some(records[|records| - 1].createdTime))
      && last[key].info.createdAt == after[key].info.createdAt
      && (after[key].info.completedAt.Some? ==> last[key].info.completedAt == after[key].info.completedAt)
  {
    TimesStand(SavedBy(journal, call).value, later, KeyOfCall(call));
  }

  // ---------------------------------------------------------------------------
  // Memory

  ghost function Joined(instances: map<Key, WorkflowInstance>, records: map<Key, seq<EventRecord>>,
      infos: map<Key, WorkflowInfo>): Journal
    requires instances.Keys == records.Keys == infos.Keys
  {
    map key | key in instances :: Entry(instances[key], records[key], infos[key])
  }

  lemma JoinedUpdate(instances: map<Key, WorkflowInstance>, records: map<Key, seq<EventRecord>>,
      infos: map<Key, WorkflowInfo>, key: Key, e: Entry)
    requires instances.Keys == records.Keys == infos.Keys
    ensures Joined(instances[key := e.instance], records[key := e.records], infos[key := e.info])
      == Joined(instances, records, infos)[key := e]
  {
  }

  lemma JoinedAt(instances: map<Key, WorkflowInstance>, records: map<Key, seq<EventRecord>>,
      infos: map<Key, WorkflowInfo>, key: Key)
    requires instances.Keys == records.Keys == infos.Keys
    ensures key in Joined(instances, records, infos) <==> key in instances
    ensures key in instances
      ==> Joined(instances, records, infos)[key] == Entry(instances[key], records[key], infos[key])
  {
  }

  class MemoryStorage {
    var instances: map<Key, WorkflowInstance>
    var records: map<Key, seq<EventRecord>>
    var infos: map<Key, WorkflowInfo>

    ghost predicate Valid()
      reads this
    {
      instances.Keys == records.Keys == infos.Keys
      && forall key :: key in infos ==> key == (infos[key].namespace, infos[key].id)
    }

    ghost function Contents(): Journal
      reads this
      requires Valid()
    {
      Joined(instances, records, infos)
    }

    constructor ()
      ensures Valid() && Contents() == map[]
    {
      instances, records, infos := map[], map[], map[];
    }

    method Get(namespace: Namespace, id: string) returns (i: Option<WorkflowInstance>)
      requires Valid()
      ensures i == if (namespace, id) in Contents() then Some(Contents()[(namespace, id)].instance) else None
    {
      i := if (namespace, id) in instances then Some(instances[(namespace, id)]) else None;
    }

    /** `save_workflow_instance`: three maps updated at one key, or nothing. */
    method Save(namespace: Namespace, expected: nat, events: seq<EventRecord>, i: WorkflowInstance, now: nat)
      returns (conflict: Option<VersionConflict>)
      requires Valid()
      modifies this
      ensures Valid()
      ensures match Saved(old(Contents()), namespace, expected, events, i, now)
        case Failure(c) => conflict == Some(c) && Contents() == old(Contents())
        case Success(journal) => conflict == None && Contents() == journal
    {
      hide InfoAfter, Joined;
      var key := (namespace, i.id);
      JoinedAt(instances, records, infos, key);
      var actual := if key in instances then instances[key].version else 0;
      if actual != expected { return Some(VersionConflict(i.id, expected, actual)); }
      var info := Summarise(if key in infos then Some(infos[key]) else None, namespace, events, i, now);
      var all := (if key in records then records[key] else []) + events;
      JoinedUpdate(instances, records, infos, key, Entry(i, all, info));
      infos := infos[key := info];
      records := records[key := all];
      instances := instances[key := i];
      return None;
    }

    /** The summary of a commit, with the timestamps worked out from the one it replaces. */
    method Summarise(existing: Option<WorkflowInfo>, namespace: Namespace, events: seq<EventRecord>,
        i: WorkflowInstance, now: nat) returns (info: WorkflowInfo)
      ensures info == InfoAfter(existing, namespace, events, i, now) && info.namespace == namespace && info.id == i.id
    {
      var created := if events == [] then now else events[0].createdTime;
      var modified := if events == [] then created else events[|events| - 1].createdTime;
      var createdAt := if existing.Some? then existing.value.createdAt else created;
      var completedAt := if existing.Some? && existing.value.completedAt.Some? then existing.value.completedAt
                         else CompletionTime(i, modified);
      return WorkflowInfo(namespace, i.id, i.workflowDefId, i.status, createdAt, modified, completedAt, |i.tasks|,
        |CompletedIds(i.tasks)|);
    }
  }

  // ---------------------------------------------------------------------------
  // What writers promise

  function Base(journal: Journal, key: Key): Option<WorkflowInstance> {
    if key in journal then Some(journal[key].instance) else None
  }

  /** The commit contract: the snapshot is the reduced base, its version counts the batch. */
  ghost predicate Reduced(journal: Journal, key: Key, records: seq<EventRecord>, i: WorkflowInstance) {
    && i.id == key.1 && records != []
    && ReduceEvents(Base(journal, key), Events(records)).Success?
    && i == ReduceEvents(Base(journal, key), Events(records)).value.(version := VersionAt(journal, key) + |records|)
  }

  /** Every version counts the events stored, and every summary describes its snapshot. */
  ghost predicate Counted(journal: Journal) {
    forall key :: key in journal ==>
      var e := journal[key];
      && e.instance.id == key.1 && e.instance.version == |e.records| >= 1
      && e.info.namespace == key.0 && e.info.id == key.1
      && e.info.workflowDefId == e.instance.workflowDefId && e.info.status == e.instance.status
      && e.info.totalTasks == |e.instance.tasks| && e.info.completedTasks == |CompletedIds(e.instance.tasks)|
  }

  // ---------------------------------------------------------------------------
  // SQLite

  datatype InstanceRow = InstanceRow(
    workflowDefId: string, version: nat, status: WorkflowStatus, triggerInput: Option<Json>,
      pinnedWorkerHost: Option<HostId>,
    createdAt: nat, modifiedAt: nat, completedAt: Option<nat>)

  function RowOf(i: WorkflowInstance, info: WorkflowInfo): InstanceRow {
    InstanceRow(i.workflowDefId, i.version, i.status, i.triggerInput, i.pinnedWorkerHost, info.createdAt,
      info.modifiedAt, info.completedAt)
  }

  /** The rows of one table that belong to one instance are exactly `part`. */
  ghost predicate RowsOf<K(!new), V>(rows: map<(Key, K), V>, key: Key, part: map<K, V>) {
    && (forall k :: (key, k) in rows <==> k in part)
    && (forall k :: k in part ==> (key, k) in rows && rows[(key, k)] == part[k])
  }

  /** The event rows of one instance are its records, numbered from one without gaps. */
  ghost predicate Numbered(rows: map<(Key, nat), EventRecord>, key: Key, records: seq<EventRecord>) {
    && (forall n :: (key, n) in rows <==> 1 <= n <= |records|)
    && (forall n :: 1 <= n <= |records| ==> (key, n) in rows && rows[(key, n)] == records[n - 1])
  }

  ghost predicate Elsewhere<K(!new), V>(before: map<(Key, K), V>, after: map<(Key, K), V>, key: Key) {
    forall other, k :: other != key ==>
      ((other, k) in after <==> (other, k) in before)
        && ((other, k) in before ==> (other, k) in after && after[(other, k)] == before[(other, k)])
  }

  lemma ElsewhereKeepsRows<K(!new), V>(before: map<(Key, K), V>, after: map<(Key, K), V>, key: Key, other: Key,
      part: map<K, V>)
    requires Elsewhere(before, after, key) && other != key && RowsOf(before, other, part)
    ensures RowsOf(after, other, part)
  {
  }

  datatype Tables = Tables(
    instances: map<Key, InstanceRow>, tasks: map<(Key, AttemptId), TaskInstance>,
    states: map<(Key, TaskId), VerifierState>, events: map<(Key, nat), EventRecord>)

  /** The rows hold one entry: its snapshot row, its task rows, its verifier rows and its events. */
  ghost predicate HoldsEntry(t: Tables, key: Key, e: Entry) {
    && key in t.instances && t.instances[key] == RowOf(e.instance, e.info)
    && RowsOf(t.tasks, key, e.instance.tasks) && RowsOf(t.states, key, e.instance.verifierStates)
    && Numbered(t.events, key, e.records)
  }

  ghost predicate HoldsNothing(t: Tables, key: Key) {
    key !in t.instances && RowsOf(t.tasks, key, map[]) && RowsOf(t.states, key, map[]) && Numbered(t.events, key, [])
  }

  /** The rows hold the journal and nothing else. */
  ghost predicate Holds(t: Tables, journal: Journal) {
    forall key :: if key in journal then HoldsEntry(t, key, journal[key]) else HoldsNothing(t, key)
  }

  lemma HoldsAfter(t: Tables, u: Tables, journal: Journal, key: Key, e: Entry)
    requires Holds(t, journal) && HoldsEntry(u, key, e)
    requires forall other :: other != key ==>
      (other in u.instances <==> other in t.instances)
        && (other in t.instances ==> u.instances[other] == t.instances[other])
    requires Elsewhere(t.tasks, u.tasks, key) && Elsewhere(t.states, u.states, key)
      && Elsewhere(t.events, u.events, key)
    ensures Holds(u, journal[key := e])
  {
    forall other | other != key
      ensures if other in journal then HoldsEntry(u, other, journal[other]) else HoldsNothing(u, other)
    {
      HoldsElsewhere(t, u, journal, key, other);
    }
  }

  lemma RowsOfKey(t: Tables, journal: Journal, key: Key)
    requires Holds(t, journal)
    ensures if key in journal then HoldsEntry(t, key, journal[key]) else HoldsNothing(t, key)
  {
  }

  lemma RowVersion(t: Tables, journal: Journal, key: Key)
    requires if key in journal then HoldsEntry(t, key, journal[key]) else HoldsNothing(t, key)
    ensures (if key in t.instances then t.instances[key].version else 0) == VersionAt(journal, key)
    ensures key in t.instances <==> key in journal
  {
  }

  lemma RowTimes(t: Tables, journal: Journal, key: Key)
    requires if key in journal then HoldsEntry(t, key, journal[key]) else HoldsNothing(t, key)
    ensures key in t.instances <==> InfoAt(journal, key).Some?
    ensures key in t.instances ==>
      && t.instances[key].createdAt == InfoAt(journal, key).value.createdAt
      && t.instances[key].completedAt == InfoAt(journal, key).value.completedAt
  {
  }

  lemma HoldsElsewhere(t: Tables, u: Tables, journal: Journal, key: Key, other: Key)
    requires Holds(t, journal) && other != key
    requires (other in u.instances <==> other in t.instances)
      && (other in t.instances ==> u.instances[other] == t.instances[other])
    requires Elsewhere(t.tasks, u.tasks, key) && Elsewhere(t.states, u.states, key)
      && Elsewhere(t.events, u.events, key)
    ensures if other in journal then HoldsEntry(u, other, journal[other]) else HoldsNothing(u, other)
  {
    if other in journal {
      assert HoldsEntry(t, other, journal[other]);
      ElsewhereKeepsRows(t.tasks, u.tasks, key, other, journal[other].instance.tasks);
      ElsewhereKeepsRows(t.states, u.states, key, other, journal[other].instance.verifierStates);
    } else {
      assert HoldsNothing(t, other);
      ElsewhereKeepsRows(t.tasks, u.tasks, key, other, map[]);
      ElsewhereKeepsRows(t.states, u.states, key, other, map[]);
    }
  }

  lemma CountedAfter(journal: Journal, namespace: Namespace, expected: nat, records: seq<EventRecord>,
      i: WorkflowInstance, now: nat)
    requires Counted(journal) && Saved(journal, namespace, expected, records, i, now).Success?
    requires Reduced(journal, (namespace, i.id), records, i)
    ensures Counted(Saved(journal, namespace, expected, records, i, now).value)
  {
  }

  class SqliteStorage {
    var instances: map<Key, InstanceRow>
    var tasks: map<(Key, AttemptId), TaskInstance>
    var states: map<(Key, TaskId), VerifierState>
    var events: map<(Key, nat), EventRecord>
    ghost var journal: Journal

    ghost function Rows(): Tables
      reads this
    {
      Tables(instances, tasks, states, events)
    }

    ghost predicate Valid()
      reads this
    {
      Counted(journal) && Holds(Rows(), journal)
    }

    constructor ()
      ensures Valid() && journal == map[]
    {
      instances, tasks, states, events, journal := map[], map[], map[], map[], map[];
    }

    /** `insert_events`: numbers continue after the expected version; a number already taken is an error. */
    method InsertEvents(key: Key, expected: nat, records: seq<EventRecord>, ghost before: seq<EventRecord>)
        returns (ok: bool)
      requires Numbered(events, key, before) && |before| == expected
      modifies `events
      ensures ok && Numbered(events, key, before + records) && Elsewhere(old(events), events, key)
    {
      var k := 0;
      while k < |records|
        invariant 0 <= k <= |records|
        invariant Numbered(events, key, before + records[..k]) && Elsewhere(old(events), events, key)
      {
        if (key, expected + k + 1) in events { return false; }
        events := events[(key, expected + k + 1) := records[k]];
        k := k + 1;
      }
      assert records[..k] == records;
      return true;
    }

    /** `persist_task_changes`: only the attempts the batch names are written, all of them for a new instance. */
    method PersistTaskChanges(key: Key, i: WorkflowInstance, records: seq<EventRecord>, isNew: bool,
        ghost before: map<AttemptId, TaskInstance>) returns (missing: Option<AttemptId>)
      requires RowsOf(tasks, key, before)
      requires isNew ==> before == map[]
      requires !isNew ==>
        && before.Keys <= i.tasks.Keys && ChangedIds(Events(records)) <= i.tasks.Keys
        && i.tasks.Keys <= before.Keys + ChangedIds(Events(records))
        && forall id :: id in before && id !in ChangedIds(Events(records)) ==> i.tasks[id] == before[id]
      modifies `tasks
      ensures missing.None? && RowsOf(tasks, key, i.tasks) && Elsewhere(old(tasks), tasks, key)
    {
      var ids: set<AttemptId>;
      if isNew { ids := i.tasks.Keys; } else { ids := ChangedTaskAttemptIds(Events(records)); }
      var todo := ids;
      while todo != {}
        invariant todo <= ids <= i.tasks.Keys && Elsewhere(old(tasks), tasks, key)
        invariant forall id :: (key, id) in tasks <==> id in before || (id in ids && id !in todo)
        invariant forall id :: id in ids && id !in todo ==> (key, id) in tasks && tasks[(key, id)] == i.tasks[id]
        invariant forall id :: id in before && !(id in ids && id !in todo)
                    ==> (key, id) in tasks && tasks[(key, id)] == before[id]
        decreases todo
      {
        var id :| id in todo;
        if id !in i.tasks { return Some(id); }
        tasks := tasks[(key, id) := i.tasks[id]];
        todo := todo - {id};
      }
      return None;
    }

    /** `replace_verifier_states`: the rows of the instance are deleted, then written again. */
    method ReplaceVerifierStates(key: Key, i: WorkflowInstance)
      modifies `states
      ensures RowsOf(states, key, i.verifierStates) && Elsewhere(old(states), states, key)
    {
      states := map k | k in states && k.0 != key :: states[k];
      var todo := i.verifierStates.Keys;
      while todo != {}
        invariant todo <= i.verifierStates.Keys && Elsewhere(old(states), states, key)
        invariant forall v :: (key, v) in states <==> v in i.verifierStates && v !in todo
        invariant forall v :: v in i.verifierStates && v !in todo
                    ==> (key, v) in states && states[(key, v)] == i.verifierStates[v]
        decreases todo
      {
        var v :| v in todo;
        states := states[(key, v) := i.verifierStates[v]];
        todo := todo - {v};
      }
    }

    /** `upsert_workflow_instance`, with the timestamps worked out from the row it replaces. */
    method UpsertInstance(key: Key, records: seq<EventRecord>, i: WorkflowInstance, now: nat,
        ghost before: Option<WorkflowInfo>)
      requires key.1 == i.id && (before.Some? <==> key in instances)
      requires before.Some? ==>
        && instances[key].createdAt == before.value.createdAt
        && instances[key].completedAt == before.value.completedAt
      modifies `instances
      ensures instances == old(instances)[key := RowOf(i, InfoAfter(before, key.0, records, i, now))]
    {
      var existing := key in instances;
      var created := if records == [] then now else records[0].createdTime;
      var modified := if records == [] then created else records[|records| - 1].createdTime;
      var createdAt := if existing then instances[key].createdAt else created;
      var completedAt := if existing && instances[key].completedAt.Some? then instances[key].completedAt
        else CompletionTime(i, modified);
      instances := instances[key :=
        InstanceRow(i.workflowDefId, i.version, i.status, i.triggerInput, i.pinnedWorkerHost,
                                                createdAt, modified, completedAt)];
    }

    /**
     `save_workflow_instance` in one transaction. For writers that keep the contract it never runs into a
     taken event number or an attempt missing from the snapshot, and it means what MemoryStorage does.
     */
    method Save(namespace: Namespace, expected: nat, records: seq<EventRecord>, i: WorkflowInstance, now: nat)
      returns (conflict: Option<VersionConflict>)
      requires Valid()
      requires VersionAt(journal, (namespace, i.id)) == expected ==> Reduced(journal, (namespace, i.id), records, i)
      modifies this
      ensures Valid()
      ensures match Saved(old(journal), namespace, expected, records, i, now)
        case Failure(c) => conflict == Some(c) && journal == old(journal) && Rows() == old(Rows())
        case Success(saved) => conflict == None && journal == saved
    {
      hide Holds, RowsOf, Numbered, Elsewhere, Counted, Reduced, RowOf, InfoAfter;
      var key := (namespace, i.id);
      RowsOfKey(Rows(), journal, key);
      var actual := if key in instances then instances[key].version else 0;
      assert actual == VersionAt(journal, key) by { RowVersion(Rows(), journal, key); }
      if actual != expected { return Some(VersionConflict(i.id, expected, actual)); }
      ghost var was, rows := journal, Rows();
      ghost var info := InfoAfter(InfoAt(was, key), namespace, records, i, now);
      RowTimes(rows, was, key);
      var isNew := key !in instances;
      UpsertInstance(key, records, i, now, InfoAt(was, key));
      WriteParts(key, expected, records, i, isNew);
      journal := Saved(was, namespace, expected, records, i, now).value;
      HoldsAfter(rows, Rows(), was, key, journal[key]);
      CountedAfter(was, namespace, expected, records, i, now);
      return None;
    }

    /** The task rows of one instance, collected in any order. */
    method ReadTasks(key: Key, ghost part: map<AttemptId, TaskInstance>) returns (found: map<AttemptId, TaskInstance>)
      requires RowsOf(tasks, key, part)
      ensures found == part
    {
      found := map[];
      var todo := tasks.Keys;
      while todo != {}
        invariant todo <= tasks.Keys
        invariant forall id :: id in found <==> (key, id) in tasks && (key, id) !in todo
        invariant forall id :: id in found ==> (key, id) in tasks && found[id] == tasks[(key, id)]
        decreases todo
      {
        var k :| k in todo;
        todo := todo - {k};
        if k.0 == key { found := found[k.1 := tasks[k]]; }
      }
    }

    method ReadStates(key: Key, ghost part: map<TaskId, VerifierState>) returns (found: map<TaskId, VerifierState>)
      requires RowsOf(states, key, part)
      ensures found == part
    {
      found := map[];
      var todo := states.Keys;
      while todo != {}
        invariant todo <= states.Keys
        invariant forall v :: v in found <==> (key, v) in states && (key, v) !in todo
        invariant forall v :: v in found ==> (key, v) in states && found[v] == states[(key, v)]
        decreases todo
      {
        var k :| k in todo;
        todo := todo - {k};
        if k.0 == key { found := found[k.1 := states[k]]; }
      }
    }

    /** `get_workflow_instance`: the rows read back as the snapshot that was saved. */
    method Get(namespace: Namespace, id: string) returns (i: Option<WorkflowInstance>)
      requires Valid()
      ensures i == Base(journal, (namespace, id))
    {
      var key := (namespace, id);
      RowsOfKey(Rows(), journal, key);
      if key !in instances { return None; }
      var row := instances[key];
      var found := ReadTasks(key, journal[key].instance.tasks);
      var loopStates := ReadStates(key, journal[key].instance.verifierStates);
      return Some(WorkflowInstance(id, row.workflowDefId, row.version, row.status, row.triggerInput,
        row.pinnedWorkerHost, found, loopStates));
    }

    /** The three child tables, written in the order of the transaction. */
    method WriteParts(key: Key, expected: nat, records: seq<EventRecord>, i: WorkflowInstance, isNew: bool)
      requires Counted(journal) && isNew == (key !in journal) && VersionAt(journal, key) == expected
        && Reduced(journal, key, records, i)
      requires RowsOf(tasks, key, if isNew then map[] else journal[key].instance.tasks)
      requires Numbered(events, key, if isNew then [] else journal[key].records)
      modifies `events, `tasks, `states
      ensures RowsOf(tasks, key, i.tasks) && RowsOf(states, key, i.verifierStates)
      ensures Numbered(events, key, (if isNew then [] else journal[key].records) + records)
      ensures Elsewhere(old(tasks), tasks, key) && Elsewhere(old(states), states, key)
        && Elsewhere(old(events), events, key)
    {
      TaskChangesAreNamed(journal, key, records, i);
      var inserted := InsertEvents(key, expected, records, if isNew then [] else journal[key].records);
      var missing := PersistTaskChanges(key, i, records, isNew, if isNew then map[] else journal[key].instance.tasks);
      ReplaceVerifierStates(key, i);
    }
  }

  /** What the state manager commits on a current base keeps the contract. */
  lemma CommitKeepsContract(journal: Journal, namespace: Namespace, base: Option<WorkflowInstance>,
      records: seq<EventRecord>, updated: WorkflowInstance)
    requires Commit(Base(journal, (namespace, updated.id)), base, Events(records)) == Success(updated)
    requires base == Base(journal, (namespace, updated.id))
    ensures Reduced(journal, (namespace, updated.id), records, updated)
  {
  }

  /** The attempts a contract-keeping batch touches are the ones it names; it drops none. */
  lemma TaskChangesAreNamed(journal: Journal, key: Key, records: seq<EventRecord>, i: WorkflowInstance)
    requires Reduced(journal, key, records, i)
    ensures key in journal ==>
      var before := journal[key].instance.tasks;
      && before.Keys <= i.tasks.Keys && ChangedIds(Events(records)) <= i.tasks.Keys
      && i.tasks.Keys <= before.Keys + ChangedIds(Events(records))
      && forall id :: id in before && id !in ChangedIds(Events(records)) ==> i.tasks[id] == before[id]
  {
    if key in journal { ChangedIdsFrame(journal[key].instance, Events(records)); }
  }
}
