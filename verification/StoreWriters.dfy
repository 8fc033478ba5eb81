/**
 The writers of StateManager over a store. Each write reduces the snapshot its writer holds and calls
 `save_workflow_instance`; the store and the writers' log and snapshot stay in step, and every call the store
 accepts keeps the commit contract.
 */
module StoreWriters {
  import opened Prelude
  import opened Model
  import opened Reducer
  import opened StateManager
  import opened Storage

  /** Every instance created in these events has this id. */
  ghost predicate CreatesOnly(events: seq<Event>, id: string) {
    forall k :: 0 <= k < |events| && events[k].WorkflowCreated? ==> events[k].instance.id == id
  }

  /** The writers all work on the instance with this id. */
  ghost predicate OnInstance(actions: seq<Action>, id: string) {
    forall k :: 0 <= k < |actions| && actions[k].Write? ==> CreatesOnly(actions[k].events, id)
  }

  function Stamped(events: seq<Event>, time: nat): (records: seq<EventRecord>)
    ensures Events(records) == events
  {
    seq(|events|, k requires 0 <= k < |events| => EventRecord(time, events[k]))
  }

  /** The call of `save_workflow_instance` a write leads to; none if the batch is empty or the reducer refuses it. */
  function CallOf(db: Db, namespace: Namespace, action: Action, time: nat): Option<SaveCall> {
    if !action.Write? || action.events == [] then None
    else
      var base := HeldBy(db, action.writer);
      match ReduceEvents(base, action.events)
      case Failure(_) => None
      case Success(updated) =>
        var instance := updated.(version := VersionOf(base) + |action.events|);
        Some(SaveCall(namespace, VersionOf(base), Stamped(action.events, time), instance, time))
  }

  function AfterCall(journal: Journal, call: Option<SaveCall>): Journal {
    if call.None? then journal
    else match SavedBy(journal, call.value) case Success(j) => j case Failure(_) => journal
  }

  /** The store holds under the key what the writers' log and snapshot say. */
  ghost predicate Mirrors(journal: Journal, key: Key, db: Db) {
    && Base(journal, key) == db.snapshot && Events(RecordsAt(journal, key)) == db.log
    && (db.snapshot.Some? ==> db.snapshot.value.id == key.1)
    && forall w :: w in db.held && db.held[w].Some? ==> db.held[w].value.id == key.1
  }

  lemma ReducedId(base: Option<WorkflowInstance>, events: seq<Event>, id: string)
    requires CreatesOnly(events, id) && (base.Some? ==> base.value.id == id) && ReduceEvents(base, events).Success?
    ensures ReduceEvents(base, events).value.id == id
  {
    match base {
      case Some(i) => ChangedIdsFrame(i, events);
      case None => ChangedIdsFrame(events[0].instance, events[1..]);
    }
  }

  lemma EventsAppend(a: seq<EventRecord>, b: seq<EventRecord>)
    ensures Events(a + b) == Events(a) + Events(b)
  {
  }

  /** One action: the call is accepted exactly if the write lands, and then it keeps the contract. */
  lemma ActionMirrors(journal: Journal, key: Key, db: Db, action: Action, time: nat)
    requires Consistent(db) && Mirrors(journal, key, db) && (action.Write? ==> CreatesOnly(action.events, key.1))
    ensures var call := CallOf(db, key.0, action, time);
      && Mirrors(AfterCall(journal, call), key, Step(db, action))
      && (call.Some? ==> call.value.instance.id == key.1)
      && (call.Some? && SavedBy(journal, call.value).Success?
        ==> Reduced(journal, key, call.value.records, call.value.instance))
      && (action.Write? ==>
            (Commit(db.snapshot, HeldBy(db, action.writer), action.events).Success?
             <==> call.Some? && SavedBy(journal, call.value).Success?))
  {
    hide Consistent, ReduceEvents, InfoAfter, CreatesOnly, Stamped;
    var call := CallOf(db, key.0, action, time);
    if call.Some? {
      var base := HeldBy(db, action.writer);
      ReducedId(base, action.events, key.1);
      if VersionOf(base) == VersionOf(db.snapshot) {
        SameVersionSameSnapshot(db, action.writer);
        EventsAppend(RecordsAt(journal, key), call.value.records);
      }
    }
  }

  /** The journal after the calls of all actions, made in turn. */
  function JournalAfter(journal: Journal, db: Db, namespace: Namespace, actions: seq<Action>,
      clock: nat -> nat): Journal
    decreases |actions|
  {
    if actions == [] then journal
    else JournalAfter(AfterCall(journal, CallOf(db, namespace, actions[0], clock(|actions|))), Step(db, actions[0]),
      namespace,
                      actions[1..], clock)
  }

  /** Every call the store accepts along the way keeps the commit contract. */
  ghost predicate ContractKept(journal: Journal, db: Db, key: Key, actions: seq<Action>, clock: nat -> nat)
    decreases |actions|
  {
    actions == []
    || (var call := CallOf(db, key.0, actions[0], clock(|actions|));
        && (call.Some? && SavedBy(journal, call.value).Success? ==>
              call.value.instance.id == key.1 && Reduced(journal, key, call.value.records, call.value.instance))
        && ContractKept(AfterCall(journal, call), Step(db, actions[0]), key, actions[1..], clock))
  }

  lemma {:induction false} WritersMirror(journal: Journal, db: Db, key: Key, actions: seq<Action>, clock: nat -> nat)
    requires Consistent(db) && Mirrors(journal, key, db) && OnInstance(actions, key.1)
    ensures ContractKept(journal, db, key, actions, clock)
    ensures Mirrors(JournalAfter(journal, db, key.0, actions, clock), key, Steps(db, actions))
    decreases |actions|
  {
    hide Mirrors, Consistent, Reduced, CallOf, AfterCall;
    if actions != [] {
      ActionMirrors(journal, key, db, actions[0], clock(|actions|));
      StepKeepsConsistent(db, actions[0]);
      var next := AfterCall(journal, CallOf(db, key.0, actions[0], clock(|actions|)));
      WritersMirror(next, Step(db, actions[0]), key, actions[1..], clock);
    }
  }

  /**
   From an empty store and under every interleaving of writers, each save the store accepts keeps the commit
   contract, so `SqliteStorage.Save` may be called for each of them. In the end the store holds the replay of the
   events that were committed.
   */
  lemma EveryAcceptedSaveKeepsContract(key: Key, actions: seq<Action>, clock: nat -> nat)
    requires OnInstance(actions, key.1)
    ensures ContractKept(map[], Empty, key, actions, clock)
    ensures var journal := JournalAfter(map[], Empty, key.0, actions, clock);
      && Base(journal, key) == Steps(Empty, actions).snapshot
        && Events(RecordsAt(journal, key)) == Steps(Empty, actions).log
      && (key in journal ==>
            ReduceEvents(None, Events(journal[key].records)).Success?
            && journal[key].instance
                 == ReduceEvents(None, Events(journal[key].records)).value.(version := |journal[key].records|))
  {
    WritersMirror(map[], Empty, key, actions, clock);
    SnapshotIsReplayOfLog(actions);
  }
}
