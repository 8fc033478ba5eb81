/**
 Any number of writers over one stored instance. Each holds a snapshot it once read or committed; a
 commit reduces that snapshot and is stored only if it is still current.
 */
module StateManager {
  import opened Prelude
  import opened Model
  import opened Reducer

  type WriterId = nat

  /** The stored log and snapshot, and what each writer holds: nothing stands for "no such instance". */
  datatype Db = Db(log: seq<Event>, snapshot: Option<WorkflowInstance>, held: map<WriterId, Option<WorkflowInstance>>)

  datatype Action = Read(writer: WriterId) | Write(writer: WriterId, events: seq<Event>)

  datatype CommitError = EmptyCommit | Refused(reason: ReduceError) | Conflict(expected: nat, actual: nat)

  function VersionOf(i: Option<WorkflowInstance>): nat {
    match i
    case None => 0
    case Some(instance) => instance.version
  }

  /** `commit_events_for_current`: the updated snapshot, or why it is not stored. */
  function Commit(stored: Option<WorkflowInstance>, base: Option<WorkflowInstance>,
      events: seq<Event>): Result<WorkflowInstance, CommitError>
  {
    if events == [] then Failure(EmptyCommit)
    else
      match ReduceEvents(base, events)
      case Failure(reason) => Failure(Refused(reason))
      case Success(updated) =>
        if VersionOf(stored) != VersionOf(base) then Failure(Conflict(VersionOf(base), VersionOf(stored)))
        else Success(updated.(version := VersionOf(base) + |events|))
  }

  function HeldBy(db: Db, w: WriterId): Option<WorkflowInstance> {
    if w in db.held then db.held[w] else None
  }

  function Step(db: Db, action: Action): Db {
    match action
    case Read(w) => db.(held := db.held[w := db.snapshot])
    case Write(w, events) =>
      match Commit(db.snapshot, HeldBy(db, w), events)
      case Failure(_) => db
      case Success(updated) =>
        Db(db.log + events, Some(updated), db.held[w := Some(updated)])
  }

  function Steps(db: Db, actions: seq<Action>): Db
    decreases |actions|
  {
    if actions == [] then db else Steps(Step(db, actions[0]), actions[1..])
  }

  const Empty := Db([], None, map[])

  /** `i` is what the first events of the log amount to, as many as its version says. */
  ghost predicate Replays(log: seq<Event>, i: Option<WorkflowInstance>) {
    match i
    case None => true
    case Some(instance) =>
      && 1 <= instance.version <= |log|
      && ReduceEvents(None, log[..instance.version]).Success?
      && instance == ReduceEvents(None, log[..instance.version]).value.(version := instance.version)
  }

  ghost predicate Consistent(db: Db) {
    && VersionOf(db.snapshot) == |db.log|
    && Replays(db.log, db.snapshot)
    && forall w :: w in db.held ==> Replays(db.log, db.held[w])
  }

  lemma ReplaysLonger(log: seq<Event>, more: seq<Event>, i: Option<WorkflowInstance>)
    requires Replays(log, i)
    ensures Replays(log + more, i)
  {
    if i.Some? {
      assert (log + more)[..i.value.version] == log[..i.value.version];
    }
  }

  /** Two holders of the same version hold the same snapshot. */
  lemma SameVersionSameSnapshot(db: Db, w: WriterId)
    requires Consistent(db) && VersionOf(HeldBy(db, w)) == VersionOf(db.snapshot)
    ensures HeldBy(db, w) == db.snapshot
  {
    if db.snapshot.Some? { assert db.log[..|db.log|] == db.log; }
  }

  lemma CommitReplays(log: seq<Event>, base: Option<WorkflowInstance>, events: seq<Event>)
    requires VersionOf(base) == |log| && Replays(log, base) && (base.None? ==> log == [])
    requires events != [] && ReduceEvents(base, events).Success?
    ensures Replays(log + events, Some(ReduceEvents(base, events).value.(version := |log| + |events|)))
  {
    var updated := ReduceEvents(base, events).value;
    assert (log + events)[..|log| + |events|] == log + events;
    match base {
      case None => assert log + events == events;
      case Some(i) =>
        assert log[..|log|] == log;
        var replayed := ReduceEvents(None, log).value;
        ReduceIgnoresVersion(i, events, replayed.version);
        ReduceEventsAppend(None, log, events);
    }
  }

  /**
   One step of anyone: the log only grows, what is stored and what everyone holds stays a replay of a
   prefix of it, and a write is stored exactly when its batch is accepted and its base is current.
   */
  lemma StepKeepsConsistent(db: Db, action: Action)
    requires Consistent(db)
    ensures Consistent(Step(db, action)) && db.log <= Step(db, action).log
    ensures action.Write? ==>
      var base := HeldBy(db, action.writer);
      var lands := action.events != [] && ReduceEvents(base, action.events).Success? && VersionOf(base) == |db.log|;
      Step(db, action) == if lands then Step(db, action).(log := db.log + action.events) else db
  {
    if action.Write? && Commit(db.snapshot, HeldBy(db, action.writer), action.events).Success? {
      SameVersionSameSnapshot(db, action.writer);
      CommitReplays(db.log, db.snapshot, action.events);
      var next := Step(db, action);
      forall w | w in next.held ensures Replays(next.log, next.held[w]) {
        if w != action.writer { ReplaysLonger(db.log, action.events, db.held[w]); }
      }
    }
  }

  lemma {:induction false} StepsKeepConsistent(db: Db, actions: seq<Action>)
    requires Consistent(db)
    ensures Consistent(Steps(db, actions)) && db.log <= Steps(db, actions).log
    decreases |actions|
  {
    if actions != [] {
      StepKeepsConsistent(db, actions[0]);
      StepsKeepConsistent(Step(db, actions[0]), actions[1..]);
    }
  }

  lemma {:induction false} StepsAppend(db: Db, xs: seq<Action>, ys: seq<Action>)
    ensures Steps(db, xs + ys) == Steps(Steps(db, xs), ys)
    decreases |xs|
  {
    if xs == [] {
      assert xs + ys == ys;
    } else {
      assert (xs + ys)[1..] == xs[1..] + ys;
      StepsAppend(Step(db, xs[0]), xs[1..], ys);
    }
  }

  /** Under every interleaving the stored snapshot is the replay of the stored log and counts its events. */
  lemma SnapshotIsReplayOfLog(actions: seq<Action>)
    ensures var db := Steps(Empty, actions);
      && VersionOf(db.snapshot) == |db.log|
      && (db.snapshot.None? <==> db.log == [])
      && (db.snapshot.Some? ==>
            ReduceEvents(None, db.log).Success?
              && db.snapshot.value == ReduceEvents(None, db.log).value.(version := |db.log|))
  {
    StepsKeepConsistent(Empty, actions);
    var db := Steps(Empty, actions);
    assert db.log[..|db.log|] == db.log;
  }

  /** A commit that succeeded is never lost: its events stay where they were appended, for good. */
  lemma CommitsAreNeverLost(before: seq<Action>, w: WriterId, events: seq<Event>, after: seq<Action>)
    requires var db := Steps(Empty, before); Commit(db.snapshot, HeldBy(db, w), events).Success?
    ensures var db := Steps(Empty, before);
      var later := Steps(Empty, before + [Write(w, events)] + after);
      |db.log| + |events| <= |later.log| && later.log[|db.log|..|db.log| + |events|] == events && db.log <= later.log
  {
    var db := Steps(Empty, before);
    StepsKeepConsistent(Empty, before);
    StepsAppend(Empty, before, [Write(w, events)]);
    StepsAppend(Empty, before + [Write(w, events)], after);
    assert [Write(w, events)][1..] == [];
    var next := Step(db, Write(w, events));
    assert Steps(db, [Write(w, events)]) == Steps(next, []);
    StepKeepsConsistent(db, Write(w, events));
    StepsKeepConsistent(next, after);
    var later := Steps(next, after);
    assert later.log[..|next.log|] == next.log;
    assert later.log[|db.log|..|db.log| + |events|] == next.log[|db.log|..];
  }

  /** Of two writers that hold the same snapshot, only the first to write is stored. */
  lemma SecondWriterLoses(db: Db, first: WriterId, second: WriterId, xs: seq<Event>, ys: seq<Event>)
    requires Consistent(db) && first != second
    requires VersionOf(HeldBy(db, first)) == VersionOf(HeldBy(db, second))
    requires Commit(db.snapshot, HeldBy(db, first), xs).Success?
    ensures var next := Step(db, Write(first, xs)); Step(next, Write(second, ys)) == next
  {
    StepKeepsConsistent(db, Write(first, xs));
  }
}
