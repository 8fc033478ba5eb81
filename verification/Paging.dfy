/**
 Cursor paging over workflow summaries and event logs: following the cursors of an unchanging store lists
 everything once and in order, in both stores.
 */
module Paging {
  import opened Prelude
  import opened Model
  import opened Storage

  datatype Cursor = Cursor(modifiedAt: nat, id: string, namespace: Namespace)

  datatype Page<+T, +C> = Page(items: seq<T>, next: Option<C>)

  datatype Filter = Statuses(statuses: seq<WorkflowStatus>) | WorkflowDefId(workflowDefId: string)

  function CursorOf(info: WorkflowInfo): Cursor {
    Cursor(info.modifiedAt, info.id, info.namespace)
  }

  // ---------------------------------------------------------------------------
  // The sort order

  /** Latest first; among equals by id, then by namespace, both downwards. */
  predicate Ahead(a: Cursor, b: Cursor) {
    b.modifiedAt < a.modifiedAt
    || (b.modifiedAt == a.modifiedAt && (Less(b.id, a.id) || (b.id == a.id && Less(b.namespace, a.namespace))))
  }

  lemma AheadTotal(a: Cursor, b: Cursor)
    ensures Ahead(a, b) || a == b || Ahead(b, a)
    ensures !(Ahead(a, b) && Ahead(b, a)) && !Ahead(a, a)
  {
    LessTrichotomy(a.id, b.id);
    LessTrichotomy(a.namespace, b.namespace);
  }

  lemma AheadTransitive(a: Cursor, b: Cursor, c: Cursor)
    requires Ahead(a, b) && Ahead(b, c)
    ensures Ahead(a, c)
  {
    if Less(b.id, a.id) && Less(c.id, b.id) { LessTransitive(c.id, b.id, a.id); }
    if Less(b.namespace, a.namespace) && Less(c.namespace, b.namespace) {
      LessTransitive(c.namespace, b.namespace, a.namespace);
    }
  }

  /** No two summaries of one instance. */
  ghost predicate Keyed(s: set<WorkflowInfo>) {
    forall x, y :: x in s && y in s && x.id == y.id && x.namespace == y.namespace ==> x == y
  }

  ghost predicate IsNewest(m: WorkflowInfo, s: set<WorkflowInfo>) {
    m in s && forall x :: x in s && x != m ==> Ahead(CursorOf(m), CursorOf(x))
  }

  lemma {:induction false} NewestExists(s: set<WorkflowInfo>)
    requires s != {} && Keyed(s)
    ensures exists m :: IsNewest(m, s)
  {
    var x :| x in s;
    var rest := s - {x};
    if rest == {} {
      assert s == {x};
      assert IsNewest(x, s);
    } else {
      NewestExists(rest);
      var m :| IsNewest(m, rest);
      AheadTotal(CursorOf(x), CursorOf(m));
      if Ahead(CursorOf(x), CursorOf(m)) {
        forall y | y in s && y != x ensures Ahead(CursorOf(x), CursorOf(y)) {
          if y != m { AheadTransitive(CursorOf(x), CursorOf(m), CursorOf(y)); }
        }
        assert IsNewest(x, s);
      } else {
        assert CursorOf(x) != CursorOf(m);
        assert forall y :: y in s ==> y == x || y in rest;
        assert IsNewest(m, s);
      }
    }
  }

  ghost predicate Sorted(l: seq<WorkflowInfo>) {
    forall i, j :: 0 <= i < j < |l| ==> Ahead(CursorOf(l[i]), CursorOf(l[j]))
  }

  /** `sort_by` on the collected summaries. */
  ghost function SortInfos(s: set<WorkflowInfo>): (l: seq<WorkflowInfo>)
    requires Keyed(s)
    ensures Sorted(l) && forall x :: x in l <==> x in s
  {
    if s == {} then []
    else
      NewestExists(s);
      var m :| IsNewest(m, s);
      [m] + SortInfos(s - {m})
  }

  lemma Member<T>(l: seq<T>, k: nat)
    requires k < |l|
    ensures l[k] in l
  {
  }

  lemma NoMembers<T>(l: seq<T>)
    requires forall x :: x !in l
    ensures l == []
  {
    if l != [] { Member(l, 0); }
  }

  /** The sorted list of a set of summaries is unique. */
  lemma {:induction false} SortedUnique(a: seq<WorkflowInfo>, b: seq<WorkflowInfo>)
    requires Sorted(a) && Sorted(b) && forall x :: x in a <==> x in b
    ensures a == b
  {
    if a == [] {
      NoMembers(b);
    } else {
      assert a[0] in b && b != [] && b[0] in a;
      var j :| 0 <= j < |b| && b[j] == a[0];
      var i :| 0 <= i < |a| && a[i] == b[0];
      AheadTotal(CursorOf(a[0]), CursorOf(b[0]));
      assert a[0] == b[0];
      forall x ensures x in a[1..] <==> x in b[1..] {
        TailMembers(a, x);
        TailMembers(b, x);
      }
      SortedUnique(a[1..], b[1..]);
      assert a == [a[0]] + a[1..] && b == [b[0]] + b[1..];
    }
  }

  lemma TailMembers(l: seq<WorkflowInfo>, x: WorkflowInfo)
    requires Sorted(l) && l != []
    ensures x in l[1..] <==> x in l && x != l[0]
  {
    if x in l[1..] {
      var k :| 0 <= k < |l| - 1 && l[1..][k] == x;
      AheadTotal(CursorOf(l[0]), CursorOf(l[k + 1]));
    }
  }

  // ---------------------------------------------------------------------------
  // Pages of summaries

  /** `is_after_cursor` */
  predicate IsAfterCursor(info: WorkflowInfo, cursor: Cursor) {
    info.modifiedAt < cursor.modifiedAt
    || (info.modifiedAt == cursor.modifiedAt
        && (Less(info.id, cursor.id) || (info.id == cursor.id && Less(info.namespace, cursor.namespace))))
  }

  function After(l: seq<WorkflowInfo>, cursor: Option<Cursor>): seq<WorkflowInfo> {
    if cursor.None? then l
    else if l == [] then []
    else if IsAfterCursor(l[0], cursor.value) then [l[0]] + After(l[1..], cursor)
    else After(l[1..], cursor)
  }

  function Take<T>(l: seq<T>, n: nat): seq<T> {
    if n < |l| then l[..n] else l
  }

  function PageOf(l: seq<WorkflowInfo>, cursor: Option<Cursor>, limit: nat): Page<WorkflowInfo, Cursor> {
    var rest := After(l, cursor);
    var items := Take(rest, limit);
    Page(items, if |rest| > limit && items != [] then Some(CursorOf(items[|items| - 1])) else None)
  }

  predicate Matches(info: WorkflowInfo, filter: Filter) {
    match filter
    case Statuses(statuses) => info.status in statuses
    case WorkflowDefId(id) => info.workflowDefId == id
  }

  predicate Selected(info: WorkflowInfo, namespace: Option<Namespace>, filters: seq<Filter>) {
    (namespace.None? || info.namespace == namespace.value) && forall f :: f in filters ==> Matches(info, f)
  }

  ghost function Selection(infos: map<Key, WorkflowInfo>, namespace: Option<Namespace>,
      filters: seq<Filter>): set<WorkflowInfo>
  {
    set key | key in infos && Selected(infos[key], namespace, filters) :: infos[key]
  }

  ghost predicate Keys(infos: map<Key, WorkflowInfo>) {
    forall key :: key in infos ==> key == (infos[key].namespace, infos[key].id)
  }

  lemma SelectionKeyed(infos: map<Key, WorkflowInfo>, namespace: Option<Namespace>, filters: seq<Filter>)
    requires Keys(infos)
    ensures Keyed(Selection(infos, namespace, filters))
  {
  }

  ghost function Listing(infos: map<Key, WorkflowInfo>, namespace: Option<Namespace>,
      filters: seq<Filter>): seq<WorkflowInfo>
    requires Keys(infos)
  {
    SelectionKeyed(infos, namespace, filters);
    SortInfos(Selection(infos, namespace, filters))
  }

  /**
   What is listed: the summaries of the namespace asked for, or of all, that have one of the statuses each status filter
   names and the definition each definition filter names; each once, the one modified later first, and among those
   modified together by id and then by namespace, downwards.
   */
  lemma ListedExactlyWhen(infos: map<Key, WorkflowInfo>, namespace: Option<Namespace>, filters: seq<Filter>)
    requires Keys(infos)
    ensures var l := Listing(infos, namespace, filters);
      && (forall x :: x in l <==>
            && (exists key :: key in infos && infos[key] == x)
            && (namespace.None? || x.namespace == namespace.value)
            && (forall statuses :: Statuses(statuses) in filters ==> x.status in statuses)
            && (forall id :: WorkflowDefId(id) in filters ==> x.workflowDefId == id))
      && forall i, j :: 0 <= i < j < |l| ==>
           || l[j].modifiedAt < l[i].modifiedAt
           || (l[j].modifiedAt == l[i].modifiedAt
               && (Less(l[j].id, l[i].id) || (l[j].id == l[i].id && Less(l[j].namespace, l[i].namespace))))
  {
    SelectionKeyed(infos, namespace, filters);
    var l := Listing(infos, namespace, filters);
    forall x: WorkflowInfo ensures Selected(x, namespace, filters) <==>
      && (namespace.None? || x.namespace == namespace.value)
      && (forall statuses :: Statuses(statuses) in filters ==> x.status in statuses)
      && (forall id :: WorkflowDefId(id) in filters ==> x.workflowDefId == id)
    {
      SelectedByFields(x, namespace, filters);
    }
    hide Selected, Less;
    assert Sorted(l) && forall x :: x in l <==> x in Selection(infos, namespace, filters);
  }

  lemma SelectedByFields(x: WorkflowInfo, namespace: Option<Namespace>, filters: seq<Filter>)
    ensures Selected(x, namespace, filters) <==>
      && (namespace.None? || x.namespace == namespace.value)
      && (forall statuses :: Statuses(statuses) in filters ==> x.status in statuses)
      && (forall id :: WorkflowDefId(id) in filters ==> x.workflowDefId == id)
  {
  }

  lemma {:induction false} AfterAppend(l: seq<WorkflowInfo>, x: WorkflowInfo, cursor: Cursor)
    ensures After(l + [x], Some(cursor)) == After(l, Some(cursor)) + if IsAfterCursor(x, cursor) then [x] else []
  {
    hide IsAfterCursor;
    if l == [] {
      assert l + [x] == [x];
    } else {
      assert (l + [x])[1..] == l[1..] + [x];
      AfterAppend(l[1..], x, cursor);
    }
  }

  /** The insertion point of a summary in a sorted list. */
  method Insert(l: seq<WorkflowInfo>, x: WorkflowInfo) returns (r: seq<WorkflowInfo>)
    requires Sorted(l) && forall y :: y in l ==> CursorOf(y) != CursorOf(x)
    ensures Sorted(r) && forall y :: y in r <==> y == x || y in l
  {
    hide Ahead;
    var k := 0;
    while k < |l| && Ahead(CursorOf(l[k]), CursorOf(x))
      invariant 0 <= k <= |l| && forall i :: 0 <= i < k ==> Ahead(CursorOf(l[i]), CursorOf(x))
    {
      k := k + 1;
    }
    r := l[..k] + [x] + l[k..];
    if k < |l| {
      AheadTotal(CursorOf(l[k]), CursorOf(x));
      forall i | k < i < |l| ensures Ahead(CursorOf(x), CursorOf(l[i])) {
        AheadTransitive(CursorOf(x), CursorOf(l[k]), CursorOf(l[i]));
      }
    }
    assert l == l[..k] + l[k..];
    assert forall y :: y in l <==> y in l[..k] || y in l[k..];
  }

  /** The selected summaries, collected in any order and sorted. */
  method CollectSorted(infos: map<Key, WorkflowInfo>, namespace: Option<Namespace>, filters: seq<Filter>)
    returns (workflows: seq<WorkflowInfo>)
    requires Keys(infos)
    ensures workflows == Listing(infos, namespace, filters)
  {
    workflows := [];
    var todo := infos.Keys;
    while todo != {}
      invariant todo <= infos.Keys && Sorted(workflows)
      invariant forall x :: x in workflows <==>
        (x.namespace, x.id) in infos && (x.namespace, x.id) !in todo && infos[(x.namespace, x.id)] == x
          && Selected(x, namespace, filters)
      decreases todo
    {
      var key :| key in todo;
      todo := todo - {key};
      if Selected(infos[key], namespace, filters) {
        workflows := Insert(workflows, infos[key]);
      }
    }
    SelectionKeyed(infos, namespace, filters);
    assert forall x :: x in workflows <==> x in Selection(infos, namespace, filters);
    hide Selected, Sorted;
    SortedUnique(workflows, Listing(infos, namespace, filters));
  }

  /** `list_workflow_info` of MemoryStorage: collect, sort, retain, truncate. */
  method ListWorkflowInfo(infos: map<Key, WorkflowInfo>, namespace: Option<Namespace>, filters: seq<Filter>,
    limit: nat, cursor: Option<Cursor>) returns (page: Page<WorkflowInfo, Cursor>)
    requires Keys(infos)
    ensures page == PageOf(Listing(infos, namespace, filters), cursor, limit)
  {
    hide Listing, Keys;
    var workflows := CollectSorted(infos, namespace, filters);
    if cursor.Some? {
      workflows := Retain(workflows, cursor.value);
    }
    var hasMore := |workflows| > limit;
    if hasMore { workflows := workflows[..limit]; }
    var next := if hasMore && workflows != [] then Some(CursorOf(workflows[|workflows| - 1])) else None;
    return Page(workflows, next);
  }

  method Retain(l: seq<WorkflowInfo>, cursor: Cursor) returns (kept: seq<WorkflowInfo>)
    ensures kept == After(l, Some(cursor))
  {
    kept := [];
    for k := 0 to |l|
      invariant kept == After(l[..k], Some(cursor))
    {
      assert l[..k + 1] == l[..k] + [l[k]];
      AfterAppend(l[..k], l[k], cursor);
      if IsAfterCursor(l[k], cursor) { kept := kept + [l[k]]; }
    }
    assert l[..|l|] == l;
  }

  // ---------------------------------------------------------------------------
  // Following cursors

  lemma {:induction false} AfterKeepsAll(l: seq<WorkflowInfo>, cursor: Cursor)
    requires forall x :: x in l ==> Ahead(cursor, CursorOf(x))
    ensures After(l, Some(cursor)) == l
  {
    if l != [] {
      AfterKeepsAll(l[1..], cursor);
      assert Ahead(cursor, CursorOf(l[0]));
    }
  }

  /** What comes after the cursor of an item is the rest of the list. */
  lemma {:induction false} AfterItem(l: seq<WorkflowInfo>, k: nat)
    requires Sorted(l) && k < |l|
    ensures After(l, Some(CursorOf(l[k]))) == l[k + 1..]
    decreases |l|
  {
    AheadTotal(CursorOf(l[0]), CursorOf(l[k]));
    assert IsAfterCursor(l[0], CursorOf(l[k])) <==> Ahead(CursorOf(l[k]), CursorOf(l[0]));
    if k == 0 {
      AfterKeepsAll(l[1..], CursorOf(l[0]));
    } else {
      AfterItem(l[1..], k - 1);
      assert l[1..][k - 1] == l[k] && l[1..][k..] == l[k + 1..];
    }
  }

  /** The next page of a sorted list, seen from the position the cursor stands for. */
  lemma PageFrom(l: seq<WorkflowInfo>, done: nat, limit: nat)
    requires Sorted(l) && done <= |l| && limit >= 1
    ensures var page := PageOf(l, CursorAt(l, done), limit);
      var next := done + |page.items|;
      && next <= |l| && page.items == l[done..next]
      && (page.next.None? ==> next == |l|)
      && (page.next.Some? ==> next > done && page.next == CursorAt(l, next))
  {
    hide After, Sorted;
    RestAfter(l, done);
  }

  lemma RestAfter(l: seq<WorkflowInfo>, done: nat)
    requires Sorted(l) && done <= |l|
    ensures After(l, CursorAt(l, done)) == l[done..]
  {
    hide Sorted, CursorOf, Ahead, IsAfterCursor;
    if done > 0 { AfterItem(l, done - 1); }
  }

  function CursorAt(l: seq<WorkflowInfo>, done: nat): Option<Cursor>
    requires done <= |l|
  {
    if done == 0 then None else Some(CursorOf(l[done - 1]))
  }

  /** All items obtained by asking for pages until no cursor comes back, from position `from` of the list. */
  lemma {:induction false} PagesCoverRest(l: seq<WorkflowInfo>, from: nat, limit: nat)
      returns (pages: seq<seq<WorkflowInfo>>)
    requires Sorted(l) && from <= |l| && limit >= 1
    ensures ChainFrom(l, CursorAt(l, from), limit, pages)
    ensures Concat(pages) == l[from..]
    decreases |l| - from
  {
    hide Sorted, PageOf;
    PageFrom(l, from, limit);
    var page := PageOf(l, CursorAt(l, from), limit);
    if page.next.Some? {
      var next := from + |page.items|;
      var rest := PagesCoverRest(l, next, limit);
      pages := [page.items] + rest;
      assert pages[1..] == rest;
      assert l[from..] == l[from..next] + l[next..];
    } else {
      pages := [page.items];
      assert pages[1..] == [];
    }
  }

  function Concat<T>(pages: seq<seq<T>>): seq<T> {
    if pages == [] then [] else pages[0] + Concat(pages[1..])
  }

  /** The pages a client receives when it starts at `cursor` and follows every cursor it is given. */
  ghost predicate ChainFrom(l: seq<WorkflowInfo>, cursor: Option<Cursor>, limit: nat, pages: seq<seq<WorkflowInfo>>)
    decreases |pages|
  {
    && pages != []
    && pages[0] == PageOf(l, cursor, limit).items
    && (if PageOf(l, cursor, limit).next.None? then |pages| == 1
        else ChainFrom(l, PageOf(l, cursor, limit).next, limit, pages[1..]))
  }

  /** A client is given one chain of pages only. */
  lemma {:induction false} ChainUnique(l: seq<WorkflowInfo>, cursor: Option<Cursor>, limit: nat,
      a: seq<seq<WorkflowInfo>>, b: seq<seq<WorkflowInfo>>)
    requires ChainFrom(l, cursor, limit, a) && ChainFrom(l, cursor, limit, b)
    ensures a == b
    decreases |a|
  {
    var next := PageOf(l, cursor, limit).next;
    if next.Some? {
      ChainUnique(l, next, limit, a[1..], b[1..]);
      assert a == [a[0]] + a[1..] && b == [b[0]] + b[1..];
    }
  }

  /** Following cursors, with any limit of at least one, lists every selected summary once and in order. */
  lemma FollowingCursorsListsAll(infos: map<Key, WorkflowInfo>, namespace: Option<Namespace>, filters: seq<Filter>,
      limit: nat, pages: seq<seq<WorkflowInfo>>)
    requires Keys(infos) && limit >= 1
    requires ChainFrom(Listing(infos, namespace, filters), None, limit, pages)
    ensures Concat(pages) == Listing(infos, namespace, filters)
    ensures Distinct(Concat(pages)) && forall x :: x in Concat(pages) <==> x in Selection(infos, namespace, filters)
  {
    var l := Listing(infos, namespace, filters);
    SelectionKeyed(infos, namespace, filters);
    var all := PagesCoverRest(l, 0, limit);
    ChainUnique(l, None, limit, pages, all);
    assert l[0..] == l;
    forall i, j | 0 <= i < j < |l| ensures l[i] != l[j] { AheadTotal(CursorOf(l[i]), CursorOf(l[j])); }
  }

  // ---------------------------------------------------------------------------
  // The SQLite query

  /** The WHERE clause for a cursor; with a namespace given, the cursor's own namespace is not looked at. */
  predicate SqlAfterCursor(info: WorkflowInfo, cursor: Cursor, namespaceGiven: bool) {
    info.modifiedAt < cursor.modifiedAt
    || (info.modifiedAt == cursor.modifiedAt
        && (Less(info.id, cursor.id)
          || (!namespaceGiven && info.id == cursor.id && Less(info.namespace, cursor.namespace))))
  }

  /** Both predicates select the same summaries of a namespace exactly when the cursor is not from a later namespace. */
  lemma SqlCursorAgrees(cursor: Cursor, namespace: Namespace)
    ensures (forall info: WorkflowInfo :: info.namespace == namespace
               ==> (SqlAfterCursor(info, cursor, true) <==> IsAfterCursor(info, cursor)))
      <==> !Less(namespace, cursor.namespace)
    ensures forall info: WorkflowInfo :: SqlAfterCursor(info, cursor, false) <==> IsAfterCursor(info, cursor)
  {
    if Less(namespace, cursor.namespace) {
      var info := WorkflowInfo(namespace, cursor.id, "", WorkflowStatus.Pending, 0, cursor.modifiedAt, None, 0, 0);
      LessTrichotomy(cursor.id, cursor.id);
      assert !SqlAfterCursor(info, cursor, true) && IsAfterCursor(info, cursor);
    }
  }

  ghost function SqlSelection(infos: map<Key, WorkflowInfo>, namespace: Option<Namespace>, filters: seq<Filter>,
      cursor: Option<Cursor>): set<WorkflowInfo>
  {
    set x | x in Selection(infos, namespace, filters)
      && (cursor.None? || SqlAfterCursor(x, cursor.value, namespace.Some?))
  }

  predicate EmptyStatuses(filters: seq<Filter>) {
    exists f :: f in filters && f.Statuses? && f.statuses == []
  }

  /** `list_workflow_info` of the SQLite store: ORDER BY the same key, LIMIT one more than the page. */
  ghost function SqlPage(infos: map<Key, WorkflowInfo>, namespace: Option<Namespace>, filters: seq<Filter>,
      limit: nat, cursor: Option<Cursor>) : Page<WorkflowInfo, Cursor>
    requires Keys(infos)
  {
    SelectionKeyed(infos, namespace, filters);
    if limit == 0 || EmptyStatuses(filters) then Page([], None)
    else
      var rows := Take(SortInfos(SqlSelection(infos, namespace, filters, cursor)), limit + 1);
      var items := Take(rows, limit);
      Page(items, if |rows| > limit && items != [] then Some(CursorOf(items[|items| - 1])) else None)
  }

  lemma {:induction false} AfterMembers(l: seq<WorkflowInfo>, cursor: Cursor)
    ensures forall x :: x in After(l, Some(cursor)) <==> x in l && IsAfterCursor(x, cursor)
  {
    hide IsAfterCursor;
    if l != [] {
      AfterMembers(l[1..], cursor);
      assert forall x :: x in l <==> x == l[0] || x in l[1..];
    }
  }

  lemma {:induction false} AfterSorted(l: seq<WorkflowInfo>, cursor: Cursor)
    requires Sorted(l)
    ensures Sorted(After(l, Some(cursor)))
  {
    hide IsAfterCursor, Ahead;
    if l != [] {
      AfterSorted(l[1..], cursor);
      AfterMembers(l[1..], cursor);
      var rest := After(l[1..], Some(cursor));
      forall k | 0 <= k < |rest| ensures Ahead(CursorOf(l[0]), CursorOf(rest[k])) {
        assert rest[k] in rest;
        var m :| 0 <= m < |l| - 1 && l[1..][m] == rest[k];
      }
    }
  }

  lemma SqlSelectionIsAfter(infos: map<Key, WorkflowInfo>, namespace: Option<Namespace>, filters: seq<Filter>,
      cursor: Option<Cursor>, l: seq<WorkflowInfo>)
    requires Keys(infos) && Sorted(l) && forall x :: x in l <==> x in Selection(infos, namespace, filters)
    requires namespace.Some? && cursor.Some? ==> !Less(namespace.value, cursor.value.namespace)
    ensures Keyed(SqlSelection(infos, namespace, filters, cursor))
    ensures After(l, cursor) == SortInfos(SqlSelection(infos, namespace, filters, cursor))
  {
    SelectionKeyed(infos, namespace, filters);
    if cursor.Some? {
      AfterSorted(l, cursor.value);
      AfterMembers(l, cursor.value);
      SqlCursorAgrees(cursor.value, if namespace.Some? then namespace.value else "");
    }
    SortedUnique(After(l, cursor), SortInfos(SqlSelection(infos, namespace, filters, cursor)));
  }

  /** Asking for one row more than the page tells whether there is a next page. */
  lemma OneMore(l: seq<WorkflowInfo>, cursor: Option<Cursor>, limit: nat)
    ensures var rows := Take(After(l, cursor), limit + 1);
      var items := Take(rows, limit);
      PageOf(l, cursor, limit)
        == Page(items, if |rows| > limit && items != [] then Some(CursorOf(items[|items| - 1])) else None)
  {
  }

  lemma {:induction false} AfterNothing(cursor: Option<Cursor>, limit: nat)
    ensures PageOf([], cursor, limit) == Page([], None)
  {
  }

  lemma NoRoom(l: seq<WorkflowInfo>, cursor: Option<Cursor>)
    ensures PageOf(l, cursor, 0) == Page([], None)
  {
  }

  lemma NoStatusesSelectNothing(infos: map<Key, WorkflowInfo>, namespace: Option<Namespace>, filters: seq<Filter>)
    requires EmptyStatuses(filters)
    ensures Selection(infos, namespace, filters) == {}
  {
  }

  /** Unless the cursor is from a later namespace than the one asked for, both stores return the same page. */
  lemma SqlitePagesAgree(infos: map<Key, WorkflowInfo>, namespace: Option<Namespace>, filters: seq<Filter>,
      limit: nat, cursor: Option<Cursor>)
    requires Keys(infos)
    requires namespace.Some? && cursor.Some? ==> !Less(namespace.value, cursor.value.namespace)
    ensures SqlPage(infos, namespace, filters, limit, cursor)
      == PageOf(Listing(infos, namespace, filters), cursor, limit)
  {
    hide PageOf, Sorted, Selection, After, Take, SortInfos, EmptyStatuses, Keyed, Keys, Less;
    SelectionKeyed(infos, namespace, filters);
    var l := Listing(infos, namespace, filters);
    assert Sorted(l) && forall x :: x in l <==> x in Selection(infos, namespace, filters);
    OneMore(l, cursor, limit);
    if EmptyStatuses(filters) {
      NoStatusesSelectNothing(infos, namespace, filters);
      NoMembers(l);
      AfterNothing(cursor, limit);
    } else if limit == 0 {
      NoRoom(l, cursor);
    } else {
      SqlSelectionIsAfter(infos, namespace, filters, cursor, l);
    }
  }

  // ---------------------------------------------------------------------------
  // The nonterminal scan

  const NonterminalFilter: Filter :=
    Statuses([WorkflowStatus.Pending, WorkflowStatus.Running, Paused, WorkflowStatus.InputNeeded])

  predicate IsRunnable(info: WorkflowInfo) {
    info.status.Running? || info.status.Pending?
  }

  function Keep(l: seq<WorkflowInfo>, runnable: bool): seq<WorkflowInfo> {
    if l == [] then []
    else if IsRunnable(l[0]) == runnable then [l[0]] + Keep(l[1..], runnable)
    else Keep(l[1..], runnable)
  }

  lemma {:induction false} KeepAppend(a: seq<WorkflowInfo>, b: seq<WorkflowInfo>, runnable: bool)
    ensures Keep(a + b, runnable) == Keep(a, runnable) + Keep(b, runnable)
  {
    hide IsRunnable;
    if a == [] {
      assert a + b == b;
    } else {
      assert (a + b)[1..] == a[1..] + b && (a + b)[0] == a[0];
      KeepAppend(a[1..], b, runnable);
    }
  }

  lemma {:induction false} KeepMembers(l: seq<WorkflowInfo>, runnable: bool)
    ensures forall x :: x in Keep(l, runnable) <==> x in l && IsRunnable(x) == runnable
    ensures Sorted(l) ==> Sorted(Keep(l, runnable))
  {
    if l != [] {
      KeepMembers(l[1..], runnable);
      assert forall x :: x in l <==> x == l[0] || x in l[1..];
      var rest := Keep(l[1..], runnable);
      if Sorted(l) {
        forall k | 0 <= k < |rest| ensures Ahead(CursorOf(l[0]), CursorOf(rest[k])) {
          assert rest[k] in l[1..];
          var m :| 0 <= m < |l| - 1 && l[1..][m] == rest[k];
        }
      }
    }
  }

  /**
   What the scan finds: the Pending and Running instances on one side, the Paused ones and those that wait for input on
   the other, none that has ended, and both sides in the order of the listing.
   */
  lemma ScanExactlyWhen(infos: map<Key, WorkflowInfo>, namespace: Option<Namespace>)
    requires Keys(infos)
    ensures var l := Listing(infos, namespace, [NonterminalFilter]);
      && Sorted(Keep(l, true)) && Sorted(Keep(l, false))
      && (forall x :: x in Keep(l, true) <==>
            && (exists key :: key in infos && infos[key] == x)
            && (namespace.None? || x.namespace == namespace.value) && (x.status.Pending? || x.status.Running?))
      && (forall x :: x in Keep(l, false) <==>
            && (exists key :: key in infos && infos[key] == x)
            && (namespace.None? || x.namespace == namespace.value) && (x.status.Paused? || x.status.InputNeeded?))
  {
    hide Sorted, Selected, Matches;
    var l := Listing(infos, namespace, [NonterminalFilter]);
    SelectionKeyed(infos, namespace, [NonterminalFilter]);
    assert Sorted(l) && forall x :: x in l <==> x in Selection(infos, namespace, [NonterminalFilter]);
    forall x: WorkflowInfo ensures Selected(x, namespace, [NonterminalFilter])
      <==> (namespace.None? || x.namespace == namespace.value) && !x.status.Completed? && !x.status.Failed?
    {
      NotEnded(x, namespace);
    }
    KeepMembers(l, true);
    KeepMembers(l, false);
  }

  lemma NotEnded(x: WorkflowInfo, namespace: Option<Namespace>)
    ensures Selected(x, namespace, [NonterminalFilter])
      <==> (namespace.None? || x.namespace == namespace.value) && !x.status.Completed? && !x.status.Failed?
  {
    assert NonterminalFilter in [NonterminalFilter];
  }

  lemma KeepUpTo(l: seq<WorkflowInfo>, done: nat, next: nat, runnable: bool)
    requires done <= next <= |l|
    ensures Keep(l[..next], runnable) == Keep(l[..done], runnable) + Keep(l[done..next], runnable)
  {
    assert l[..next] == l[..done] + l[done..next];
    KeepAppend(l[..done], l[done..next], runnable);
  }

  /** One page of the scan: what it adds to the two lists, and the position it reaches. */
  method ScanPage(infos: map<Key, WorkflowInfo>, namespace: Option<Namespace>, cursor: Option<Cursor>,
      ghost l: seq<WorkflowInfo>, ghost done: nat) returns (runnable: seq<WorkflowInfo>, blocked: seq<WorkflowInfo>,
      next: Option<Cursor>, ghost reached: nat)
    requires Keys(infos) && l == Listing(infos, namespace, [NonterminalFilter]) && Sorted(l)
    requires done <= |l| && cursor == CursorAt(l, done)
    ensures done <= reached <= |l| && (next.Some? ==> done < reached && next == CursorAt(l, reached))
      && (next.None? ==> reached == |l|)
    ensures Keep(l[..reached], true) == Keep(l[..done], true) + runnable
    ensures Keep(l[..reached], false) == Keep(l[..done], false) + blocked
  {
    hide *;
    PageFrom(l, done, 100);
    var page := ListWorkflowInfo(infos, namespace, [NonterminalFilter], 100, cursor);
    runnable, blocked := Split(page.items);
    next, reached := page.next, done + |page.items|;
    KeepUpTo(l, done, reached, true);
    KeepUpTo(l, done, reached, false);
  }

  /** `list_nonterminal_workflow_info`: pages of a hundred until no cursor comes back. */
  method ListNonterminal(infos: map<Key, WorkflowInfo>, namespace: Option<Namespace>)
      returns (runnable: seq<WorkflowInfo>, blocked: seq<WorkflowInfo>)
    requires Keys(infos)
    ensures runnable == Keep(Listing(infos, namespace, [NonterminalFilter]), true)
    ensures blocked == Keep(Listing(infos, namespace, [NonterminalFilter]), false)
  {
    ghost var l := Listing(infos, namespace, [NonterminalFilter]);
    assert Sorted(l) by { SelectionKeyed(infos, namespace, [NonterminalFilter]); }
    ghost var done := 0;
    assert l[..0] == [] && Keep(l[..0], true) == [] && Keep(l[..0], false) == [] && CursorAt(l, 0) == None;
    hide *;
    runnable, blocked := [], [];
    var cursor: Option<Cursor> := None;
    while true
      invariant 0 <= done <= |l| && cursor == CursorAt(l, done)
      invariant runnable == Keep(l[..done], true) && blocked == Keep(l[..done], false)
      decreases |l| - done
    {
      var runnableHere, blockedHere, next, reached := ScanPage(infos, namespace, cursor, l, done);
      runnable, blocked := runnable + runnableHere, blocked + blockedHere;
      done := reached;
      if next.None? { break; }
      cursor := next;
    }
    assert l[..|l|] == l;
  }

  /** The two status filters over one page. */
  method Split(items: seq<WorkflowInfo>) returns (runnable: seq<WorkflowInfo>, blocked: seq<WorkflowInfo>)
    ensures runnable == Keep(items, true) && blocked == Keep(items, false)
  {
    runnable, blocked := [], [];
    for k := 0 to |items|
      invariant runnable == Keep(items[..k], true) && blocked == Keep(items[..k], false)
    {
      assert items[..k + 1] == items[..k] + [items[k]];
      KeepAppend(items[..k], [items[k]], true);
      KeepAppend(items[..k], [items[k]], false);
      if IsRunnable(items[k]) { runnable := runnable + [items[k]]; } else { blocked := blocked + [items[k]]; }
    }
    assert items[..|items|] == items;
  }

  // ---------------------------------------------------------------------------
  // Pages of events

  /** `list_workflow_instance_events` of MemoryStorage: the cursor counts the events already seen. */
  function EventPage(all: seq<EventRecord>, limit: nat, cursor: Option<nat>): Page<EventRecord, nat> {
    if limit == 0 then Page([], None)
    else
      var start := cursor.GetOr(0);
      var rest := if start <= |all| then all[start..] else [];
      var items := Take(rest, limit);
      Page(items, if |Take(rest, limit + 1)| > limit then Some(start + |items|) else None)
  }

  ghost predicate EventChain(all: seq<EventRecord>, cursor: Option<nat>, limit: nat, pages: seq<seq<EventRecord>>)
    decreases |pages|
  {
    && pages != [] && pages[0] == EventPage(all, limit, cursor).items
    && (if EventPage(all, limit, cursor).next.None? then |pages| == 1
        else EventChain(all, EventPage(all, limit, cursor).next, limit, pages[1..]))
  }

  /** Following event cursors reads the log from the cursor to its end, each event once. */
  lemma {:induction false} FollowingEventsReadsTheLog(all: seq<EventRecord>, cursor: Option<nat>, limit: nat,
      pages: seq<seq<EventRecord>>)
    requires limit >= 1 && cursor.GetOr(0) <= |all| && EventChain(all, cursor, limit, pages)
    ensures Concat(pages) == all[cursor.GetOr(0)..]
    decreases |pages|
  {
    var start := cursor.GetOr(0);
    var page := EventPage(all, limit, cursor);
    EventPageFrom(all, limit, cursor);
    assert Concat(pages) == pages[0] + Concat(pages[1..]);
    hide EventPage, Concat, EventChain;
    if page.next.Some? {
      FollowingEventsReadsTheLog(all, page.next, limit, pages[1..]);
      SplitRest(all, start, start + limit);
    } else {
      assert pages[1..] == [];
      assert Concat(pages[1..]) == [] by { NoPages<EventRecord>(); }
    }
  }

  lemma SplitRest<T>(all: seq<T>, start: nat, next: nat)
    requires start <= next <= |all|
    ensures all[start..] == all[start..next] + all[next..]
  {
  }

  lemma NoPages<T>()
    ensures Concat<T>([]) == []
  {
  }

  lemma EventPageFrom(all: seq<EventRecord>, limit: nat, cursor: Option<nat>)
    requires limit >= 1 && cursor.GetOr(0) <= |all|
    ensures var start, page := cursor.GetOr(0), EventPage(all, limit, cursor);
      if page.next.Some? then start + limit <= |all| && page.next == Some(start + limit)
        && page.items == all[start..start + limit]
      else page.items == all[start..]
  {
  }

  /** The numbers of the rows above `start`. */
  method NumbersAbove(events: map<(Key, nat), EventRecord>, key: Key, start: nat,
      ghost all: seq<EventRecord>) returns (numbers: set<nat>)
    requires Numbered(events, key, all)
    ensures forall n :: n in numbers <==> start < n <= |all|
  {
    numbers := set k | k in events && k.0 == key && k.1 > start :: k.1;
    forall n ensures n in numbers <==> start < n <= |all| {
      if start < n <= |all| { assert (key, n) in events && (key, n).0 == key && (key, n).1 == n; }
    }
  }

  /** The rows numbered above `start`, in ascending order, at most `count` of them. */
  method RowsAbove(events: map<(Key, nat), EventRecord>, key: Key, start: nat, count: nat, ghost all: seq<EventRecord>)
    returns (rows: seq<EventRecord>, numbers: seq<nat>)
    requires Numbered(events, key, all)
    ensures start + |rows| <= |all| || rows == []
    ensures |rows| <= count && (|rows| < count ==> start + |rows| >= |all|)
    ensures forall k :: 0 <= k < |rows| ==> rows[k] == all[start + k]
    ensures |numbers| == |rows| && forall k :: 0 <= k < |numbers| ==> numbers[k] == start + k + 1
  {
    rows, numbers := [], [];
    var todo := NumbersAbove(events, key, start, all);
    while todo != {} && |rows| < count
      invariant |rows| == |numbers| <= count && (rows == [] || start + |rows| <= |all|)
      invariant forall k :: 0 <= k < |rows| ==> rows[k] == all[start + k]
      invariant forall k :: 0 <= k < |numbers| ==> numbers[k] == start + k + 1
      invariant forall n :: n in todo <==> start + |rows| < n <= |all|
      decreases todo
    {
      var n := Min(todo);
      assert start + |rows| + 1 in todo;
      rows, numbers, todo := rows + [events[(key, n)]], numbers + [n], todo - {n};
    }
    assert start + |rows| < |all| ==> start + |rows| + 1 in todo;
  }

  lemma RowsArePage(all: seq<EventRecord>, limit: nat, cursor: Option<nat>, rows: seq<EventRecord>)
    requires limit >= 1 && (rows == [] || cursor.GetOr(0) + |rows| <= |all|)
    requires |rows| <= limit + 1 && (|rows| < limit + 1 ==> cursor.GetOr(0) + |rows| >= |all|)
    requires forall k :: 0 <= k < |rows| ==> rows[k] == all[cursor.GetOr(0) + k]
    ensures EventPage(all, limit, cursor) ==
      Page(if |rows| > limit then rows[..limit] else rows, if |rows| > limit then Some(cursor.GetOr(0) + limit)
        else None)
  {
    var start := cursor.GetOr(0);
    var rest := if start <= |all| then all[start..] else [];
    assert rows == Take(rest, limit + 1);
    assert Take(rest, limit) == if |rows| > limit then rows[..limit] else rows;
  }

  lemma NumberedRows(store: SqliteStorage, key: Key)
    requires store.Valid()
    ensures Numbered(store.events, key, RecordsAt(store.journal, key))
  {
    RowsOfKey(store.Rows(), store.journal, key);
  }

  /** The cursor of a full page is the number of its last row. */
  lemma LastNumber(numbers: seq<nat>, start: nat, limit: nat)
    requires limit >= 1 && |numbers| >= limit && forall k :: 0 <= k < |numbers| ==> numbers[k] == start + k + 1
    ensures numbers[limit - 1] == start + limit
  {
  }

  /**
   The SQLite query: rows with a greater number, in ascending order, one more than the page. An instance that
   does not exist has no rows and an empty page.
   */
  method ListEvents(store: SqliteStorage, key: Key, limit: nat, cursor: Option<nat>)
      returns (page: Page<EventRecord, nat>)
    requires store.Valid()
    ensures page == EventPage(RecordsAt(store.journal, key), limit, cursor)
  {
    if limit == 0 { return Page([], None); }
    NumberedRows(store, key);
    page := PageOfRows(store.events, key, limit, cursor, RecordsAt(store.journal, key));
  }

  method PageOfRows(events: map<(Key, nat), EventRecord>, key: Key, limit: nat, cursor: Option<nat>,
      ghost all: seq<EventRecord>) returns (page: Page<EventRecord, nat>)
    requires limit >= 1 && Numbered(events, key, all)
    ensures page == EventPage(all, limit, cursor)
  {
    hide Numbered, EventPage;
    var start := cursor.GetOr(0);
    var rows, numbers := RowsAbove(events, key, start, limit + 1, all);
    RowsArePage(all, limit, cursor, rows);
    if |rows| <= limit { return Page(rows, None); }
    LastNumber(numbers, start, limit);
    return Page(rows[..limit], Some(numbers[limit - 1]));
  }
}
