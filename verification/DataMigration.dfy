/** The resumable usage backfills and the runner that records their completion. */
module DataMigration {
  import opened Wrappers

  type SessionID = string

  datatype Totals = Totals(cost: real, input: int, output: int, reasoning: int, cacheRead: int, cacheWrite: int)

  const ZERO: Totals := Totals(0.0, 0, 0, 0, 0, 0)

  function Add(a: Totals, b: Totals): Totals {
    Totals(a.cost + b.cost, a.input + b.input, a.output + b.output, a.reasoning + b.reasoning,
           a.cacheRead + b.cacheRead, a.cacheWrite + b.cacheWrite)
  }

  /** A message or a part: whether the backfill bills it (an assistant message, a step-finish part),
      and what it says; a missing number counts as zero. */
  datatype Row = Row(session: SessionID, billed: bool, cost: Option<real>, input: Option<int>, output: Option<int>,
                     reasoning: Option<int>, cacheRead: Option<int>, cacheWrite: Option<int>)

  function Number(n: Option<int>): int { if n.Some? then n.value else 0 }

  function Billed(r: Row): Totals {
    Totals(if r.cost.Some? then r.cost.value else 0.0, Number(r.input), Number(r.output), Number(r.reasoning),
           Number(r.cacheRead), Number(r.cacheWrite))
  }

  predicate Counts(r: Row, id: SessionID) { r.session == id && r.billed }

  /** The sums over the billed rows of one session. */
  function Sum(rows: seq<Row>, id: SessionID): Totals {
    if rows == [] then ZERO
    else if Counts(rows[0], id) then Add(Billed(rows[0]), Sum(rows[1..], id))
    else Sum(rows[1..], id)
  }

  predicate HasRows(rows: seq<Row>, id: SessionID) { exists i :: 0 <= i < |rows| && Counts(rows[i], id) }

  lemma {:induction false} NoRowsNoSum(rows: seq<Row>, id: SessionID)
    ensures !HasRows(rows, id) ==> Sum(rows, id) == ZERO
  {
    if rows == [] {
    } else {
      NoRowsNoSum(rows[1..], id);
      if HasRows(rows[1..], id) {
        var i :| 0 <= i < |rows[1..]| && Counts(rows[1..][i], id);
        assert Counts(rows[i + 1], id);
      }
    }
  }

  // ---------------------------------------------------------------- pages

  /** The order of the session ids: any countable total order is an order of real numbers. */
  type Order = SessionID -> real

  predicate Ascending(order: Order, ids: seq<SessionID>) {
    forall i, j :: 0 <= i < j < |ids| ==> order(ids[i]) < order(ids[j])
  }

  function GreaterThan(order: Order, ids: seq<SessionID>, cursor: SessionID): seq<SessionID> {
    if ids == [] then []
    else (if order(ids[0]) > order(cursor) then [ids[0]] else []) + GreaterThan(order, ids[1..], cursor)
  }

  function FirstOf(ids: seq<SessionID>, size: nat): seq<SessionID> {
    if |ids| <= size then ids else ids[..size]
  }

  /** The query of one page. An empty cursor is no cursor. */
  function Page(order: Order, ids: seq<SessionID>, cursor: Option<SessionID>, size: nat): seq<SessionID> {
    FirstOf(if cursor.Some? && cursor.value != "" then GreaterThan(order, ids, cursor.value) else ids, size)
  }

  lemma {:induction false} RestAfter(order: Order, ids: seq<SessionID>, k: nat)
    requires Ascending(order, ids) && k < |ids|
    ensures GreaterThan(order, ids, ids[k]) == ids[k + 1..]
  {
    if k > 0 {
      assert Ascending(order, ids[1..]) && ids[1..][k - 1] == ids[k];
      RestAfter(order, ids[1..], k - 1);
      assert ids[1..][k..] == ids[k + 1..];
    } else {
      AllGreater(order, ids[1..], ids[0]);
    }
  }

  lemma {:induction false} AllGreater(order: Order, ids: seq<SessionID>, cursor: SessionID)
    requires forall i :: 0 <= i < |ids| ==> order(ids[i]) > order(cursor)
    ensures GreaterThan(order, ids, cursor) == ids
  {
    if ids == [] {
    } else {
      AllGreater(order, ids[1..], cursor);
    }
  }

  /** A page query resumes right after its cursor exactly when the cursor is not the empty string;
      after an empty id it asks for the first page again. */
  lemma PageResumesIff(order: Order, ids: seq<SessionID>, k: nat, size: nat)
    requires Ascending(order, ids) && k < |ids| && size >= 1
    ensures var page := Page(order, ids, Some(ids[k]), size);
      ids[k] != "" <==> page == FirstOf(ids[k + 1..], size)
    ensures ids[k] == "" ==> Page(order, ids, Some(ids[k]), size) == Page(order, ids, None, size)
  {
    RestAfter(order, ids, k);
    if ids[k] == "" {
      var page := Page(order, ids, Some(ids[k]), size);
      assert page != [] && page[0] == ids[0];
      if k + 1 < |ids| {
        assert order(ids[0]) < order(ids[k + 1]);
      }
    }
  }

  // ---------------------------------------------------------------- the store

  datatype Name = PlanEvents | FromMessages | FromParts

  /** The session totals and the completion rows. */
  datatype Db = Db(totals: map<SessionID, Totals>, done: set<Name>)

  /** The tables that no backfill changes. */
  datatype Tables = Tables(ids: seq<SessionID>, messages: seq<Row>, parts: seq<Row>, order: Order, pageSize: nat)

  /** The empty id sorts before all others. */
  predicate ValidTables(t: Tables) {
    Ascending(t.order, t.ids) && t.pageSize >= 1 && forall i :: 0 < i < |t.ids| ==> t.ids[i] != ""
  }

  /** No page ends with the empty id. */
  predicate PagesResume(t: Tables) {
    t.ids != [] && t.ids[0] == "" ==> |t.ids| > 1 && t.pageSize > 1
  }

  /** Do the cursor loops get to this session? */
  predicate Reached(t: Tables, id: SessionID) { PagesResume(t) || id == "" }

  /** What a backfill has to say about one session: the first its message sums, the second its
      step-finish sums if it has any such part. */
  function Value(t: Tables, name: Name, id: SessionID): Option<Totals> {
    match name
    case PlanEvents => None
    case FromMessages => Some(Sum(t.messages, id))
    case FromParts => if HasRows(t.parts, id) then Some(Sum(t.parts, id)) else None
  }

  function Write(totals: map<SessionID, Totals>, id: SessionID, value: Option<Totals>): map<SessionID, Totals> {
    if value.Some? then totals[id := value.value] else totals
  }

  /** The transaction of one page. */
  function WritePage(t: Tables, name: Name, totals: map<SessionID, Totals>, page: seq<SessionID>)
    : map<SessionID, Totals>
  {
    if page == [] then totals else
    var last := |page| - 1;
    Write(WritePage(t, name, totals, page[..last]), page[last], Value(t, name, page[last]))
  }

  /** The query for the page after a cursor. */
  type Query = Option<SessionID> -> seq<SessionID>

  function PageQuery(t: Tables): Query {
    (cursor: Option<SessionID>) => Page(t.order, t.ids, cursor, t.pageSize)
  }

  /** The sessions that the cursor loop of a backfill visits, stopped after `commits` pages; and how
      many commits are left if it ended before. The message backfill also ends when a page ends with
      the empty id, where the other one starts over. */
  function Visits(query: Query, name: Name, cursor: Option<SessionID>, commits: nat): (seq<SessionID>, Option<nat>)
    decreases commits
  {
    var page := query(cursor);
    if page == [] then ([], Some(commits))
    else if commits == 0 then ([], None)
    else if name == FromMessages && page[|page| - 1] == "" then (page, Some(commits - 1))
    else
      var (rest, left) := Visits(query, name, Some(page[|page| - 1]), commits - 1);
      (page + rest, left)
  }

  /** The cursor after the first `k` sessions. */
  function CursorAt(ids: seq<SessionID>, k: nat): Option<SessionID>
    requires k <= |ids|
  {
    if k == 0 then None else Some(ids[k - 1])
  }

  /** The query resumes after its cursor, and no page ends with the empty id. */
  ghost predicate Paginates(query: Query, ids: seq<SessionID>, size: nat) {
    size >= 1 && forall k :: 0 <= k <= |ids| ==> ResumesAt(query, ids, size, k)
  }

  predicate ResumesAt(query: Query, ids: seq<SessionID>, size: nat, k: nat)
    requires k <= |ids|
  {
    CursorAt(ids, k) != Some("") ==>
      var page := query(CursorAt(ids, k));
      page == FirstOf(ids[k..], size) && (page != [] ==> page[|page| - 1] != "")
  }

  lemma PagesPaginate(t: Tables)
    requires ValidTables(t) && PagesResume(t)
    ensures Paginates(PageQuery(t), t.ids, t.pageSize)
  {
    forall k | 0 <= k <= |t.ids|
      ensures ResumesAt(PageQuery(t), t.ids, t.pageSize, k)
    {
      if k == 0 {
        assert t.ids[0..] == t.ids;
      } else if t.ids[k - 1] != "" {
        PageResumesIff(t.order, t.ids, k - 1, t.pageSize);
      }
    }
  }

  /** As long as no page ends with the empty id the cursor loop visits the sessions once each and in
      order, and it ends. */
  lemma VisitsAll(t: Tables, name: Name, commits: nat)
    requires ValidTables(t) && PagesResume(t)
    ensures var (visited, left) := Visits(PageQuery(t), name, None, commits);
      && visited <= t.ids
      && (left.Some? ==> visited == t.ids && commits - |t.ids| <= left.value)
      && (|t.ids| <= commits ==> left.Some?)
  {
    PagesPaginate(t);
    var m := VisitsFrom(PageQuery(t), t.ids, t.pageSize, name, 0, None, commits);
    assert t.ids[0..m] == t.ids[..m];
  }

  lemma {:induction false} VisitsFrom(query: Query, ids: seq<SessionID>, size: nat, name: Name, k: nat,
                                      cursor: Option<SessionID>, commits: nat) returns (m: nat)
    requires Paginates(query, ids, size) && k <= |ids| && cursor == CursorAt(ids, k) && cursor != Some("")
    ensures k <= m <= |ids|
    ensures var (visited, left) := Visits(query, name, cursor, commits);
      && visited == ids[k..m]
      && (left.Some? ==> m == |ids| && commits - (|ids| - k) <= left.value)
      && (|ids| - k <= commits ==> left.Some?)
    decreases commits
  {
    var page := PageAt(query, ids, size, k, cursor);
    if page == [] || commits == 0 {
      m := k;
    } else {
      var next := Some(page[|page| - 1]);
      m := VisitsFrom(query, ids, size, name, k + |page|, next, commits - 1);
    }
  }

  lemma PageAt(query: Query, ids: seq<SessionID>, size: nat, k: nat, cursor: Option<SessionID>)
    returns (page: seq<SessionID>)
    requires Paginates(query, ids, size) && k <= |ids| && cursor == CursorAt(ids, k) && cursor != Some("")
    ensures page == query(cursor) && (page == [] <==> k == |ids|)
    ensures k + |page| <= |ids| && page == ids[k..k + |page|]
    ensures page != [] ==> page[|page| - 1] != "" && CursorAt(ids, k + |page|) == Some(page[|page| - 1])
  {
    page := FirstOf(ids[k..], size);
    assert ResumesAt(query, ids, size, k);
  }

  /** Otherwise the first page is only the session with the empty id. The message backfill ends there,
      and the other one visits that session for ever. */
  lemma {:induction false} VisitsOnlyTheFirst(t: Tables, cursor: Option<SessionID>, commits: nat)
    requires ValidTables(t) && !PagesResume(t) && (cursor == None || cursor == Some(""))
    ensures Visits(PageQuery(t), FromMessages, cursor, commits) ==
      if commits == 0 then ([], None) else ([""], Some(commits - 1))
    ensures Visits(PageQuery(t), FromParts, cursor, commits).1.None?
    ensures forall id :: id in Visits(PageQuery(t), FromParts, cursor, commits).0 ==> id == ""
    decreases commits
  {
    assert PageQuery(t)(cursor) == [""];
    if commits == 0 {
    } else {
      VisitsOnlyTheFirst(t, Some(""), commits - 1);
    }
  }

  /** One migration of the list: skipped if recorded, else run and then recorded. */
  function Migrate(t: Tables, db: Db, name: Name, commits: nat): (Db, Option<nat>) {
    if name in db.done then (db, Some(commits)) else
    var (visited, left) := if name == PlanEvents then ([], if commits == 0 then None else Some(commits - 1))
                           else Visits(PageQuery(t), name, None, commits);
    var totals := WritePage(t, name, db.totals, visited);
    if left.None? then (db.(totals := totals), None)
    else if left.value == 0 then (db.(totals := totals), None)
    else (Db(totals, db.done + {name}), Some(left.value - 1))
  }

  /** One start of the program, stopped after `commits` commits at the latest. */
  function Start(t: Tables, db: Db, commits: nat): Db {
    var (db1, left1) := Migrate(t, db, PlanEvents, commits);
    if left1.None? then db1 else
    var (db2, left2) := Migrate(t, db1, FromMessages, left1.value);
    if left2.None? then db2 else
    Migrate(t, db2, FromParts, left2.value).0
  }

  lemma {:induction false} WriteTwoPages(t: Tables, name: Name, totals: map<SessionID, Totals>, a: seq<SessionID>,
                                         b: seq<SessionID>)
    ensures WritePage(t, name, WritePage(t, name, totals, a), b) == WritePage(t, name, totals, a + b)
  {
    if b == [] {
      assert a + b == a;
    } else {
      var last := |b| - 1;
      assert (a + b)[..|a + b| - 1] == a + b[..last] && (a + b)[|a + b| - 1] == b[last];
      WriteTwoPages(t, name, totals, a, b[..last]);
    }
  }

  /** The same, with the sessions visited before. */
  function VisitsOn(query: Query, name: Name, cursor: Option<SessionID>, commits: nat, visited: seq<SessionID>)
    : (seq<SessionID>, Option<nat>)
  {
    var (rest, left) := Visits(query, name, cursor, commits);
    (visited + rest, left)
  }

  lemma VisitsOneMore(query: Query, name: Name, cursor: Option<SessionID>, commits: nat, visited: seq<SessionID>)
    ensures var page := query(cursor);
      VisitsOn(query, name, cursor, commits, visited) ==
        if page == [] then (visited, Some(commits))
        else if commits == 0 then (visited, None)
        else if name == FromMessages && page[|page| - 1] == "" then (visited + page, Some(commits - 1))
        else VisitsOn(query, name, Some(page[|page| - 1]), commits - 1, visited + page)
  {
    var page := query(cursor);
    assert visited + [] == visited;
    if page != [] && commits > 0 {
      var rest := Visits(query, name, Some(page[|page| - 1]), commits - 1).0;
      assert visited + (page + rest) == visited + page + rest;
    }
  }

  // ---------------------------------------------------------------- the store as it is updated

  class Store {
    var totals: map<SessionID, Totals>
    var done: set<Name>

    function View(): Db
      reads this
    {
      Db(totals, done)
    }

    constructor (db: Db)
      ensures View() == db
    {
      totals, done := db.totals, db.done;
    }

    /** Group the billed messages of the page, starting every session at zero, and write the groups. */
    method WritePageFromMessages(t: Tables, page: seq<SessionID>)
      modifies `totals
      ensures totals == WritePage(t, FromMessages, old(totals), page)
    {
      var usage := map id | id in page :: ZERO;
      for i := 0 to |page|
        invariant totals == old(totals) && usage.Keys == set id | id in page
        invariant forall id :: id in usage ==> usage[id] == if id in page[..i] then Sum(t.messages, id) else ZERO
      {
        NoRowsNoSum(t.messages, page[i]);
        if HasRows(t.messages, page[i]) {
          usage := usage[page[i] := Sum(t.messages, page[i])];
        }
      }
      for i := 0 to |page|
        invariant totals == WritePage(t, FromMessages, old(totals), page[..i])
      {
        assert page[..i + 1][..i] == page[..i];
        totals := totals[page[i] := usage[page[i]]];
      }
      assert page[..|page|] == page;
    }

    method WritePageFromParts(t: Tables, page: seq<SessionID>)
      modifies `totals
      ensures totals == WritePage(t, FromParts, old(totals), page)
    {
      for i := 0 to |page|
        invariant totals == WritePage(t, FromParts, old(totals), page[..i])
      {
        assert page[..i + 1][..i] == page[..i];
        if HasRows(t.parts, page[i]) {
          totals := totals[page[i] := Sum(t.parts, page[i])];
        }
      }
      assert page[..|page|] == page;
    }

    /** The two cursor loops, which differ in what they do after an empty id. */
    method RunPages(t: Tables, query: Query, name: Name, commits: nat) returns (left: Option<nat>)
      requires name != PlanEvents
      modifies `totals
      ensures totals == WritePage(t, name, old(totals), Visits(query, name, None, commits).0)
      ensures left == Visits(query, name, None, commits).1
    {
      var cursor: Option<SessionID> := None;
      var remaining := commits;
      ghost var visited, goal := [], Visits(query, name, None, commits);
      assert [] + goal.0 == goal.0;
      while true
        invariant totals == WritePage(t, name, old(totals), visited)
        invariant VisitsOn(query, name, cursor, remaining, visited) == goal
        decreases remaining
      {
        var page := query(cursor);
        VisitsOneMore(query, name, cursor, remaining, visited);
        if page == [] {
          return Some(remaining);
        }
        if remaining == 0 {
          return None;
        }
        WriteOnePage(t, name, page, old(totals), visited);
        visited := visited + page;
        remaining := remaining - 1;
        cursor := Some(page[|page| - 1]);
        if name == FromMessages && cursor.value == "" {
          return Some(remaining);
        }
      }
    }

    method WriteOnePage(t: Tables, name: Name, page: seq<SessionID>,
                        ghost before: map<SessionID, Totals>, ghost visited: seq<SessionID>)
      requires name != PlanEvents && totals == WritePage(t, name, before, visited)
      modifies `totals
      ensures totals == WritePage(t, name, before, visited + page)
    {
      WriteTwoPages(t, name, before, visited, page);
      if name == FromMessages {
        WritePageFromMessages(t, page);
      } else {
        WritePageFromParts(t, page);
      }
    }

    method RunMigration(t: Tables, name: Name, commits: nat) returns (left: Option<nat>)
      modifies this
      ensures (View(), left) == Migrate(t, old(View()), name, commits)
    {
      if name in done {
        return Some(commits);
      }
      if name == PlanEvents {
        left := if commits == 0 then None else Some(commits - 1);
      } else {
        left := RunPages(t, PageQuery(t), name, commits);
      }
      if left.None? || left.value == 0 {
        return None;
      }
      done := done + {name};
      return Some(left.value - 1);
    }

    method RunAll(t: Tables, commits: nat)
      modifies this
      ensures View() == Start(t, old(View()), commits)
    {
      var left := RunMigration(t, PlanEvents, commits);
      if left.Some? {
        left := RunMigration(t, FromMessages, left.value);
        if left.Some? {
          left := RunMigration(t, FromParts, left.value);
        }
      }
    }
  }

  // ---------------------------------------------------------------- convergence

  function Starts(t: Tables, db: Db, schedule: seq<nat>): Db {
    if schedule == [] then db else
    var last := |schedule| - 1;
    Start(t, Starts(t, db, schedule[..last]), schedule[last])
  }

  /** What a session should end up with. */
  function Expected(t: Tables, id: SessionID): Totals {
    if HasRows(t.parts, id) then Sum(t.parts, id) else Sum(t.messages, id)
  }

  /** What it ends up with, given what was already recorded as done, and done how, at the beginning. */
  function Base(t: Tables, db0: Db, id: SessionID): Totals
    requires id in db0.totals
  {
    if FromMessages in db0.done || !Reached(t, id) then db0.totals[id] else Sum(t.messages, id)
  }

  function Eventual(t: Tables, db0: Db, id: SessionID): Totals
    requires id in db0.totals
  {
    if FromParts in db0.done then Base(t, db0, id) else Written(t, FromParts, Base(t, db0, id), id)
  }

  /** What a backfill leaves in place of `was`. */
  function Written(t: Tables, name: Name, was: Totals, id: SessionID): Totals {
    var value := Value(t, name, id);
    if value.Some? then value.value else was
  }

  ghost predicate Covers(t: Tables, db: Db) { forall id :: id in t.ids <==> id in db.totals }

  /** How far the totals have come after any number of starts from `db0`. */
  ghost predicate Converging(t: Tables, db0: Db, db: Db) {
    && Covers(t, db0) && Covers(t, db) && db0.done <= db.done
    && (FromParts in db.done && FromParts !in db0.done ==> FromMessages in db.done)
    && (FromMessages !in db.done ==> forall id :: id in t.ids && !Reached(t, id) ==> db.totals[id] == db0.totals[id])
    && (FromMessages in db.done ==> forall id :: id in t.ids ==>
          if FromParts in db.done then db.totals[id] == Eventual(t, db0, id)
          else db.totals[id] == Base(t, db0, id) || db.totals[id] == Eventual(t, db0, id))
  }

  lemma {:induction false} PageWrites(t: Tables, name: Name, totals: map<SessionID, Totals>, page: seq<SessionID>)
    requires forall id :: id in page ==> id in totals
    ensures WritePage(t, name, totals, page).Keys == totals.Keys
    ensures forall id :: id in totals ==>
      WritePage(t, name, totals, page)[id] == if id in page then Written(t, name, totals[id], id) else totals[id]
  {
    if page == [] {
    } else {
      var last := |page| - 1;
      PageWrites(t, name, totals, page[..last]);
      assert page == page[..last] + [page[last]];
    }
  }

  /** What a backfill that stops anywhere leaves: some of the sessions it reaches are written, and all of
      them before it is recorded as done. */
  ghost predicate Wrote(t: Tables, db: Db, name: Name, after: Db) {
    && after.totals.Keys == db.totals.Keys
    && (after.done == db.done || after.done == db.done + {name})
    && (forall id :: id in db.totals ==>
          after.totals[id] == db.totals[id] || after.totals[id] == Written(t, name, db.totals[id], id))
    && (forall id :: id in db.totals && !Reached(t, id) ==> after.totals[id] == db.totals[id])
    && (name in after.done ==>
          forall id :: id in t.ids && id in db.totals && Reached(t, id) ==>
            after.totals[id] == Written(t, name, db.totals[id], id))
    && (name in after.done && name == FromParts ==> PagesResume(t))
  }

  lemma MigrateWrites(t: Tables, db: Db, name: Name, commits: nat)
    requires ValidTables(t) && Covers(t, db) && name !in db.done && name != PlanEvents
    ensures Wrote(t, db, name, Migrate(t, db, name, commits).0)
  {
    var visited, left := VisitsReach(t, name, commits);
    PageWrites(t, name, db.totals, visited);
  }

  /** The sessions visited are reached ones, and all of them if the loop ended. */
  lemma VisitsReach(t: Tables, name: Name, commits: nat) returns (visited: seq<SessionID>, left: Option<nat>)
    requires ValidTables(t) && name != PlanEvents
    ensures (visited, left) == Visits(PageQuery(t), name, None, commits)
    ensures forall id :: id in visited ==> id in t.ids && Reached(t, id)
    ensures left.Some? ==> forall id :: id in t.ids && Reached(t, id) ==> id in visited
    ensures left.Some? && name == FromParts ==> PagesResume(t)
  {
    visited, left := Visits(PageQuery(t), name, None, commits).0, Visits(PageQuery(t), name, None, commits).1;
    if PagesResume(t) {
      VisitsAll(t, name, commits);
    } else {
      VisitsOnlyTheFirst(t, None, commits);
      assert t.ids[0] == "" && t.ids[0] in t.ids;
    }
  }

  lemma MigrateConverges(t: Tables, db0: Db, db: Db, name: Name, commits: nat)
    requires ValidTables(t) && Converging(t, db0, db)
    requires name == FromParts ==> FromMessages in db.done
    ensures var (after, left) := Migrate(t, db, name, commits);
      Converging(t, db0, after) && db.done <= after.done && (left.Some? ==> name in after.done)
  {
    if name !in db.done {
      match name {
        case PlanEvents =>
        case FromMessages =>
          MigrateWrites(t, db, name, commits);
        case FromParts =>
          MigrateWrites(t, db, name, commits);
      }
    }
  }

  lemma {:induction false} StartsConverge(t: Tables, db0: Db, schedule: seq<nat>)
    requires ValidTables(t) && Covers(t, db0)
    ensures Converging(t, db0, Starts(t, db0, schedule))
  {
    if schedule == [] {
    } else {
      var last := |schedule| - 1;
      StartsConverge(t, db0, schedule[..last]);
      var db := Starts(t, db0, schedule[..last]);
      MigrateConverges(t, db0, db, PlanEvents, schedule[last]);
      var (db1, left1) := Migrate(t, db, PlanEvents, schedule[last]);
      if left1.Some? {
        MigrateConverges(t, db0, db1, FromMessages, left1.value);
        var (db2, left2) := Migrate(t, db1, FromMessages, left1.value);
        if left2.Some? {
          MigrateConverges(t, db0, db2, FromParts, left2.value);
        }
      }
    }
  }

  predicate AllDone(db: Db) { PlanEvents in db.done && FromMessages in db.done && FromParts in db.done }

  lemma {:induction false} PartsNeverFinish(t: Tables, db0: Db, schedule: seq<nat>)
    requires ValidTables(t) && !PagesResume(t) && FromParts !in db0.done
    ensures FromParts !in Starts(t, db0, schedule).done
  {
    if schedule == [] {
    } else {
      var last := |schedule| - 1;
      PartsNeverFinish(t, db0, schedule[..last]);
      StartLeavesParts(t, Starts(t, db0, schedule[..last]), schedule[last]);
    }
  }

  lemma StartLeavesParts(t: Tables, db: Db, commits: nat)
    requires ValidTables(t) && !PagesResume(t) && FromParts !in db.done
    ensures FromParts !in Start(t, db, commits).done
  {
    var (db1, left1) := Migrate(t, db, PlanEvents, commits);
    if left1.Some? {
      var (db2, left2) := Migrate(t, db1, FromMessages, left1.value);
      if left2.Some? {
        VisitsOnlyTheFirst(t, None, left2.value);
      }
    }
  }

  /** Whatever the crashes and restarts: once every completion row exists, each session has its
      step-finish sums if it has any such part, and otherwise its message sums. */
  lemma BackfillsConverge(t: Tables, db0: Db, schedule: seq<nat>)
    requires ValidTables(t) && Covers(t, db0)
    requires FromMessages !in db0.done && FromParts !in db0.done
    requires AllDone(Starts(t, db0, schedule))
    ensures Starts(t, db0, schedule).totals.Keys == db0.totals.Keys
    ensures forall id :: id in t.ids ==> Starts(t, db0, schedule).totals[id] == Expected(t, id)
  {
    if !PagesResume(t) {
      PartsNeverFinish(t, db0, schedule);
    }
    StartsConverge(t, db0, schedule);
    assert PagesResume(t);
    assert forall id :: id in t.ids ==> id in db0.totals && Eventual(t, db0, id) == Expected(t, id);
  }

  /** From a database that already has some of the rows they converge exactly when: what no backfill
      is left to write is right already, except for what the parts will replace; and no session's
      parts and messages disagree where only the parts are recorded as done. */
  lemma BackfillsConvergeIff(t: Tables, db0: Db, schedule: seq<nat>)
    requires ValidTables(t) && Covers(t, db0) && AllDone(Starts(t, db0, schedule))
    ensures Covers(t, Starts(t, db0, schedule))
    ensures (forall id :: id in t.ids ==> Starts(t, db0, schedule).totals[id] == Expected(t, id)) <==>
      forall id :: id in t.ids ==>
        if FromMessages in db0.done || !Reached(t, id) then
          (HasRows(t.parts, id) && FromParts !in db0.done) || db0.totals[id] == Expected(t, id)
        else
          FromParts in db0.done && HasRows(t.parts, id) ==> Sum(t.messages, id) == Sum(t.parts, id)
  {
    StartsConverge(t, db0, schedule);
    if !PagesResume(t) && FromParts !in db0.done {
      PartsNeverFinish(t, db0, schedule);
    }
    var final := Starts(t, db0, schedule).totals;
    assert forall id :: id in t.ids ==> id in db0.totals && final[id] == Eventual(t, db0, id);
  }

  lemma VisitsNeed(t: Tables, name: Name, commits: nat)
    requires ValidTables(t) && |t.ids| <= commits && (PagesResume(t) || name == FromMessages)
    ensures var left := Visits(PageQuery(t), name, None, commits).1; left.Some? && commits - |t.ids| <= left.value
  {
    if PagesResume(t) {
      VisitsAll(t, name, commits);
    } else {
      VisitsOnlyTheFirst(t, None, commits);
    }
  }

  /** A start that is left alone long enough finishes everything, exactly unless the parts are still to
      be added up and the first page ends with the empty id. */
  lemma UninterruptedStartFinishesIff(t: Tables, db: Db, commits: nat)
    requires ValidTables(t) && 2 * |t.ids| + 4 <= commits
    ensures AllDone(Start(t, db, commits)) <==> PagesResume(t) || FromParts in db.done
  {
    var (db1, left1) := Migrate(t, db, PlanEvents, commits);
    VisitsNeed(t, FromMessages, left1.value);
    var (db2, left2) := Migrate(t, db1, FromMessages, left1.value);
    if PagesResume(t) {
      VisitsNeed(t, FromParts, left2.value);
    } else if FromParts !in db.done {
      StartLeavesParts(t, db, commits);
    }
  }
}
