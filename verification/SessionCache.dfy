/** The client's two cached session lists, patched event by event. */
module SessionCache {
  import opened Wrappers

  type ID = string

  datatype Session = Session(id: ID, parentID: Option<ID>, archivedAt: Option<int>, updatedAt: int, info: string)

  /** The collation of the ids; ids it does not tell apart may stand in either order. */
  type Collation = ID -> real

  // ---------------------------------------------------------------- lists

  /** May the first stand before the second? */
  type Comparator = (Session, Session) -> bool

  function ByID(order: Collation): Comparator {
    (a: Session, b: Session) => order(a.id) <= order(b.id)
  }

  /** The order in which a list is fetched. */
  function NewestFirst(order: Collation): Comparator {
    (a: Session, b: Session) =>
      a.updatedAt > b.updatedAt || (a.updatedAt == b.updatedAt && order(a.id) >= order(b.id))
  }

  ghost predicate Orders(before: Comparator) {
    && (forall a, b :: before(a, b) || before(b, a))
    && forall a, b, c :: before(a, b) && before(b, c) ==> before(a, c)
  }

  predicate Sorted(before: Comparator, list: seq<Session>) {
    forall i, j :: 0 <= i < j < |list| ==> before(list[i], list[j])
  }

  predicate UniqueIds(list: seq<Session>) {
    forall i, j :: 0 <= i < j < |list| ==> list[i].id != list[j].id
  }

  function Position(list: seq<Session>, id: ID): int {
    FindIndex(list, (s: Session) => s.id == id)
  }

  /** A stable sort: each element is placed after those that compare equal. */
  function Insert(before: Comparator, sorted: seq<Session>, s: Session): seq<Session> {
    if sorted == [] || before(sorted[|sorted| - 1], s) then sorted + [s]
    else Insert(before, sorted[..|sorted| - 1], s) + [sorted[|sorted| - 1]]
  }

  function Sort(before: Comparator, list: seq<Session>): seq<Session> {
    if list == [] then [] else Insert(before, Sort(before, list[..|list| - 1]), list[|list| - 1])
  }

  function UpsertByID(order: Collation, items: seq<Session>, value: Session): seq<Session> {
    var index := Position(items, value.id);
    if index == -1 then Sort(ByID(order), items + [value]) else items[index := value]
  }

  function Without(list: seq<Session>, id: ID): seq<Session> {
    if list == [] then []
    else (if list[0].id != id then [list[0]] else []) + Without(list[1..], id)
  }

  predicate Has(list: seq<Session>, id: ID) { exists s :: s in list && s.id == id }

  lemma {:induction false} InsertSorts(before: Comparator, sorted: seq<Session>, s: Session)
    requires Orders(before) && Sorted(before, sorted)
    ensures Sorted(before, Insert(before, sorted, s))
  {
    if sorted == [] {
    } else if before(sorted[|sorted| - 1], s) {
      forall i | 0 <= i < |sorted|
        ensures before(sorted[i], s)
      {
        assert i < |sorted| - 1 ==> before(sorted[i], sorted[|sorted| - 1]);
      }
    } else {
      var last := |sorted| - 1;
      InsertSorts(before, sorted[..last], s);
      InsertKeepsAll(before, sorted[..last], s);
      var inner := Insert(before, sorted[..last], s);
      forall i | 0 <= i < |inner|
        ensures before(inner[i], sorted[last])
      {
        assert inner[i] in multiset(inner);
        assert inner[i] in sorted[..last] || inner[i] == s;
      }
    }
  }

  lemma {:induction false} InsertKeepsAll(before: Comparator, sorted: seq<Session>, s: Session)
    ensures multiset(Insert(before, sorted, s)) == multiset(sorted) + multiset{s}
  {
    if sorted == [] {
    } else {
      var last := |sorted| - 1;
      assert sorted == sorted[..last] + [sorted[last]];
      InsertKeepsAll(before, sorted[..last], s);
    }
  }

  lemma {:induction false} SortSorts(before: Comparator, list: seq<Session>)
    requires Orders(before)
    ensures Sorted(before, Sort(before, list)) && multiset(Sort(before, list)) == multiset(list)
  {
    if list == [] {
    } else {
      var last := |list| - 1;
      SortSorts(before, list[..last]);
      InsertSorts(before, Sort(before, list[..last]), list[last]);
      InsertKeepsAll(before, Sort(before, list[..last]), list[last]);
      assert list == list[..last] + [list[last]];
    }
  }

  /** Unique ids are a property of the multiset, so sorting keeps them. */
  lemma UniqueByMultiset(a: seq<Session>, b: seq<Session>)
    requires multiset(a) == multiset(b) && UniqueIds(a)
    ensures UniqueIds(b)
  {
    forall i, j | 0 <= i < j < |b|
      ensures b[i].id != b[j].id
    {
      assert b[i] in multiset(b) && b[j] in multiset(b);
      assert b[i] in a && b[j] in a;
      if b[i].id == b[j].id {
        assert b[i] == b[j];
        TwiceInMultiset(b, i, j);
        OnceIfUnique(a, b[i]);
        assert false;
      }
    }
  }

  lemma TwiceInMultiset(b: seq<Session>, i: nat, j: nat)
    requires i < j < |b| && b[i] == b[j]
    ensures multiset(b)[b[i]] >= 2
  {
    assert b == b[..j] + [b[j]] + b[j + 1..];
    assert b[i] in b[..j];
  }

  lemma {:induction false} OnceIfUnique(a: seq<Session>, s: Session)
    requires UniqueIds(a)
    ensures multiset(a)[s] <= 1
  {
    if a == [] {
    } else {
      var last := |a| - 1;
      assert a == a[..last] + [a[last]];
      OnceIfUnique(a[..last], s);
      if a[last] == s {
        assert s !in a[..last];
      }
    }
  }

  lemma {:induction false} WithoutKeeps(list: seq<Session>, id: ID)
    ensures forall s :: s in Without(list, id) <==> s in list && s.id != id
  {
    if list == [] {
    } else {
      WithoutKeeps(list[1..], id);
    }
  }

  /** So sorting changes nothing but the order. */
  lemma SortKeeps(before: Comparator, list: seq<Session>)
    requires Orders(before)
    ensures forall s :: s in Sort(before, list) <==> s in list
    ensures UniqueIds(list) ==> UniqueIds(Sort(before, list))
  {
    SortSorts(before, list);
    forall s
      ensures s in Sort(before, list) <==> s in list
    {
      assert s in multiset(Sort(before, list)) <==> s in multiset(list);
    }
    if UniqueIds(list) {
      UniqueByMultiset(list, Sort(before, list));
    }
  }

  lemma {:induction false} WithoutKeepsSorted(before: Comparator, list: seq<Session>, id: ID)
    requires Sorted(before, list)
    ensures Sorted(before, Without(list, id))
  {
    if list == [] {
    } else {
      var rest := Without(list[1..], id);
      WithoutKeepsSorted(before, list[1..], id);
      WithoutKeeps(list[1..], id);
      forall i | 0 <= i < |rest|
        ensures before(list[0], rest[i])
      {
        var k := PlaceInRest(list, rest[i]);
      }
    }
  }

  lemma PlaceInRest(list: seq<Session>, s: Session) returns (k: nat)
    requires list != [] && s in list[1..]
    ensures 0 < k < |list| && list[k] == s
  {
    var i :| 0 <= i < |list[1..]| && list[1..][i] == s;
    k := i + 1;
  }

  lemma {:induction false} WithoutKeepsUnique(list: seq<Session>, id: ID)
    requires UniqueIds(list)
    ensures UniqueIds(Without(list, id))
  {
    if list == [] {
    } else {
      var rest := Without(list[1..], id);
      WithoutKeepsUnique(list[1..], id);
      WithoutKeeps(list[1..], id);
      forall i | 0 <= i < |rest|
        ensures list[0].id != rest[i].id
      {
        var k := PlaceInRest(list, rest[i]);
      }
    }
  }

  // ---------------------------------------------------------------- what the lists should be

  predicate Belongs(s: Session, archived: bool) {
    s.parentID.None? && archived == s.archivedAt.Some?
  }

  /** The list holds exactly the root sessions of `sessions` with this archived flag, each id once, in
      whatever order. */
  ghost predicate Holds(list: seq<Session>, sessions: map<ID, Session>, archived: bool) {
    && UniqueIds(list)
    && forall s :: s in list <==> s.id in sessions && sessions[s.id] == s && Belongs(s, archived)
  }

  /** Does the list of this flag show the session? */
  predicate Listed(sessions: map<ID, Session>, id: ID, archived: bool) {
    id in sessions && sessions[id].id == id && Belongs(sessions[id], archived)
  }

  lemma ListedIffHas(list: seq<Session>, sessions: map<ID, Session>, id: ID, archived: bool)
    requires Holds(list, sessions, archived)
    ensures Has(list, id) <==> Listed(sessions, id, archived)
    ensures Position(list, id) >= 0 <==> Listed(sessions, id, archived)
  {
    if Listed(sessions, id, archived) {
      assert sessions[id] in list;
    }
    if index: nat :| index < |list| && list[index].id == id {
      assert list[index] in list;
    }
  }

  function Filtered(data: seq<Session>, archived: bool): seq<Session> {
    if data == [] then []
    else (if Belongs(data[0], archived) then [data[0]] else []) + Filtered(data[1..], archived)
  }

  /** A list as it is fetched from what the server sent. */
  function Fetched(order: Collation, data: seq<Session>, archived: bool): seq<Session> {
    Sort(NewestFirst(order), Filtered(data, archived))
  }

  lemma {:induction false} FilteredKeeps(data: seq<Session>, archived: bool)
    ensures forall s :: s in Filtered(data, archived) <==> s in data && Belongs(s, archived)
    ensures UniqueIds(data) ==> UniqueIds(Filtered(data, archived))
  {
    if data == [] {
    } else {
      FilteredKeeps(data[1..], archived);
      var rest := Filtered(data[1..], archived);
      if UniqueIds(data) {
        assert UniqueIds(data[1..]);
        forall i | 0 <= i < |rest|
          ensures data[0].id != rest[i].id
        {
          var k := PlaceInRest(data, rest[i]);
        }
      }
    }
  }

  /** A fetched list holds what it should, newest first. */
  lemma FetchedHolds(order: Collation, data: seq<Session>, sessions: map<ID, Session>, archived: bool)
    requires UniqueIds(data) && forall s :: s in data <==> s.id in sessions && sessions[s.id] == s
    ensures Holds(Fetched(order, data, archived), sessions, archived)
    ensures Sorted(NewestFirst(order), Fetched(order, data, archived))
  {
    FilteredKeeps(data, archived);
    SortSorts(NewestFirst(order), Filtered(data, archived));
    SortKeeps(NewestFirst(order), Filtered(data, archived));
  }

  // ---------------------------------------------------------------- one event

  datatype Event = Upsert(info: Session) | Remove(id: ID)

  /** The plain reading of the events. */
  function Applied(sessions: map<ID, Session>, e: Event): map<ID, Session> {
    match e
    case Upsert(info) => sessions[info.id := info]
    case Remove(id) => sessions - {id}
  }

  /** What an event does to a loaded list. */
  function Patched(order: Collation, list: seq<Session>, e: Event, archived: bool): seq<Session> {
    match e
    case Upsert(info) => if Belongs(info, archived) then UpsertByID(order, list, info) else Without(list, info.id)
    case Remove(id) => Without(list, id)
  }

  lemma WithoutHolds(list: seq<Session>, sessions: map<ID, Session>, id: ID, archived: bool)
    requires Holds(list, sessions, archived)
    ensures Holds(Without(list, id), sessions - {id}, archived)
    ensures forall s: Session :: s.id == id && !Belongs(s, archived) ==>
      Holds(Without(list, id), sessions[id := s], archived)
  {
    WithoutKeeps(list, id);
    WithoutKeepsUnique(list, id);
  }

  lemma UpsertHolds(order: Collation, list: seq<Session>, sessions: map<ID, Session>, info: Session, archived: bool)
    requires Holds(list, sessions, archived) && Belongs(info, archived)
    ensures Holds(UpsertByID(order, list, info), sessions[info.id := info], archived)
  {
    var index := Position(list, info.id);
    ListedIffHas(list, sessions, info.id, archived);
    if index == -1 {
      SortKeeps(ByID(order), list + [info]);
    } else {
      ReplacedHolds(list, sessions, index, info, archived);
    }
  }

  lemma ReplacedHolds(list: seq<Session>, sessions: map<ID, Session>, index: nat, info: Session, archived: bool)
    requires Holds(list, sessions, archived) && Belongs(info, archived)
    requires index < |list| && list[index].id == info.id
    ensures Holds(list[index := info], sessions[info.id := info], archived)
  {
    ReplacedMembers(list, index, info);
    assert list[index] in list;
  }

  lemma ReplacedMembers(list: seq<Session>, index: nat, info: Session)
    requires UniqueIds(list) && index < |list|
    ensures forall s :: s in list[index := info] <==> (s in list && s != list[index]) || s == info
  {
    var result := list[index := info];
    forall s | s in list && s != list[index]
      ensures s in result
    {
      var k :| 0 <= k < |list| && list[k] == s;
      assert result[k] == s;
    }
    assert result[index] == info;
  }

  /** Patching keeps a list in agreement with the plain map, in whatever order the list is. */
  lemma PatchHolds(order: Collation, list: seq<Session>, sessions: map<ID, Session>, e: Event, archived: bool)
    requires Holds(list, sessions, archived)
    ensures Holds(Patched(order, list, e, archived), Applied(sessions, e), archived)
  {
    match e {
      case Upsert(info) =>
        if Belongs(info, archived) {
          UpsertHolds(order, list, sessions, info, archived);
        } else {
          WithoutHolds(list, sessions, info.id, archived);
        }
      case Remove(id) => WithoutHolds(list, sessions, id, archived);
    }
  }

  // ---------------------------------------------------------------- the order of a patched list

  /** A session that the list does not show yet comes into it. */
  predicate Enters(sessions: map<ID, Session>, e: Event, archived: bool) {
    e.Upsert? && Belongs(e.info, archived) && !Listed(sessions, e.info.id, archived)
  }

  /** The list without what the event takes out of it. */
  function Kept(list: seq<Session>, e: Event, archived: bool): seq<Session> {
    match e
    case Upsert(info) => if Belongs(info, archived) then list else Without(list, info.id)
    case Remove(id) => Without(list, id)
  }

  predicate SameIds(a: seq<Session>, b: seq<Session>) {
    |a| == |b| && forall i :: 0 <= i < |a| ==> a[i].id == b[i].id
  }

  lemma {:induction false} WithoutSameIds(a: seq<Session>, b: seq<Session>, id: ID)
    requires SameIds(a, b)
    ensures SameIds(Without(a, id), Without(b, id))
  {
    if a == [] {
    } else {
      assert SameIds(a[1..], b[1..]);
      WithoutSameIds(a[1..], b[1..], id);
    }
  }

  /** An event that lets a session in sorts the list by id; any other only takes sessions out, and
      leaves those it keeps where they are. */
  lemma PatchedOrder(order: Collation, list: seq<Session>, sessions: map<ID, Session>, e: Event, archived: bool)
    requires Holds(list, sessions, archived)
    ensures Enters(sessions, e, archived) ==> Sorted(ByID(order), Patched(order, list, e, archived))
    ensures !Enters(sessions, e, archived) ==> SameIds(Patched(order, list, e, archived), Kept(list, e, archived))
  {
    if e.Upsert? && Belongs(e.info, archived) {
      ListedIffHas(list, sessions, e.info.id, archived);
      SortSorts(ByID(order), list + [e.info]);
    }
  }

  // ---------------------------------------------------------------- the cache

  datatype Key = List(archived: bool) | Detail(id: ID)

  class SessionCache {
    const order: Collation
    var lists: map<bool, seq<Session>>     // by archived flag; absent while not loaded
    var details: map<ID, Session>
    var invalidated: set<Key>

    constructor (order: Collation)
      ensures this.order == order && lists == map[] && details == map[] && invalidated == {}
    {
      this.order := order;
      lists, details, invalidated := map[], map[], {};
    }

    /** Everything loaded agrees with `sessions`. */
    ghost predicate Agrees(sessions: map<ID, Session>)
      reads this
    {
      ListsAgree(sessions) && DetailsAgree(sessions)
    }

    ghost predicate ListsAgree(sessions: map<ID, Session>)
      reads this
    {
      forall archived :: archived in lists ==> Holds(lists[archived], sessions, archived)
    }

    ghost predicate DetailsAgree(sessions: map<ID, Session>)
      reads this
    {
      forall id :: id in details ==> id in sessions && details[id] == sessions[id]
    }

    method PatchRootList(info: Session, archived: bool)
      modifies `lists, `invalidated
      ensures lists.Keys == old(lists.Keys)
      ensures forall a :: a in lists ==>
        lists[a] == if a == archived then Patched(order, old(lists)[a], Upsert(info), a) else old(lists)[a]
      ensures invalidated == old(invalidated) +
        if archived !in lists && Belongs(info, archived) then {List(archived)} else {}
    {
      var belongs := info.parentID.None? && (if archived then info.archivedAt.Some? else info.archivedAt.None?);
      if archived in lists {
        var sessions := lists[archived];
        lists := lists[archived := if belongs then UpsertByID(order, sessions, info) else Without(sessions, info.id)];
      } else if belongs {
        invalidated := invalidated + {List(archived)};
      }
    }

    method UpsertSession(info: Session, ghost sessions: map<ID, Session>)
      requires Agrees(sessions)
      modifies this
      ensures Agrees(Applied(sessions, Upsert(info)))
      ensures lists.Keys == old(lists.Keys) && details.Keys == old(details.Keys)
      ensures forall a :: a in lists ==> lists[a] == Patched(order, old(lists)[a], Upsert(info), a)
      ensures forall a :: a in lists && Enters(sessions, Upsert(info), a) ==> Sorted(ByID(order), lists[a])
      ensures forall id :: id in details ==> details[id] == if id == info.id then info else old(details)[id]
      ensures info.id !in details ==> Detail(info.id) in invalidated
      ensures forall a :: a !in lists && Belongs(info, a) ==> List(a) in invalidated
    {
      PatchRootLists(info, sessions);
      if info.id in details {
        details := details[info.id := info];
      } else {
        invalidated := invalidated + {Detail(info.id)};
      }
    }

    method PatchRootLists(info: Session, ghost sessions: map<ID, Session>)
      requires ListsAgree(sessions)
      modifies `lists, `invalidated
      ensures ListsAgree(Applied(sessions, Upsert(info)))
      ensures lists.Keys == old(lists.Keys)
      ensures forall a :: a in lists ==> lists[a] == Patched(order, old(lists)[a], Upsert(info), a)
      ensures forall a :: a in lists && Enters(sessions, Upsert(info), a) ==> Sorted(ByID(order), lists[a])
      ensures forall a :: a !in lists && Belongs(info, a) ==> List(a) in invalidated
    {
      PatchRootList(info, false);
      PatchRootList(info, true);
      forall a | a in lists
        ensures Holds(lists[a], Applied(sessions, Upsert(info)), a)
        ensures Enters(sessions, Upsert(info), a) ==> Sorted(ByID(order), lists[a])
      {
        PatchHolds(order, old(lists)[a], sessions, Upsert(info), a);
        PatchedOrder(order, old(lists)[a], sessions, Upsert(info), a);
      }
    }

    /** A list that does not hold the session is only marked for refetching. */
    method RemoveSession(id: ID, ghost sessions: map<ID, Session>)
      requires Agrees(sessions)
      modifies this
      ensures Agrees(Applied(sessions, Remove(id)))
      ensures lists.Keys == old(lists.Keys) && details == old(details) - {id}
      ensures forall a :: a in lists ==> lists[a] == Patched(order, old(lists)[a], Remove(id), a)
      ensures forall a :: (a in lists && Has(old(lists)[a], id)) || List(a) in invalidated
    {
      RemoveFrom(id, false);
      RemoveFrom(id, true);
      details := details - {id};
      forall a | a in lists
        ensures Holds(lists[a], Applied(sessions, Remove(id)), a)
      {
        PatchHolds(order, old(lists)[a], sessions, Remove(id), a);
      }
    }

    method RemoveFrom(id: ID, archived: bool)
      modifies `lists, `invalidated
      ensures lists.Keys == old(lists.Keys)
      ensures forall a :: a in lists ==> lists[a] == if a == archived then Without(old(lists)[a], id) else old(lists)[a]
      ensures invalidated == old(invalidated) +
        if archived in lists && Has(old(lists)[archived], id) then {} else {List(archived)}
    {
      if archived !in lists || !exists s | s in lists[archived] :: s.id == id {
        invalidated := invalidated + {List(archived)};
        if archived in lists {
          NothingToRemove(lists[archived], id);
        }
      } else {
        lists := lists[archived := Without(lists[archived], id)];
      }
    }
  }

  lemma {:induction false} NothingToRemove(list: seq<Session>, id: ID)
    requires forall s :: s in list ==> s.id != id
    ensures Without(list, id) == list
  {
    if list == [] {
    } else {
      NothingToRemove(list[1..], id);
    }
  }

  // ---------------------------------------------------------------- any sequence of events

  function AppliedAll(sessions: map<ID, Session>, events: seq<Event>): map<ID, Session> {
    if events == [] then sessions else
    var last := |events| - 1;
    Applied(AppliedAll(sessions, events[..last]), events[last])
  }

  function PatchedAll(order: Collation, list: seq<Session>, events: seq<Event>, archived: bool): seq<Session> {
    if events == [] then list else
    var last := |events| - 1;
    Patched(order, PatchedAll(order, list, events[..last], archived), events[last], archived)
  }

  /** Whatever the order of the list at the beginning. */
  lemma {:induction false} PatchedAllHolds(order: Collation, list: seq<Session>, sessions: map<ID, Session>,
                                           events: seq<Event>, archived: bool)
    requires Holds(list, sessions, archived)
    ensures Holds(PatchedAll(order, list, events, archived), AppliedAll(sessions, events), archived)
  {
    if events == [] {
    } else {
      var last := |events| - 1;
      PatchedAllHolds(order, list, sessions, events[..last], archived);
      PatchHolds(order, PatchedAll(order, list, events[..last], archived), AppliedAll(sessions, events[..last]),
                 events[last], archived);
    }
  }

  /** The sessions of the first list that no event took out. */
  function Survivors(list: seq<Session>, events: seq<Event>, archived: bool): seq<Session> {
    if events == [] then list else
    var last := |events| - 1;
    Kept(Survivors(list, events[..last], archived), events[last], archived)
  }

  /** Some event let a session in. */
  predicate EverEnters(sessions: map<ID, Session>, events: seq<Event>, archived: bool) {
    if events == [] then false else
    var last := |events| - 1;
    || EverEnters(sessions, events[..last], archived)
    || Enters(AppliedAll(sessions, events[..last]), events[last], archived)
  }

  /** A patched list is in id order exactly if some event let a session in, or what is left of the
      first list was in id order already. */
  lemma PatchedAllSortedIff(order: Collation, list: seq<Session>, sessions: map<ID, Session>,
                            events: seq<Event>, archived: bool)
    requires Holds(list, sessions, archived)
    ensures Sorted(ByID(order), PatchedAll(order, list, events, archived)) <==>
      EverEnters(sessions, events, archived) || Sorted(ByID(order), Survivors(list, events, archived))
  {
    OrderOfPatchedAll(order, list, sessions, events, archived);
  }

  lemma {:induction false} OrderOfPatchedAll(order: Collation, list: seq<Session>, sessions: map<ID, Session>,
                                             events: seq<Event>, archived: bool)
    requires Holds(list, sessions, archived)
    ensures var result := PatchedAll(order, list, events, archived);
      if EverEnters(sessions, events, archived) then Sorted(ByID(order), result)
      else SameIds(result, Survivors(list, events, archived))
  {
    if events == [] {
    } else {
      var last := |events| - 1;
      var before, e := PatchedAll(order, list, events[..last], archived), events[last];
      OrderOfPatchedAll(order, list, sessions, events[..last], archived);
      PatchedAllHolds(order, list, sessions, events[..last], archived);
      PatchedOrder(order, before, AppliedAll(sessions, events[..last]), e, archived);
      if !Enters(AppliedAll(sessions, events[..last]), e, archived) {
        KeptOrder(order, before, Survivors(list, events[..last], archived), e, archived);
      }
    }
  }

  /** Taking sessions out keeps a sorted list sorted, and two lists of the same ids such lists. */
  lemma KeptOrder(order: Collation, a: seq<Session>, b: seq<Session>, e: Event, archived: bool)
    ensures Sorted(ByID(order), a) ==> Sorted(ByID(order), Kept(a, e, archived))
    ensures SameIds(a, b) ==> SameIds(Kept(a, e, archived), Kept(b, e, archived))
  {
    var id := if e.Upsert? then e.info.id else e.id;
    if Sorted(ByID(order), a) {
      WithoutKeepsSorted(ByID(order), a, id);
    }
    if SameIds(a, b) {
      WithoutSameIds(a, b, id);
    }
  }

  /** However they were patched, the two lists are the two halves of the map's root sessions: they
      share no id, and together they hold every root session. */
  lemma ListsSplitTheRoots(order: Collation, active: seq<Session>, archived: seq<Session>, sessions: map<ID, Session>,
                           events: seq<Event>)
    requires Holds(active, sessions, false) && Holds(archived, sessions, true)
    ensures var a, b := PatchedAll(order, active, events, false), PatchedAll(order, archived, events, true);
      var m := AppliedAll(sessions, events);
      && Holds(a, m, false) && Holds(b, m, true)
      && (forall s, t :: s in a && t in b ==> s.id != t.id)
      && (forall id :: id in m && m[id].id == id && m[id].parentID.None? ==> m[id] in a || m[id] in b)
  {
    PatchedAllHolds(order, active, sessions, events, false);
    PatchedAllHolds(order, archived, sessions, events, true);
  }

  /** Two sessions as they are fetched, the later one first, and an update of the earlier one: the list
      agrees with the map before and after, is never in id order, and loses the order it was fetched in. */
  lemma UpdateKeepsPlace(order: Collation, a: Session, b: Session, later: Session)
    requires Belongs(a, false) && Belongs(b, false) && Belongs(later, false)
    requires order(a.id) < order(b.id) && later.id == a.id && a.updatedAt < b.updatedAt < later.updatedAt
    ensures var list, sessions := Fetched(order, [a, b], false), map[a.id := a, b.id := b];
      var after := Patched(order, list, Upsert(later), false);
      && list == [b, a] && Holds(list, sessions, false) && !Sorted(ByID(order), list)
      && after == [b, later] && Holds(after, Applied(sessions, Upsert(later)), false)
      && !Sorted(ByID(order), after) && !Sorted(NewestFirst(order), after)
  {
    var sessions := map[a.id := a, b.id := b];
    TwoFetched(order, a, b);
    FetchedHolds(order, [a, b], sessions, false);
    PatchHolds(order, [b, a], sessions, Upsert(later), false);
    var after := [b, later];
    assert !ByID(order)([b, a][0], [b, a][1]) && !ByID(order)(after[0], after[1]);
    assert !NewestFirst(order)(after[0], after[1]);
  }

  lemma TwoFetched(order: Collation, a: Session, b: Session)
    requires Belongs(a, false) && Belongs(b, false) && a.updatedAt < b.updatedAt
    ensures Fetched(order, [a, b], false) == [b, a]
  {
    var before := NewestFirst(order);
    assert [a, b][1..] == [b] && [b][1..] == [];
    assert Filtered([b], false) == [b] && Filtered([a, b], false) == [a, b];
    assert [a, b][..1] == [a] && [a][..0] == [];
    assert Sort(before, [a]) == [a];
    assert !before(a, b);
    assert Insert(before, [], b) == [b];
  }

  /** Where the collation tells ids apart there is only one such list in id order. */
  lemma {:induction false} SortedListIsUnique(order: Collation, a: seq<Session>, b: seq<Session>)
    requires Sorted(ByID(order), a) && Sorted(ByID(order), b) && UniqueIds(a) && UniqueIds(b)
    requires forall s :: s in a <==> s in b
    requires forall s, t :: s in a && t in a && order(s.id) == order(t.id) ==> s == t
    ensures a == b
  {
    if a == [] {
      FirstIsMember(b);
    } else {
      FirstIsLeast(order, a, b);
      var x := a[0];
      forall s
        ensures s in a[1..] <==> s in b[1..]
      {
        TailMembers(a, s);
        TailMembers(b, s);
      }
      SortedListIsUnique(order, a[1..], b[1..]);
      assert a == [x] + a[1..] && b == [x] + b[1..];
    }
  }

  lemma FirstIsMember(b: seq<Session>)
    ensures b != [] ==> b[0] in b
  {
  }

  lemma TailMembers(a: seq<Session>, s: Session)
    requires a != [] && UniqueIds(a)
    ensures s in a[1..] <==> s in a && s != a[0]
  {
    if s in a[1..] {
      var k :| 0 <= k < |a[1..]| && a[1..][k] == s;
      assert a[k + 1] == s;
    }
    assert a == [a[0]] + a[1..];
  }

  lemma FirstIsLeast(order: Collation, a: seq<Session>, b: seq<Session>)
    requires a != [] && Sorted(ByID(order), a) && Sorted(ByID(order), b) && forall s :: s in a <==> s in b
    requires forall s, t :: s in a && t in a && order(s.id) == order(t.id) ==> s == t
    ensures b != [] && a[0] == b[0]
  {
    assert a[0] in b;
    assert b[0] in a;
    var i :| 0 <= i < |b| && b[i] == a[0];
    var j :| 0 <= j < |a| && a[j] == b[0];
    assert order(a[0].id) <= order(b[0].id) <= order(a[0].id);
  }
}
