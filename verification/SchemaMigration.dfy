/** The schema migration journal: which steps run, over any number of crashes and restarts. */
module SchemaMigration {
  import opened Wrappers

  // ---------------------------------------------------------------- names

  /** Separators do not matter: a step may be recorded under its folder's or its module's spelling. */
  function Normalize(id: string): string {
    if id == "" then ""
    else if id[0] == '_' || id[0] == '-' then Normalize(id[1..])
    else [id[0]] + Normalize(id[1..])
  }

  predicate Recorded(journal: set<string>, id: string) {
    exists r :: r in journal && Normalize(r) == Normalize(id)
  }

  function Elements(ids: seq<string>): set<string> { set id | id in ids }

  predicate DistinctIds(ids: seq<string>) {
    forall i, j :: 0 <= i < j < |ids| ==> ids[i] != ids[j]
  }

  predicate DistinctNames(ids: seq<string>) {
    forall i, j :: 0 <= i < j < |ids| ==> Normalize(ids[i]) != Normalize(ids[j])
  }

  // ---------------------------------------------------------------- the database

  /** `ran` lists the steps whose transaction committed, in order. Rolled-back work leaves no trace. */
  datatype Db = Db(
    hasSession: bool,
    hasOther: bool,                         // tables other than the session table and the journal
    journal: Option<set<string>>,           // None while the table does not exist
    legacy: Option<seq<Option<string>>>,    // the names of the older journal, if that table exists
    ran: seq<string>)
  {
    function Journal(): set<string> { if journal.Some? then journal.value else {} }

    function LegacyNames(): set<string> {
      if legacy.None? then {} else set i | 0 <= i < |legacy.value| && legacy.value[i].Some? :: legacy.value[i].value
    }

    predicate Empty() { !hasSession && !hasOther && journal.None? && legacy.None? }
  }

  /** How a start of the program ended. A crash, or a step that fails, stops it between commits. */
  datatype Ending = Finished | Stopped | Refused

  /** The steps of a list that a journal has not recorded, in list order. */
  function Pending(input: seq<string>, journal: set<string>): seq<string> {
    if input == [] then []
    else (if Recorded(journal, input[0]) then [] else [input[0]]) + Pending(input[1..], journal)
  }

  // ---------------------------------------------------------------- one start, as a function

  /** `commits` transactions commit before the program stops. The journal was read once, before the
      first step; inserting an id that is already there violates its primary key. */
  function Steps(db: Db, input: seq<string>, completed: set<string>, commits: nat): (Db, Ending)
    requires db.journal.Some?
    decreases |input|
  {
    if input == [] then (db, Finished)
    else if Recorded(completed, input[0]) then Steps(db, input[1..], completed, commits)
    else if commits == 0 || input[0] in db.journal.value then (db, Stopped)
    else Steps(db.(journal := Some(db.journal.value + {input[0]}), ran := db.ran + [input[0]]),
               input[1..], completed, commits - 1)
  }

  function Created(db: Db): Db { db.(journal := Some(db.Journal())) }

  function Imported(db: Db): Db
    requires db.journal.Some?
  {
    db.(journal := Some(db.journal.value + db.LegacyNames()))
  }

  function AfterApplyOnly(db: Db, input: seq<string>, commits: nat): (Db, Ending) {
    if commits == 0 then (db, Stopped) else
    var created := Created(db);
    if created.journal.value == {} && created.legacy.Some? then
      if commits == 1 then (created, Stopped)
      else Steps(Imported(created), input, Imported(created).journal.value, commits - 2)
    else
      Steps(created, input, created.journal.value, commits - 1)
  }

  /** A fresh install is one transaction; an id listed twice violates the journal's primary key and
      rolls it back. */
  function AfterApply(db: Db, input: seq<string>, commits: nat): (Db, Ending) {
    if db.hasSession then AfterApplyOnly(db, input, commits)
    else if !db.Empty() then (db, Refused)
    else if commits == 0 || !DistinctIds(input) then (db, Stopped)
    else (Db(true, db.hasOther, Some(Elements(input)), None, db.ran), Finished)
  }

  // ---------------------------------------------------------------- one start, as it happens

  class Database {
    var state: Db

    constructor (state: Db)
      ensures this.state == state
    {
      this.state := state;
    }

    method ApplyOnly(input: seq<string>, commits: nat) returns (ending: Ending)
      modifies this
      ensures (state, ending) == AfterApplyOnly(old(state), input, commits)
    {
      var left := commits;
      if left == 0 {
        return Stopped;
      }
      left := left - 1;
      state := state.(journal := Some(if state.journal.Some? then state.journal.value else {}));
      var completed := state.journal.value;
      if completed == {} && state.legacy.Some? {
        if left == 0 {
          return Stopped;
        }
        left := left - 1;
        state := state.(journal := Some(state.journal.value + state.LegacyNames()));
        completed := state.journal.value;
      }
      ghost var start, budget := state, left;
      for i := 0 to |input|
        invariant state.journal.Some?
        invariant Steps(state, input[i..], completed, left) == Steps(start, input, completed, budget)
      {
        var id := input[i];
        assert input[i..][1..] == input[i + 1..];
        if !Recorded(completed, id) {
          if left == 0 || id in state.journal.value {
            return Stopped;
          }
          left := left - 1;
          state := state.(journal := Some(state.journal.value + {id}), ran := state.ran + [id]);
        }
      }
      return Finished;
    }

    method Apply(input: seq<string>, commits: nat) returns (ending: Ending)
      modifies this
      ensures (state, ending) == AfterApply(old(state), input, commits)
    {
      if state.hasSession {
        ending := ApplyOnly(input, commits);
        return;
      }
      if !state.Empty() {
        return Refused;
      }
      if commits == 0 {
        return Stopped;
      }
      var ids := {};
      for i := 0 to |input|
        invariant ids == Elements(input[..i]) && DistinctIds(input[..i]) && state == old(state)
      {
        if input[i] in ids {
          ghost var k :| 0 <= k < i && input[..i][k] == input[i];
          return Stopped;
        }
        ids := ids + {input[i]};
        assert input[..i + 1] == input[..i] + [input[i]];
      }
      assert input[..|input|] == input;
      state := Db(true, state.hasOther, Some(ids), None, state.ran);
      return Finished;
    }
  }

  // ---------------------------------------------------------------- what one start does

  /** The journal a start goes by: the older journal's names stand in for an empty one. */
  function Effective(db: Db): set<string> {
    if db.Journal() == {} then db.LegacyNames() else db.Journal()
  }

  /** The steps that commit are a leading part of the pending ones, all of them unless the start
      stopped, and each is recorded as it commits. */
  lemma {:induction false} StepsRunPending(db: Db, input: seq<string>, completed: set<string>, commits: nat)
    returns (n: nat)
    requires db.journal.Some? && completed <= db.journal.value
    ensures var (after, ending) := Steps(db, input, completed, commits);
      var pending := Pending(input, completed);
      && n <= |pending|
      && after.ran == db.ran + pending[..n]
      && after.journal == Some(db.journal.value + Elements(pending[..n]))
      && ending != Refused && (ending == Finished ==> n == |pending|)
    decreases |input|
  {
    var (after, ending) := Steps(db, input, completed, commits);
    var pending := Pending(input, completed);
    if input == [] || (!Recorded(completed, input[0]) && (commits == 0 || input[0] in db.journal.value)) {
      n := 0;
      assert db.ran + pending[..0] == db.ran && db.journal.value + Elements(pending[..0]) == db.journal.value;
    } else if Recorded(completed, input[0]) {
      n := StepsRunPending(db, input[1..], completed, commits);
    } else {
      var id, rest := input[0], Pending(input[1..], completed);
      var next := db.(journal := Some(db.journal.value + {id}), ran := db.ran + [id]);
      var m := StepsRunPending(next, input[1..], completed, commits - 1);
      n := m + 1;
      assert pending[..n] == [id] + rest[..m];
      assert next.ran + rest[..m] == db.ran + pending[..n];
      assert next.journal.value + Elements(rest[..m]) == db.journal.value + Elements(pending[..n]);
    }
  }

  /** A start on an existing database: some leading pending steps run and join the journal. */
  ghost predicate Advances(db: Db, after: Db, pending: seq<string>, n: nat) {
    && n <= |pending|
    && after.ran == db.ran + pending[..n]
    && Effective(after) == Effective(db) + Elements(pending[..n])
    && after.hasSession == db.hasSession
  }

  lemma StartAdvances(db: Db, input: seq<string>, commits: nat) returns (n: nat)
    ensures var (after, ending) := AfterApplyOnly(db, input, commits);
      var pending := Pending(input, Effective(db));
      Advances(db, after, pending, n) && ending != Refused && (ending == Finished ==> n == |pending|)
  {
    var (after, ending) := AfterApplyOnly(db, input, commits);
    var created := Created(db);
    var pending := Pending(input, Effective(db));
    var importing := created.journal.value == {} && created.legacy.Some?;
    n := 0;
    if commits == 0 || (importing && commits == 1) {
      assert db.ran + pending[..0] == db.ran && Effective(db) + Elements(pending[..0]) == Effective(db);
    } else {
      var start := if importing then Imported(created) else created;
      var left := if importing then commits - 2 else commits - 1;
      n := StepsRunPending(start, input, start.journal.value, left);
      StepsKeepTables(start, input, start.journal.value, left);
      assert start.journal.value == Effective(db);
      if after.journal.value == {} && importing {
        assert n > 0 ==> pending[0] in Elements(pending[..n]);
      }
    }
  }

  lemma {:induction false} StepsKeepTables(db: Db, input: seq<string>, completed: set<string>, commits: nat)
    requires db.journal.Some?
    ensures var after := Steps(db, input, completed, commits).0;
      after.hasSession == db.hasSession && after.legacy == db.legacy && after.journal.Some?
    decreases |input|
  {
    if input == [] {
    } else {
      if Recorded(completed, input[0]) {
        StepsKeepTables(db, input[1..], completed, commits);
      } else if commits > 0 && input[0] !in db.journal.value {
        StepsKeepTables(db.(journal := Some(db.journal.value + {input[0]}), ran := db.ran + [input[0]]),
                        input[1..], completed, commits - 1);
      }
    }
  }

  // ---------------------------------------------------------------- any number of starts

  function Starts(db: Db, input: seq<string>, schedule: seq<nat>): Db {
    if schedule == [] then db else
    var last := |schedule| - 1;
    AfterApply(Starts(db, input, schedule[..last]), input, schedule[last]).0
  }

  lemma {:induction false} PendingNames(input: seq<string>, journal: set<string>)
    ensures forall id :: id in Pending(input, journal) <==> id in input && !Recorded(journal, id)
    ensures DistinctNames(input) ==> DistinctNames(Pending(input, journal))
  {
    if input == [] {
    } else {
      PendingNames(input[1..], journal);
      var rest := Pending(input[1..], journal);
      if DistinctNames(input) {
        assert DistinctNames(input[1..]);
        forall i | 0 <= i < |rest|
          ensures Normalize(input[0]) != Normalize(rest[i])
        {
          assert rest[i] in rest && rest[i] in input[1..];
          var k :| 0 <= k < |input[1..]| && input[1..][k] == rest[i];
          assert input[k + 1] == rest[i];
        }
      }
    }
  }

  /** What is still pending after the first `n` pending steps ran is the rest of them. */
  lemma {:induction false} PendingShrinks(input: seq<string>, journal: set<string>, n: nat)
    requires DistinctNames(input) && n <= |Pending(input, journal)|
    ensures Pending(input, journal + Elements(Pending(input, journal)[..n])) == Pending(input, journal)[n..]
  {
    var pending := Pending(input, journal);
    var grown := journal + Elements(pending[..n]);
    if input == [] {
    } else {
      var id, rest := input[0], Pending(input[1..], journal);
      TailNames(input);
      if Recorded(journal, id) {
        assert pending == rest;
        PendingShrinks(input[1..], journal, n);
      } else if n == 0 {
        assert grown == journal;
      } else {
        GrownByFirst(journal, id, rest, n);
        assert pending == [id] + rest && Recorded(grown, id);
        PendingShrinks(input[1..], journal, n - 1);
        PendingIgnores(input[1..], journal + Elements(rest[..n - 1]), id);
      }
    }
  }

  lemma GrownByFirst(journal: set<string>, id: string, rest: seq<string>, n: nat)
    requires 0 < n <= |rest| + 1
    ensures id in journal + Elements(([id] + rest)[..n])
    ensures journal + Elements(([id] + rest)[..n]) == journal + Elements(rest[..n - 1]) + {id}
  {
    assert ([id] + rest)[..n] == [id] + rest[..n - 1];
  }

  lemma TailNames(input: seq<string>)
    requires input != [] && DistinctNames(input)
    ensures DistinctNames(input[1..])
    ensures forall i :: 0 <= i < |input[1..]| ==> Normalize(input[1..][i]) != Normalize(input[0])
  {
    forall i | 0 <= i < |input[1..]|
      ensures Normalize(input[1..][i]) != Normalize(input[0])
    {
      assert input[1..][i] == input[i + 1];
    }
  }

  /** A journal entry that aliases none of the steps changes nothing. */
  lemma {:induction false} PendingIgnores(input: seq<string>, journal: set<string>, id: string)
    requires forall i :: 0 <= i < |input| ==> Normalize(input[i]) != Normalize(id)
    ensures Pending(input, journal + {id}) == Pending(input, journal)
  {
    if input == [] {
    } else {
      forall i | 0 <= i < |input[1..]|
        ensures Normalize(input[1..][i]) != Normalize(id)
      {
        assert input[1..][i] == input[i + 1];
      }
      PendingIgnores(input[1..], journal, id);
      if Recorded(journal + {id}, input[0]) {
        var r :| r in journal + {id} && Normalize(r) == Normalize(input[0]);
        assert r in journal;
      }
    }
  }

  /** Exactly once and in list order: over any number of starts, each stopped after any number of
      commits, the steps that run are the pending ones of the first start, one after the other, with
      nothing twice and nothing skipped. A step recorded under any alias, in the journal or in the
      older one, is not pending and never runs. */
  lemma {:induction false} RestartsRunPendingOnce(db: Db, input: seq<string>, schedule: seq<nat>) returns (n: nat)
    requires db.hasSession && DistinctNames(input)
    ensures Advances(db, Starts(db, input, schedule), Pending(input, Effective(db)), n)
    ensures forall id :: id in Pending(input, Effective(db)) <==> id in input && !Recorded(Effective(db), id)
    ensures DistinctNames(Pending(input, Effective(db)))
  {
    var pending := Pending(input, Effective(db));
    PendingNames(input, Effective(db));
    if schedule == [] {
      n := 0;
      assert db.ran + pending[..0] == db.ran && Effective(db) + Elements(pending[..0]) == Effective(db);
    } else {
      var last := |schedule| - 1;
      var before := Starts(db, input, schedule[..last]);
      var m := RestartsRunPendingOnce(db, input, schedule[..last]);
      var k := StartAdvances(before, input, schedule[last]);
      PendingShrinks(input, Effective(db), m);
      n := m + k;
      AdvancesTwice(db, before, Starts(db, input, schedule), pending, m, k);
    }
  }

  lemma AdvancesTwice(db: Db, before: Db, after: Db, pending: seq<string>, m: nat, k: nat)
    requires Advances(db, before, pending, m) && Advances(before, after, pending[m..], k)
    ensures Advances(db, after, pending, m + k)
  {
    assert pending[..m + k] == pending[..m] + pending[m..][..k];
    assert Elements(pending[..m + k]) == Elements(pending[..m]) + Elements(pending[m..][..k]);
  }

  /** And once a start has finished, every step of the list is recorded and nothing is pending. */
  lemma FinishedStartRecordsAll(db: Db, input: seq<string>, commits: nat)
    requires DistinctNames(input) && AfterApplyOnly(db, input, commits).1 == Finished
    ensures var after := AfterApplyOnly(db, input, commits).0;
      && Pending(input, Effective(after)) == []
      && forall id :: id in input ==> Recorded(Effective(after), id)
  {
    var n := StartAdvances(db, input, commits);
    var pending := Pending(input, Effective(db));
    PendingShrinks(input, Effective(db), n);
    assert pending[..n] == pending && pending[n..] == [];
    PendingNames(input, Effective(AfterApplyOnly(db, input, commits).0));
  }

  /** Over any starts an empty database is set up exactly from a list without repetitions, by the first
      start that commits anything; until then nothing happens to it, and then its journal has the
      whole list. */
  lemma {:induction false} InstallsIff(db: Db, input: seq<string>, schedule: seq<nat>)
    requires db.Empty()
    ensures var after := Starts(db, input, schedule);
      && (after.hasSession <==> DistinctIds(input) && exists i :: 0 <= i < |schedule| && schedule[i] > 0)
      && (if after.hasSession then Elements(input) <= after.Journal() else after == db)
  {
    if schedule == [] {
    } else {
      var last := |schedule| - 1;
      InstallsIff(db, input, schedule[..last]);
      var before := Starts(db, input, schedule[..last]);
      if before.hasSession {
        var i :| 0 <= i < last && schedule[..last][i] > 0;
        assert schedule[i] > 0;
        JournalKept(before, input, schedule[last]);
        var n := StartAdvances(before, input, schedule[last]);
      } else {
        assert forall i :: 0 <= i < last ==> schedule[i] == schedule[..last][i];
      }
    }
  }

  /** A fresh install records the whole list without running it, and no restart ever runs a step. */
  lemma {:induction false} FreshInstallNeverRuns(db: Db, input: seq<string>, schedule: seq<nat>)
    requires db.Empty()
    ensures var after := Starts(db, input, schedule);
      after.ran == db.ran && (after == db || (after.hasSession && forall id :: id in input ==> id in after.Journal()))
  {
    InstallsIff(db, input, schedule);
    if schedule == [] {
    } else {
      var last := |schedule| - 1;
      FreshInstallNeverRuns(db, input, schedule[..last]);
      var before := Starts(db, input, schedule[..last]);
      if before.hasSession {
        var n := StartAdvances(before, input, schedule[last]);
        AllRecorded(before, input);
        assert n == 0;
      }
    }
  }

  lemma AllRecorded(db: Db, input: seq<string>)
    requires forall id :: id in input ==> id in db.Journal()
    ensures Pending(input, Effective(db)) == []
  {
    PendingNames(input, Effective(db));
    var pending := Pending(input, Effective(db));
    assert forall id :: id in input ==> id in Effective(db) && Recorded(Effective(db), id);
  }

  lemma JournalKept(db: Db, input: seq<string>, commits: nat)
    ensures db.Journal() <= AfterApplyOnly(db, input, commits).0.Journal()
  {
    var created := Created(db);
    var imported := Imported(created);
    var n := StepsRunPending(created, input, created.journal.value, if commits == 0 then 0 else commits - 1);
    n := StepsRunPending(imported, input, imported.journal.value, if commits < 2 then 0 else commits - 2);
  }

  // ---------------------------------------------------------------- upgrades

  /** Starts of different versions of the program, each with its own list. */
  function Upgrades(db: Db, schedule: seq<(seq<string>, nat)>): Db {
    if schedule == [] then db else
    var last := |schedule| - 1;
    AfterApplyOnly(Upgrades(db, schedule[..last]), schedule[last].0, schedule[last].1).0
  }

  /** What has run since `db` ran once under all its names, is recorded, and was not before. */
  ghost predicate RanOnce(db: Db, after: Db) {
    && db.ran <= after.ran && Effective(db) <= Effective(after)
    && DistinctNames(after.ran[|db.ran|..])
    && forall id :: id in after.ran[|db.ran|..] ==> Recorded(Effective(after), id) && !Recorded(Effective(db), id)
  }

  /** However the lists change, no step and no alias of it ever runs twice, and what the first
      journal had recorded never runs. */
  lemma {:induction false} UpgradesRunOnce(db: Db, schedule: seq<(seq<string>, nat)>)
    requires forall i :: 0 <= i < |schedule| ==> DistinctNames(schedule[i].0)
    ensures RanOnce(db, Upgrades(db, schedule))
  {
    if schedule == [] {
    } else {
      var last := |schedule| - 1;
      UpgradesRunOnce(db, schedule[..last]);
      UpgradeOnceMore(db, Upgrades(db, schedule[..last]), schedule[last].0, schedule[last].1);
    }
  }

  lemma UpgradeOnceMore(db: Db, before: Db, input: seq<string>, commits: nat)
    requires RanOnce(db, before) && DistinctNames(input)
    ensures RanOnce(db, AfterApplyOnly(before, input, commits).0)
  {
    var after := AfterApplyOnly(before, input, commits).0;
    var n := StartAdvances(before, input, commits);
    PendingNames(input, Effective(before));
    var earlier, more := before.ran[|db.ran|..], Pending(input, Effective(before))[..n];
    assert after.ran[|db.ran|..] == earlier + more;
    OnceMore(db, before, after, earlier, more);
  }

  lemma OnceMore(db: Db, before: Db, after: Db, earlier: seq<string>, more: seq<string>)
    requires DistinctNames(earlier) && DistinctNames(more)
    requires Effective(db) <= Effective(before) && Effective(after) == Effective(before) + Elements(more)
    requires forall id :: id in earlier ==> Recorded(Effective(before), id) && !Recorded(Effective(db), id)
    requires forall id :: id in more ==> !Recorded(Effective(before), id)
    ensures DistinctNames(earlier + more)
    ensures forall id :: id in earlier + more ==> Recorded(Effective(after), id) && !Recorded(Effective(db), id)
  {
    forall id | id in earlier + more
      ensures Recorded(Effective(after), id) && !Recorded(Effective(db), id)
    {
      if id in earlier {
      } else {
        assert id in Effective(after);
      }
    }
    forall i, j | 0 <= i < |earlier| && 0 <= j < |more|
      ensures Normalize(earlier[i]) != Normalize(more[j])
    {
      assert earlier[i] in earlier && more[j] in more;
      assert Recorded(Effective(before), earlier[i]) && !Recorded(Effective(before), more[j]);
    }
  }

  // ---------------------------------------------------------------- names must be distinct

  /** Two spellings of one step in the same list both run, because the journal is read only once. */
  lemma AliasesBothRun(db: Db)
    requires db.hasSession && db.Journal() == {} && db.legacy.None?
    ensures AfterApplyOnly(db, ["a_b", "a-b"], 3).0.ran == db.ran + ["a_b", "a-b"]
    ensures Normalize("a_b") == Normalize("a-b")
  {
    assert "a_b"[1..] == "_b" && "_b"[1..] == "b" && "a-b"[1..] == "-b" && "-b"[1..] == "b" && "b"[1..] == "";
    var created := Created(db);
    var one := created.(journal := Some({"a_b"}), ran := db.ran + ["a_b"]);
    var two := one.(journal := Some({"a_b", "a-b"}), ran := one.ran + ["a-b"]);
    assert ["a_b", "a-b"][1..] == ["a-b"] && ["a-b"][1..] == [];
    assert one.journal.value + {"a-b"} == two.journal.value && created.journal.value + {"a_b"} == {"a_b"};
    assert Steps(one, ["a-b"], {}, 1) == Steps(two, [], {}, 0);
    assert Steps(created, ["a_b", "a-b"], {}, 2) == Steps(one, ["a-b"], {}, 1);
    assert one.ran + ["a-b"] == db.ran + ["a_b", "a-b"];
  }

  /** Exactly when a finished start runs every name at most once: when no two pending steps of the
      list are spellings of the same one. */
  lemma RunsOnceIff(db: Db, input: seq<string>, commits: nat)
    requires AfterApplyOnly(db, input, commits).1 == Finished
    ensures var after := AfterApplyOnly(db, input, commits).0;
      && db.ran <= after.ran
      && (DistinctNames(after.ran[|db.ran|..]) <==> DistinctNames(Pending(input, Effective(db))))
  {
    var n := StartAdvances(db, input, commits);
    var pending := Pending(input, Effective(db));
    assert pending[..n] == pending;
    assert (db.ran + pending)[|db.ran|..] == pending;
  }
}
