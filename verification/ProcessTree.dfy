/** Finding the live processes of a tree in a process table that may be cyclic and may repeat rows. */
module ProcessTree {

  type Pid = int

  const MAX_SAFE_INTEGER: int := 0x1F_FFFF_FFFF_FFFF

  datatype Record = Record(pid: Pid, ppid: Pid, pgid: Pid)

  predicate ValidPid(pid: Pid) { 0 < pid <= MAX_SAFE_INTEGER }

  // ---------------------------------------------------------------- specification

  predicate IsChild(rows: seq<Record>, parent: Pid, child: Pid) {
    exists i :: 0 <= i < |rows| && rows[i].ppid == parent && rows[i].pid == child
  }

  predicate IsPath(rows: seq<Record>, path: seq<Pid>) {
    path != [] && forall i :: 0 <= i < |path| - 1 ==> IsChild(rows, path[i], path[i + 1])
  }

  /** Following parent rows downwards from `root`, through any processes, dead or alive. */
  ghost predicate Reachable(rows: seq<Record>, root: Pid, p: Pid) {
    exists path :: IsPath(rows, path) && path[0] == root && path[|path| - 1] == p
  }

  lemma ReachableRoot(rows: seq<Record>, root: Pid)
    ensures Reachable(rows, root, root)
  {
    assert IsPath(rows, [root]);
  }

  lemma ReachableChild(rows: seq<Record>, root: Pid, p: Pid, c: Pid)
    requires Reachable(rows, root, p) && IsChild(rows, p, c)
    ensures Reachable(rows, root, c)
  {
    var path :| IsPath(rows, path) && path[0] == root && path[|path| - 1] == p;
    assert IsPath(rows, path + [c]);
  }

  /** A set that holds the root and is closed under children holds everything reachable. */
  lemma ClosedHoldsReachable(rows: seq<Record>, root: Pid, closed: set<Pid>, path: seq<Pid>)
    requires root in closed
    requires forall p, c :: p in closed && IsChild(rows, p, c) ==> c in closed
    requires IsPath(rows, path) && path[0] == root
    ensures path[|path| - 1] in closed
  {
    if |path| > 1 {
      var last := |path| - 1;
      assert IsPath(rows, path[..last]);
      ClosedHoldsReachable(rows, root, closed, path[..last]);
      assert IsChild(rows, path[last - 1], path[last]);
    }
  }

  predicate NoDuplicates(s: seq<Pid>) {
    forall i, j :: 0 <= i < j < |s| ==> s[i] != s[j]
  }

  // ---------------------------------------------------------------- the search

  predicate Indexed(children: map<Pid, seq<Pid>>, p: Pid, c: Pid) { p in children && c in children[p] }

  /** The index of children by parent, in row order. */
  method ChildIndex(rows: seq<Record>) returns (children: map<Pid, seq<Pid>>)
    ensures forall p, c :: Indexed(children, p, c) <==> IsChild(rows, p, c)
  {
    children := map[];
    for i := 0 to |rows|
      invariant forall p, c :: Indexed(children, p, c) <==> IsChild(rows[..i], p, c)
    {
      var row := rows[i];
      ghost var before := children;
      children := children[row.ppid := (if row.ppid in children then children[row.ppid] else []) + [row.pid]];
      forall p, c
        ensures Indexed(children, p, c) <==> IsChild(rows[..i + 1], p, c)
      {
        assert Indexed(before, p, c) <==> IsChild(rows[..i], p, c);
        assert Indexed(children, p, c) <==> Indexed(before, p, c) || (p == row.ppid && c == row.pid);
      }
    }
    assert rows[..|rows|] == rows;
  }

  /** The processes the search can meet. */
  function Known(rows: seq<Record>, root: Pid): set<Pid> {
    {root} + set i | 0 <= i < |rows| :: rows[i].pid
  }

  /** Every live process reachable from `pid`, each once; nothing else. */
  method ListProcessTreePids(rows: seq<Record>, alive: set<Pid>, pid: Pid) returns (result: seq<Pid>)
    ensures NoDuplicates(result)
    ensures forall p :: p in result <==> ValidPid(pid) && p in alive && Reachable(rows, pid, p)
  {
    result := [];
    if !ValidPid(pid) {
      return;
    }
    var children := ChildIndex(rows);
    var pending, seen := [pid], {};
    ReachableRoot(rows, pid);
    while |pending| > 0
      invariant seen <= Known(rows, pid) && (forall p :: p in pending ==> p in Known(rows, pid))
      invariant forall p :: p in pending || p in seen ==> Reachable(rows, pid, p)
      invariant forall p :: p in result <==> p in seen && p in alive
      invariant NoDuplicates(result)
      invariant pid in seen || pid in pending
      invariant forall p, c :: p in seen && IsChild(rows, p, c) ==> c in seen || c in pending
      decreases Known(rows, pid) - seen, |pending|
    {
      var current := pending[0];
      ghost var waiting := pending;
      pending := pending[1..];
      assert forall p :: p in waiting <==> p == current || p in pending;
      if current in seen {
        continue;
      }
      seen := seen + {current};
      if current in alive {
        result := result + [current];
      }
      var more := if current in children then children[current] else [];
      forall c
        ensures c in more <==> IsChild(rows, current, c)
      {
        assert Indexed(children, current, c) <==> IsChild(rows, current, c);
      }
      forall c | c in more
        ensures IsChild(rows, current, c) && Reachable(rows, pid, c) && c in Known(rows, pid)
      {
        ReachableChild(rows, pid, current, c);
      }
      pending := pending + more;
    }
    forall p | Reachable(rows, pid, p)
      ensures p in seen
    {
      var path :| IsPath(rows, path) && path[0] == pid && path[|path| - 1] == p;
      ClosedHoldsReachable(rows, pid, seen, path);
    }
  }

  /** Does this row name a live member of the group? */
  predicate InGroup(row: Record, alive: set<Pid>, pid: Pid) { row.pgid == pid && row.pid in alive }

  predicate IsMember(rows: seq<Record>, pid: Pid, p: Pid) {
    exists i :: 0 <= i < |rows| && rows[i].pgid == pid && rows[i].pid == p
  }

  /** The live members of a process group, in row order. */
  function ProcessGroupPids(rows: seq<Record>, alive: set<Pid>, pid: Pid, windows: bool): (result: seq<Pid>)
    ensures forall p :: p in result <==>
      !windows && ValidPid(pid) && p in alive && IsMember(rows, pid, p)
  {
    if windows || !ValidPid(pid) || rows == [] then []
    else
      var last := |rows| - 1;
      var earlier := ProcessGroupPids(rows[..last], alive, pid, windows);
      if InGroup(rows[last], alive, pid) then earlier + [rows[last].pid] else earlier
  }

  /** One entry for each row of the group, in row order: `at` lists these rows. */
  lemma {:induction false} GroupPidsAreTheRows(rows: seq<Record>, alive: set<Pid>, pid: Pid) returns (at: seq<nat>)
    requires ValidPid(pid)
    ensures var result := ProcessGroupPids(rows, alive, pid, false);
      |at| == |result| && forall k :: 0 <= k < |at| ==> at[k] < |rows| && result[k] == rows[at[k]].pid
    ensures forall j, k :: 0 <= j < k < |at| ==> at[j] < at[k]
    ensures forall i :: 0 <= i < |rows| ==> (i in at <==> InGroup(rows[i], alive, pid))
  {
    if rows == [] {
      return [];
    }
    var last := |rows| - 1;
    at := GroupPidsAreTheRows(rows[..last], alive, pid);
    if InGroup(rows[last], alive, pid) {
      at := at + [last];
    }
  }

  /** Each pid once, where it first stands. */
  function Unique(pids: seq<Pid>): (result: seq<Pid>)
    ensures NoDuplicates(result)
    ensures forall p :: p in result <==> p in pids
  {
    if pids == [] then []
    else
      var rest := Unique(pids[..|pids| - 1]);
      if pids[|pids| - 1] in rest then rest else rest + [pids[|pids| - 1]]
  }
}
