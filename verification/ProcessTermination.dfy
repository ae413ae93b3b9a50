/** TERM, wait, KILL, wait: terminating a process tree in a world where processes die and fork
    between any two operations. */
module ProcessTermination {
  import opened Wrappers
  import opened ProcessTree

  // ---------------------------------------------------------------- the world

  /** What a `kill` system call answers. */
  datatype KillAnswer = Delivered | NoSuchProcess | Invalid | NotPermitted

  /** What the system looks like to one operation, and how long that operation takes beyond what
      was asked of it. Reading the process table and probing which processes live are operations of
      their own. */
  datatype Snapshot = Snapshot(
    rows: seq<Record>,
    inspectable: bool,       // does the process inspector answer?
    alive: set<Pid>,
    groupAlive: bool,
    kill: KillAnswer,
    taskkillFails: bool,
    elapsed: nat)

  /** The operations of a run are numbered; nothing relates one snapshot to the next. */
  type World = nat -> Snapshot

  datatype Platform = Unix | Windows(release: bool, guardian: bool)

  datatype Options = Options(platform: Platform, graceMs: int, verifyMs: int, pollMs: int)

  // ---------------------------------------------------------------- results and traces

  datatype Signal = Term | Kill

  datatype State = Exited | Killed | KillFailed

  datatype Result = Result(state: State, remaining: seq<Pid>, signal: Option<Signal>, error: bool, degraded: bool)

  datatype Outcome = Reported(result: Result) | Threw

  /** What a run did, in order: `at` is the number of the operation. */
  datatype Act =
    | Sending(signal: Signal, group: bool, at: nat)
    | Quiet(at: nat)
    | TimedOut(at: nat)
    | InspectionFailed(at: nat)

  // ---------------------------------------------------------------- one look at the processes

  /** A look takes five operations: the table and the probes of the tree search, those of the group
      search, and the probes of the original tree. */
  const LOOK: nat := 5

  /** In the tree of the table read at `k`, and alive when probed after that. */
  ghost predicate InTree(w: World, k: nat, pid: Pid, p: Pid) {
    ValidPid(pid) && Reachable(w(k).rows, pid, p) && p in w(k + 1).alive
  }

  predicate InGroupOf(w: World, k: nat, pid: Pid, platform: Platform, p: Pid) {
    platform.Unix? && ValidPid(pid) && IsMember(w(k + 2).rows, pid, p) && p in w(k + 3).alive
  }

  /** The live processes of the tree and of the group of `pid`, as a look that starts at `k` sees them. */
  ghost predicate IsActive(w: World, k: nat, pid: Pid, platform: Platform, p: Pid) {
    InTree(w, k, pid, p) || InGroupOf(w, k, pid, platform, p)
  }

  /** Do all process tables of a look that starts at `k` answer? There are no groups on Windows. */
  predicate Inspects(w: World, k: nat, platform: Platform) {
    w(k).inspectable && (platform.Unix? ==> w(k + 2).inspectable)
  }

  /** A look that starts at `k` sees nothing alive in the tree or the group, and nothing left of the
      original tree. */
  ghost predicate QuietAt(w: World, k: nat, pid: Pid, original: seq<Pid>, platform: Platform) {
    && Inspects(w, k, platform)
    && (forall p :: !IsActive(w, k, pid, platform, p))
    && forall p :: p in original ==> p !in w(k + 4).alive
  }

  /** In particular the leader was gone when it was probed, and so was every process that any chain of
      parents in the table read just before led to. */
  lemma QuietLeaderIsGone(w: World, k: nat, pid: Pid, original: seq<Pid>, platform: Platform)
    requires ValidPid(pid) && QuietAt(w, k, pid, original, platform)
    ensures pid !in w(k + 1).alive
    ensures forall p :: Reachable(w(k).rows, pid, p) ==> p !in w(k + 1).alive
  {
    ReachableRoot(w(k).rows, pid);
    assert !IsActive(w, k, pid, platform, pid);
    forall p | Reachable(w(k).rows, pid, p)
      ensures p !in w(k + 1).alive
    {
      assert !IsActive(w, k, pid, platform, p);
    }
  }

  /** So at the moment of the probes nothing of the tree was alive exactly if everything alive in the
      tree of that moment was in the tree of the table: what forks in between is missed. */
  lemma QuietMeansGoneIff(w: World, k: nat, pid: Pid, original: seq<Pid>, platform: Platform)
    requires ValidPid(pid) && QuietAt(w, k, pid, original, platform)
    ensures var now := w(k + 1);
      (forall p :: !LivesInTree(now, pid, p)) <==>
        forall p :: LivesInTree(now, pid, p) ==> Reachable(w(k).rows, pid, p)
  {
    QuietLeaderIsGone(w, k, pid, original, platform);
    var now := w(k + 1);
    assert forall p :: LivesInTree(now, pid, p) ==> !Reachable(w(k).rows, pid, p);
  }

  ghost predicate LivesInTree(s: Snapshot, pid: Pid, p: Pid) { Reachable(s.rows, pid, p) && p in s.alive }

  /** A leader that forks after the table was read and is gone when it is probed. */
  lemma ForkIsMissed(pid: Pid, child: Pid) returns (w: World)
    requires ValidPid(pid) && ValidPid(child) && child != pid
    ensures QuietAt(w, 0, pid, [pid], Unix)
    ensures LivesInTree(w(1), pid, child)
  {
    var before := Snapshot([], true, {pid}, true, Delivered, false, 0);
    var after := Snapshot([Record(child, pid, child)], true, {child}, false, Delivered, false, 0);
    w := (k: nat) => if k == 0 then before else after;
    assert after.rows[0].ppid == pid && after.rows[0].pid == child;
    ReachableRoot(after.rows, pid);
    ReachableChild(after.rows, pid, pid, child);
    forall p
      ensures !IsActive(w, 0, pid, Unix, p)
    {
      if Reachable(before.rows, pid, p) {
        NoRowsReachOnlyTheRoot(pid, p);
      }
    }
  }

  lemma NoRowsReachOnlyTheRoot(root: Pid, p: Pid)
    requires Reachable([], root, p)
    ensures p == root
  {
    var path :| IsPath([], path) && path[0] == root && path[|path| - 1] == p;
    assert |path| > 1 ==> IsChild([], path[0], path[1]);
  }

  // ---------------------------------------------------------------- operations

  method ActiveProcessPids(w: World, k: nat, pid: Pid, platform: Platform) returns (active: seq<Pid>)
    ensures forall p :: p in active <==> IsActive(w, k, pid, platform, p)
    ensures NoDuplicates(active)
  {
    var tree := ListProcessTreePids(w(k).rows, w(k + 1).alive, pid);
    var group := ProcessGroupPids(w(k + 2).rows, w(k + 3).alive, pid, platform.Windows?);
    active := Unique(tree + group);
  }

  /** A timer never fires in less than a millisecond. */
  function Slept(ms: int): int { if ms < 1 then 1 else ms }

  function Max(a: int, b: int): int { if a < b then b else a }
  function Min(a: int, b: int): int { if a < b then a else b }

  datatype WaitOutcome = Dead | StillAlive | WaitThrew

  /** Observe, and sleep, until everything is dead or the deadline has passed. The loop ends because
      the clock moves towards the deadline. */
  method WaitUntilDead(w: World, op: nat, clock: int, pid: Pid, original: seq<Pid>, platform: Platform,
                       timeoutMs: int, pollMs: int)
    returns (outcome: WaitOutcome, next: nat, now: int, last: Act)
    ensures op <= last.at && clock <= now && last.at + LOOK == next
    ensures outcome == Dead <==> last == Quiet(last.at)
    ensures outcome == Dead ==> QuietAt(w, last.at, pid, original, platform)
    ensures outcome == StillAlive <==> last == TimedOut(last.at)
    ensures outcome == StillAlive ==>
      && clock + Max(0, timeoutMs) <= now
      && Inspects(w, last.at, platform) && !QuietAt(w, last.at, pid, original, platform)
    ensures outcome == WaitThrew <==> last == InspectionFailed(last.at)
    ensures outcome == WaitThrew ==> !Inspects(w, last.at, platform)
  {
    next, now := op, clock;
    var deadline := clock + Max(0, timeoutMs);
    while true
      invariant op <= next && clock <= now
      decreases deadline - now
    {
      var at := next;
      next := next + LOOK;
      if !Inspects(w, at, platform) {
        return WaitThrew, next, now, InspectionFailed(at);
      }
      var current := ActiveProcessPids(w, at, pid, platform);
      now := now + w(at).elapsed;
      var stillThere := exists p | p in original :: p in w(at + 4).alive;
      if current == [] && !stillThere {
        return Dead, next, now, Quiet(at);
      }
      if now >= deadline {
        if current != [] {
          assert IsActive(w, at, pid, platform, current[0]);
        }
        return StillAlive, next, now, TimedOut(at);
      }
      now := now + Slept(Min(pollMs, Max(1, deadline - now)));
    }
  }

  /** The system took the signal: on Unix it reached the group or, failing that, the leader, or there
      was nobody left for it to reach. */
  predicate Accepted(w: World, op: nat, platform: Platform) {
    match platform
    case Windows(release, guardian) => !w(op).taskkillFails && (release ==> guardian)
    case Unix =>
      var first, second := w(op).kill, w(op + 1).kill;
      || first == Delivered
      || (first == NoSuchProcess && (second == Delivered || second == NoSuchProcess))
      || (first == Invalid && second == Delivered)
  }

  /** One signal; a group that does not exist makes it address the leader itself. */
  method Send(w: World, op: nat, platform: Platform) returns (sent: bool, degraded: bool, next: nat)
    ensures op < next
    ensures sent <==> Accepted(w, op, platform)
    ensures degraded <==> sent && platform.Windows? && !platform.guardian
  {
    if platform.Windows? {
      if platform.release && !platform.guardian {
        return false, false, op + 1;
      }
      return !w(op).taskkillFails, !w(op).taskkillFails && !platform.guardian, op + 1;
    }
    match w(op).kill {
      case Delivered => return true, false, op + 1;
      case NoSuchProcess =>
        return w(op + 1).kill == Delivered || w(op + 1).kill == NoSuchProcess, false, op + 2;
      case Invalid => return w(op + 1).kill == Delivered, false, op + 2;
      case NotPermitted => return false, false, op + 1;
    }
  }

  // ---------------------------------------------------------------- the protocol

  /** KILL only ever follows a TERM whose wait ran out. */
  predicate Escalates(trace: seq<Act>) {
    forall i :: 0 <= i < |trace| && trace[i].Sending? ==>
      if trace[i].signal == Term then i == 0
      else i == 2 && trace[0].Sending? && trace[0].signal == Term && trace[1].TimedOut?
  }

  /** The operations of a trace come one after the other. */
  predicate InOrder(trace: seq<Act>) {
    forall i, j :: 0 <= i < j < |trace| ==> trace[i].at < trace[j].at
  }

  predicate Signalled(trace: seq<Act>) { trace != [] }

  /** The protocol did not get past its signals: one was not taken, or the wait after TERM could not
      look at the processes. */
  predicate Interrupted(w: World, platform: Platform, trace: seq<Act>) {
    || (exists i :: 0 <= i < |trace| && trace[i].Sending? && !Accepted(w, trace[i].at, platform))
    || (|trace| > 1 && trace[1].InspectionFailed?)
  }

  /** What a report promises, whatever the world did. */
  ghost predicate Honest(w: World, pid: Pid, platform: Platform, original: seq<Pid>, trace: seq<Act>, r: Result) {
    match r.state
    case Exited =>
      && r.signal.None? && !r.error && r.remaining == []
      && if !Signalled(trace) then !ValidPid(pid) || (pid !in w(0).alive && (platform.Windows? || !w(1).groupAlive))
         else Interrupted(w, platform, trace) && EndsQuiet(w, pid, platform, original, trace)
    case Killed =>
      && !r.error && r.remaining == []
      && !Interrupted(w, platform, trace) && EndsQuiet(w, pid, platform, original, trace)
      && LastSignal(trace, r.signal)
    case KillFailed =>
      && |trace| >= 2 && trace[|trace| - 1].TimedOut?
      && !QuietAt(w, trace[|trace| - 1].at, pid, original, platform)
      && if Interrupted(w, platform, trace) then r.error && r.signal == Some(Term) && r.remaining == [pid]
         else
           && !r.error && r.signal == Some(Kill) && LastSignal(trace, r.signal)
           && IsLeft(w, trace[|trace| - 1].at + LOOK, pid, platform, original, r.remaining)
  }

  /** The signal of the report is the one sent right before the last wait. */
  predicate LastSignal(trace: seq<Act>, signal: Option<Signal>) {
    |trace| >= 2 && trace[|trace| - 2].Sending? && signal == Some(trace[|trace| - 2].signal)
  }

  /** What the observation at `k` still saw: everything active or, when nothing is, what survives of
      the original tree; each pid once. */
  ghost predicate IsLeft(w: World, k: nat, pid: Pid, platform: Platform, original: seq<Pid>, remaining: seq<Pid>) {
    && NoDuplicates(remaining)
    && if exists p :: IsActive(w, k, pid, platform, p)
       then forall p :: p in remaining <==> IsActive(w, k, pid, platform, p)
       else forall p :: p in remaining <==> p in original && p in w(k + 4).alive
  }

  /** The last thing the run did was to see that nothing was left, after its last signal. */
  ghost predicate EndsQuiet(w: World, pid: Pid, platform: Platform, original: seq<Pid>, trace: seq<Act>) {
    && |trace| >= 2
    && trace[0].Sending?
    && trace[|trace| - 1].Quiet?
    && QuietAt(w, trace[|trace| - 1].at, pid, original, platform)
  }

  lemma OneMoreWait(w: World, platform: Platform, trace: seq<Act>, last: Act)
    requires trace != [] && trace[0].Sending? && !last.Sending?
    requires |trace| == 1 ==> Interrupted(w, platform, trace)
    ensures last.Quiet? || last.TimedOut? ==>
      (Interrupted(w, platform, trace + [last]) <==> Interrupted(w, platform, trace))
  {
    var more := trace + [last];
    assert forall i :: 0 <= i < |trace| ==> more[i] == trace[i];
    if i :| 0 <= i < |trace| && trace[i].Sending? && !Accepted(w, trace[i].at, platform) {
      assert more[i] == trace[i];
    }
  }

  datatype Escalation = DiedOfTerm | KillSent | Failed

  /** How the first part of the protocol ends: `trace` is what it did before operation `op`. */
  ghost predicate Escalated(w: World, pid: Pid, o: Options, original: seq<Pid>, escalation: Escalation,
                            trace: seq<Act>, op: nat)
  {
    && trace != [] && trace[0].Sending? && trace[0].signal == Term
    && Escalates(trace) && InOrder(trace) && (forall i :: 0 <= i < |trace| ==> trace[i].at < op)
    && match escalation
       case DiedOfTerm =>
         && |trace| == 2 && trace[1].Quiet? && QuietAt(w, trace[1].at, pid, original, o.platform)
         && !Interrupted(w, o.platform, trace)
       case KillSent =>
         && |trace| == 3 && trace[2].Sending? && trace[2].signal == Kill && !Interrupted(w, o.platform, trace)
       case Failed => Interrupted(w, o.platform, trace)
  }

  predicate Degrades(w: World, platform: Platform, trace: seq<Act>) {
    trace != [] && platform.Windows? && !platform.guardian && Accepted(w, trace[0].at, platform)
  }

  /** TERM, wait, and KILL if the wait ran out: the part of the protocol that may throw. */
  method Escalate(w: World, pid: Pid, o: Options, groupAlive: bool, original: seq<Pid>)
    returns (escalation: Escalation, trace: seq<Act>, degraded: bool, op: nat, clock: int)
    ensures Escalated(w, pid, o, original, escalation, trace, op)
    ensures forall i :: 0 <= i < |trace| && trace[i].Sending? ==> trace[i].group == groupAlive
    ensures degraded <==> Degrades(w, o.platform, trace)
  {
    var sent;
    op, clock := 2 + LOOK, 0;
    trace := [Sending(Term, groupAlive, op)];
    sent, degraded, op := Send(w, op, o.platform);
    if !sent {
      return Failed, trace, degraded, op, clock;
    }
    var waited, last;
    waited, op, clock, last := WaitUntilDead(w, op, clock, pid, original, o.platform, o.graceMs, o.pollMs);
    trace := trace + [last];
    if waited == Dead {
      return DiedOfTerm, trace, degraded, op, clock;
    }
    if waited == WaitThrew {
      return Failed, trace, degraded, op, clock;
    }
    trace := trace + [Sending(Kill, groupAlive, op)];
    var fallback;
    sent, fallback, op := Send(w, op, o.platform);
    if !sent {
      assert trace[2].Sending?;
      return Failed, trace, degraded, op, clock;
    }
    return KillSent, trace, fallback, op, clock;
  }

  /** The last wait, and the report. */
  method Verify(w: World, pid: Pid, o: Options, original: seq<Pid>, escalation: Escalation, before: seq<Act>,
                degraded: bool, start: nat, since: int)
    returns (outcome: Outcome, last: Act)
    requires escalation != DiedOfTerm && Escalated(w, pid, o, original, escalation, before, start)
    requires NoDuplicates(original)
    ensures !last.Sending? && start <= last.at
    ensures outcome.Reported? ==>
      Honest(w, pid, o.platform, original, before + [last], outcome.result) && outcome.result.degraded == degraded
    ensures outcome == Threw ==> exists k :: !Inspects(w, k, o.platform)
  {
    var waited, op, clock;
    waited, op, clock, last := WaitUntilDead(w, start, since, pid, original, o.platform, o.verifyMs, o.pollMs);
    OneMoreWait(w, o.platform, before, last);
    if waited == WaitThrew {
      return Threw, last;
    }
    if escalation == Failed {
      if waited == Dead {
        return Reported(Result(Exited, [], None, false, degraded)), last;
      }
      return Reported(Result(KillFailed, [pid], Some(Term), true, degraded)), last;
    }
    if waited == Dead {
      return Reported(Result(Killed, [], Some(Kill), false, degraded)), last;
    }
    if !Inspects(w, op, o.platform) {
      return Threw, last;
    }
    var remaining := Remaining(w, op, pid, o.platform, original);
    return Reported(Result(KillFailed, remaining, Some(Kill), false, degraded)), last;
  }

  method Remaining(w: World, op: nat, pid: Pid, platform: Platform, original: seq<Pid>) returns (remaining: seq<Pid>)
    requires NoDuplicates(original)
    ensures IsLeft(w, op, pid, platform, original, remaining)
  {
    var active := ActiveProcessPids(w, op, pid, platform);
    assert active != [] ==> active[0] in active;
    remaining := if active != [] then active else Survivors(original, w(op + 4).alive);
  }

  /** Terminate a process tree and say what became of it. `original` is the tree as it was found:
      everything active when the leader was still alive. */
  method TerminateProcessTree(w: World, pid: Pid, o: Options)
    returns (outcome: Outcome, original: seq<Pid>, trace: seq<Act>)
    ensures Escalates(trace) && InOrder(trace)
    ensures outcome.Reported? ==> Honest(w, pid, o.platform, original, trace, outcome.result)
    ensures original != [] ==> pid in w(0).alive
    ensures Signalled(trace) && pid in w(0).alive ==> forall p :: p in original <==> IsActive(w, 2, pid, o.platform, p)
    ensures forall i :: 0 <= i < |trace| && trace[i].Sending? ==>
      trace[i].group == (o.platform.Unix? && w(1).groupAlive)
    ensures outcome.Reported? ==> (outcome.result.degraded <==> Degrades(w, o.platform, trace))
    ensures outcome == Threw ==> exists k :: !Inspects(w, k, o.platform)
  {
    original, trace := [], [];
    if !ValidPid(pid) {
      return Reported(Result(Exited, [], None, false, false)), original, trace;
    }
    var leaderAlive := pid in w(0).alive;
    var groupAlive := o.platform.Unix? && w(1).groupAlive;
    if !leaderAlive && !groupAlive {
      return Reported(Result(Exited, [], None, false, false)), original, trace;
    }
    if leaderAlive {
      if !Inspects(w, 2, o.platform) {
        return Threw, original, trace;
      }
      original := ActiveProcessPids(w, 2, pid, o.platform);
    }

    var escalation, degraded, op, clock;
    escalation, trace, degraded, op, clock := Escalate(w, pid, o, groupAlive, original);
    if escalation == DiedOfTerm {
      return Reported(Result(Killed, [], Some(Term), false, degraded)), original, trace;
    }
    var last;
    outcome, last := Verify(w, pid, o, original, escalation, trace, degraded, op, clock);
    trace := trace + [last];
  }

  function Survivors(original: seq<Pid>, alive: set<Pid>): (left: seq<Pid>)
    ensures forall p :: p in left <==> p in original && p in alive
    ensures NoDuplicates(original) ==> NoDuplicates(left)
  {
    if original == [] then []
    else (if original[0] in alive then [original[0]] else []) + Survivors(original[1..], alive)
  }
}
