/** Executing the tool calls of one round: which calls may run together, what every schedule of
    them guarantees, and what each execution reports. */
module ToolDispatch {
  import opened Wrappers
  import opened ToolEvents

  // ---------------------------------------------------------------- tools

  datatype Decoded = Accepted(value: string) | Refused(message: string)

  /** What a tool's `isConcurrencySafe` does with a decoded input. */
  datatype Answer = Yes | No | Threw

  datatype Tool = Tool(hasExecute: bool, decode: string -> Decoded, isConcurrencySafe: Option<string -> Answer>)

  type Tools = map<string, Tool>

  /** What running the handler of a decoded call came to. An encoded value that already has the
      shape of a tool result is used as it is. */
  datatype Execution =
    | ReturnedResult(result: ToolResultValue)
    | ReturnedValue(encoded: string)
    | HandlerFailed(message: string, error: Option<string>)
    | BadOutput(message: string)

  datatype Outcome = Outcome(result: ToolResultValue, error: Option<string>)

  function Failure(message: string): ToolResultValue { ToolResultValue(ErrorKind, message) }

  /** Every call comes to a result: what cannot be run is reported as an error to the model. */
  function Dispatched(tools: Tools, call: Call, execution: Execution): Outcome {
    if call.name !in tools then Outcome(Failure("Unknown tool: " + call.name), None)
    else if !tools[call.name].hasExecute then Outcome(Failure("Tool has no execute handler: " + call.name), None)
    else match tools[call.name].decode(call.input)
      case Refused(message) => Outcome(Failure("Invalid tool input: " + message), None)
      case Accepted(_) =>
        match execution
        case ReturnedResult(result) => Outcome(result, None)
        case ReturnedValue(encoded) => Outcome(ToolResultValue(JsonKind, encoded), None)
        case HandlerFailed(message, error) => Outcome(Failure(message), error)
        case BadOutput(message) =>
          Outcome(Failure("Tool returned an invalid value for its success schema: " + message), None)
  }

  predicate ConcurrencySafe(tools: Tools, call: Call) {
    && call.name in tools
    && tools[call.name].hasExecute
    && tools[call.name].isConcurrencySafe.Some?
    && match tools[call.name].decode(call.input)
       case Refused(_) => false
       case Accepted(value) => tools[call.name].isConcurrencySafe.value(value) == Yes
  }

  // ---------------------------------------------------------------- batches

  datatype Batch = Batch(concurrencySafe: bool, calls: seq<Call>)

  function Calls(batches: seq<Batch>): seq<Call> {
    if batches == [] then [] else batches[0].calls + Calls(batches[1..])
  }

  /** A batch is one call that must run alone, or some calls that may all run together. */
  predicate WellFormed(tools: Tools, b: Batch) {
    && b.calls != []
    && (!b.concurrencySafe ==> |b.calls| == 1)
    && forall c :: c in b.calls ==> ConcurrencySafe(tools, c) == b.concurrencySafe
  }

  /** `batches` cuts `calls` into well-formed batches, never between two safe calls. */
  predicate Partitions(tools: Tools, calls: seq<Call>, batches: seq<Batch>) {
    && Calls(batches) == calls
    && (forall b :: b in batches ==> WellFormed(tools, b))
    && forall i :: 0 < i < |batches| ==> !(batches[i - 1].concurrencySafe && batches[i].concurrencySafe)
  }

  lemma {:induction false} CallsConcat(a: seq<Batch>, b: seq<Batch>)
    ensures Calls(a + b) == Calls(a) + Calls(b)
  {
    if a == [] {
      assert a + b == b;
    } else {
      assert (a + b)[1..] == a[1..] + b;
      CallsConcat(a[1..], b);
    }
  }

  method PartitionToolCalls(tools: Tools, calls: seq<Call>) returns (batches: seq<Batch>)
    ensures Partitions(tools, calls, batches)
  {
    batches := [];
    for i := 0 to |calls|
      invariant Partitions(tools, calls[..i], batches)
    {
      var call := calls[i];
      var safe := ConcurrencySafe(tools, call);
      assert calls[..i + 1] == calls[..i] + [call];
      if safe && |batches| > 0 && batches[|batches| - 1].concurrencySafe {
        JoinLast(tools, calls[..i], batches, call);
        var last := |batches| - 1;
        batches := batches[last := Batch(true, batches[last].calls + [call])];
      } else {
        PushSingle(tools, calls[..i], batches, call);
        batches := batches + [Batch(safe, [call])];
      }
    }
    assert calls[..|calls|] == calls;
  }

  lemma JoinLast(tools: Tools, calls: seq<Call>, batches: seq<Batch>, call: Call)
    requires Partitions(tools, calls, batches) && ConcurrencySafe(tools, call)
    requires |batches| > 0 && batches[|batches| - 1].concurrencySafe
    ensures var last := |batches| - 1;
      Partitions(tools, calls + [call], batches[last := Batch(true, batches[last].calls + [call])])
  {
    var last := |batches| - 1;
    var grown := Batch(true, batches[last].calls + [call]);
    assert batches == batches[..last] + [batches[last]] && batches[last := grown] == batches[..last] + [grown];
    CallsConcat(batches[..last], [batches[last]]);
    CallsConcat(batches[..last], [grown]);
    OneBatch(batches[last]);
    OneBatch(grown);
    assert batches[last] in batches && WellFormed(tools, grown);
  }

  lemma PushSingle(tools: Tools, calls: seq<Call>, batches: seq<Batch>, call: Call)
    requires Partitions(tools, calls, batches)
    requires ConcurrencySafe(tools, call) && |batches| > 0 ==> !batches[|batches| - 1].concurrencySafe
    ensures Partitions(tools, calls + [call], batches + [Batch(ConcurrencySafe(tools, call), [call])])
  {
    var single := Batch(ConcurrencySafe(tools, call), [call]);
    CallsConcat(batches, [single]);
    OneBatch(single);
    assert WellFormed(tools, single);
  }

  lemma OneBatch(b: Batch)
    ensures Calls([b]) == b.calls
  {
    assert Calls([b][1..]) == [];
  }

  /** The cut is unique: the batches are exactly the maximal runs of safe calls and the single
      unsafe ones. */
  lemma {:induction false} PartitionUnique(tools: Tools, calls: seq<Call>, a: seq<Batch>, b: seq<Batch>)
    requires Partitions(tools, calls, a) && Partitions(tools, calls, b)
    ensures a == b
    decreases |a|
  {
    if a == [] || b == [] {
      NoBatches(tools, a);
      NoBatches(tools, b);
    } else {
      FirstBatchUnique(tools, calls, a, b);
      var n := |a[0].calls|;
      assert calls[n..] == Calls(a[1..]) == Calls(b[1..]);
      PartitionUnique(tools, calls[n..], a[1..], b[1..]);
      assert a == [a[0]] + a[1..] && b == [b[0]] + b[1..];
    }
  }

  lemma NoBatches(tools: Tools, batches: seq<Batch>)
    requires forall b :: b in batches ==> WellFormed(tools, b)
    ensures Calls(batches) == [] <==> batches == []
  {
    assert batches != [] ==> batches[0] in batches;
  }

  lemma FirstBatchUnique(tools: Tools, calls: seq<Call>, a: seq<Batch>, b: seq<Batch>)
    requires Partitions(tools, calls, a) && Partitions(tools, calls, b) && a != [] && b != []
    ensures a[0] == b[0]
  {
    FirstBatchMaximal(tools, calls, a, b);
    FirstBatchMaximal(tools, calls, b, a);
    assert a[0].calls == calls[..|a[0].calls|] && b[0].calls == calls[..|b[0].calls|];
    FirstSafety(tools, calls, a);
    FirstSafety(tools, calls, b);
  }

  lemma FirstSafety(tools: Tools, calls: seq<Call>, a: seq<Batch>)
    requires Partitions(tools, calls, a) && a != []
    ensures calls != [] && a[0].concurrencySafe == ConcurrencySafe(tools, calls[0])
  {
    assert a[0] in a && WellFormed(tools, a[0]);
    assert a[0].calls[0] == calls[0] && a[0].calls[0] in a[0].calls;
  }

  lemma FirstBatchMaximal(tools: Tools, calls: seq<Call>, a: seq<Batch>, b: seq<Batch>)
    requires Partitions(tools, calls, a) && Partitions(tools, calls, b) && a != [] && b != []
    ensures |a[0].calls| >= |b[0].calls|
  {
    var n := |a[0].calls|;
    FirstSafety(tools, calls, a);
    FirstSafety(tools, calls, b);
    assert a[0] in a && b[0] in b && WellFormed(tools, a[0]) && WellFormed(tools, b[0]);
    if n < |b[0].calls| {
      assert b[0].calls[n] == calls[n] && b[0].calls[n] in b[0].calls;
      AfterFirstBatch(tools, calls, a);
      assert false;
    }
  }

  /** What follows a batch of safe calls is not safe. */
  lemma AfterFirstBatch(tools: Tools, calls: seq<Call>, a: seq<Batch>)
    requires Partitions(tools, calls, a) && a != [] && |a[0].calls| < |calls|
    ensures a[0].concurrencySafe ==> !ConcurrencySafe(tools, calls[|a[0].calls|])
  {
    var n := |a[0].calls|;
    assert calls[n] == Calls(a[1..])[0];
    assert Calls(a[1..]) != [] && a[1..][0] == a[1] && a[1] in a;
    assert WellFormed(tools, a[1]) && a[1].calls[0] == calls[n] && a[1].calls[0] in a[1].calls;
  }

  // ---------------------------------------------------------------- every schedule

  /** The dispatcher runs one batch after the other. Calls are named by their position in the
      round; those before `next` have been started, in order. */
  datatype Dispatch = Dispatch(
    done: nat,                        // batches finished
    next: nat,                        // calls started
    running: set<nat>,
    finished: map<nat, Outcome>,
    dispatched: seq<(Call, Outcome)>) // reported, in call order

  datatype Action = Begin | End(position: nat, execution: Execution) | FinishBatch

  const START: Dispatch := Dispatch(0, 0, {}, map[], [])

  /** The position at which a batch starts. */
  function Offset(batches: seq<Batch>, k: nat): nat
    requires k <= |batches|
  {
    if k == 0 then 0 else Offset(batches, k - 1) + |batches[k - 1].calls|
  }

  /** How many calls of a batch may run at once; no bound at all for `unbounded`. */
  predicate MayBegin(concurrency: Option<nat>, safe: bool, running: nat) {
    if !safe then running < 1
    else if concurrency.None? then true
    else running < if concurrency.value == 0 then 1 else concurrency.value
  }

  function Reports(calls: seq<Call>, from: nat, to: nat, finished: map<nat, Outcome>): seq<(Call, Outcome)>
    requires from <= to <= |calls| && forall i :: from <= i < to ==> i in finished
  {
    seq(to - from, i requires 0 <= i < to - from => (calls[from + i], finished[from + i]))
  }

  function Step(tools: Tools, concurrency: Option<nat>, batches: seq<Batch>, d: Dispatch, a: Action): Option<Dispatch> {
    var calls := Calls(batches);
    if d.done >= |batches| then None else
    var lo, hi := Offset(batches, d.done), Offset(batches, d.done + 1);
    match a
    case Begin =>
      if d.next >= hi || !MayBegin(concurrency, batches[d.done].concurrencySafe, |d.running|) then None
      else Some(d.(next := d.next + 1, running := d.running + {d.next}))
    case End(i, execution) =>
      if i !in d.running || i >= |calls| then None
      else Some(d.(running := d.running - {i},
                   finished := d.finished[i := Dispatched(tools, calls[i], execution)]))
    case FinishBatch =>
      if d.next < hi || d.running != {} || hi > |calls| || lo > hi ||
         exists i :: lo <= i < hi && i !in d.finished then None
      else Some(d.(done := d.done + 1,
                   dispatched := d.dispatched + Reports(calls, lo, hi, d.finished)))
  }

  function Run(tools: Tools, concurrency: Option<nat>, batches: seq<Batch>, schedule: seq<Action>): Option<Dispatch> {
    if schedule == [] then Some(START) else
    var last := |schedule| - 1;
    match Run(tools, concurrency, batches, schedule[..last])
    case None => None
    case Some(d) => Step(tools, concurrency, batches, d, schedule[last])
  }

  lemma {:induction false} OffsetsInCalls(batches: seq<Batch>, k: nat)
    requires k <= |batches|
    ensures Offset(batches, k) <= |Calls(batches)|
    ensures Calls(batches[..k]) == Calls(batches)[..Offset(batches, k)]
    ensures |Calls(batches[..k])| == Offset(batches, k)
    ensures k == |batches| ==> Offset(batches, k) == |Calls(batches)|
  {
    assert batches == batches[..k] + batches[k..];
    CallsConcat(batches[..k], batches[k..]);
    if k > 0 {
      OffsetsInCalls(batches, k - 1);
      assert batches[..k] == batches[..k - 1] + [batches[k - 1]];
      CallsConcat(batches[..k - 1], [batches[k - 1]]);
      OneBatch(batches[k - 1]);
    }
    if k == |batches| {
      assert batches[..k] == batches;
    }
  }

  /** The call at a position of a batch is a call of that batch. */
  lemma CallOfBatch(batches: seq<Batch>, k: nat, i: nat)
    requires k < |batches| && Offset(batches, k) <= i < Offset(batches, k + 1)
    ensures i < |Calls(batches)| && Calls(batches)[i] in batches[k].calls
  {
    OffsetsInCalls(batches, k);
    OffsetsInCalls(batches, k + 1);
    assert batches[..k + 1] == batches[..k] + [batches[k]];
    CallsConcat(batches[..k], [batches[k]]);
    OneBatch(batches[k]);
    assert Calls(batches)[i] == Calls(batches)[..Offset(batches, k + 1)][i] == batches[k].calls[i - Offset(batches, k)];
  }

  predicate Invariant(batches: seq<Batch>, d: Dispatch) {
    d.done <= |batches| && Started(batches, d) && Reported(Calls(batches), Offset(batches, d.done), d)
  }

  /** Exactly the first `next` calls have been started; what runs is of the current batch. */
  predicate Started(batches: seq<Batch>, d: Dispatch)
    requires d.done <= |batches|
  {
    && Offset(batches, d.done) <= d.next <= |Calls(batches)|
    && (d.done < |batches| ==> d.next <= Offset(batches, d.done + 1))
    && (d.done == |batches| ==> d.running == {})
    && (forall i :: i in d.running ==> Offset(batches, d.done) <= i < d.next)
    && (forall i :: 0 <= i < d.next ==> i in d.running || i in d.finished)
    && (forall i :: i in d.finished ==> 0 <= i < d.next && i !in d.running)
  }

  /** The calls of the finished batches are reported, in call order. */
  predicate Reported(calls: seq<Call>, to: nat, d: Dispatch) {
    && |d.dispatched| == to <= |calls|
    && forall i :: 0 <= i < to ==> i in d.finished && d.dispatched[i] == (calls[i], d.finished[i])
  }

  lemma StepKeeps(tools: Tools, concurrency: Option<nat>, batches: seq<Batch>, d: Dispatch, a: Action)
    requires Invariant(batches, d) && Step(tools, concurrency, batches, d, a).Some?
    ensures Invariant(batches, Step(tools, concurrency, batches, d, a).value)
  {
    OffsetsInCalls(batches, d.done);
    OffsetsInCalls(batches, d.done + 1);
    var after := Step(tools, concurrency, batches, d, a).value;
    match a {
      case Begin => BeginKeeps(batches, d, after);
      case End(i, execution) => EndKeeps(batches, d, i, Dispatched(tools, Calls(batches)[i], execution), after);
      case FinishBatch => FinishKeeps(batches, d, after);
    }
  }

  lemma BeginKeeps(batches: seq<Batch>, d: Dispatch, after: Dispatch)
    requires Invariant(batches, d) && d.done < |batches| && d.next < Offset(batches, d.done + 1) <= |Calls(batches)|
    requires after == d.(next := d.next + 1, running := d.running + {d.next})
    ensures Invariant(batches, after)
  {
    assert Started(batches, after);
  }

  lemma EndKeeps(batches: seq<Batch>, d: Dispatch, i: nat, outcome: Outcome, after: Dispatch)
    requires Invariant(batches, d) && d.done < |batches| && i in d.running
    requires after == d.(running := d.running - {i}, finished := d.finished[i := outcome])
    ensures Invariant(batches, after)
  {
    assert Started(batches, after);
  }

  lemma FinishKeeps(batches: seq<Batch>, d: Dispatch, after: Dispatch)
    requires Invariant(batches, d) && d.done < |batches| && d.running == {}
    requires Offset(batches, d.done + 1) == d.next
    requires after == d.(done := d.done + 1,
                         dispatched := d.dispatched +
                           Reports(Calls(batches), Offset(batches, d.done), d.next, d.finished))
    ensures Invariant(batches, after)
  {
    ReportsFollow(Calls(batches), Offset(batches, d.done), d, after);
  }

  lemma ReportsFollow(calls: seq<Call>, from: nat, d: Dispatch, after: Dispatch)
    requires Reported(calls, from, d) && from <= d.next <= |calls|
    requires forall i :: from <= i < d.next ==> i in d.finished
    requires after == d.(done := d.done + 1, dispatched := d.dispatched + Reports(calls, from, d.next, d.finished))
    ensures Reported(calls, d.next, after)
  {
    forall i | from <= i < d.next
      ensures after.dispatched[i] == (calls[i], d.finished[i])
    {
      assert after.dispatched[i] == Reports(calls, from, d.next, d.finished)[i - from];
    }
  }

  lemma {:induction false} RunInvariant(tools: Tools, concurrency: Option<nat>, batches: seq<Batch>,
                                        schedule: seq<Action>)
    ensures var r := Run(tools, concurrency, batches, schedule); r.Some? ==> Invariant(batches, r.value)
  {
    if schedule == [] {
      if batches != [] {
        OffsetsInCalls(batches, 1);
      }
    } else {
      var last := |schedule| - 1;
      RunInvariant(tools, concurrency, batches, schedule[..last]);
      var r := Run(tools, concurrency, batches, schedule[..last]);
      if r.Some? && Step(tools, concurrency, batches, r.value, schedule[last]).Some? {
        StepKeeps(tools, concurrency, batches, r.value, schedule[last]);
      }
    }
  }

  /** Where a started call is: in the current batch, or in one that is finished. */
  lemma {:induction false} BatchOf(batches: seq<Batch>, i: nat, hi: nat) returns (k: nat)
    requires hi <= |batches| && i < Offset(batches, hi)
    ensures k < hi && Offset(batches, k) <= i < Offset(batches, k + 1)
  {
    if i < Offset(batches, hi - 1) {
      k := BatchOf(batches, i, hi - 1);
    } else {
      k := hi - 1;
    }
  }

  lemma {:induction false} OffsetMonotone(batches: seq<Batch>, j: nat, k: nat)
    requires j <= k <= |batches|
    ensures Offset(batches, j) <= Offset(batches, k)
  {
    if j == k {
    } else {
      OffsetMonotone(batches, j, k - 1);
    }
  }

  /** Isolation, at every moment of every schedule: while a call that is not concurrency-safe
      runs, nothing else does; before it every earlier call has finished; and no later call is
      started until it has. */
  lemma UnsafeCallsRunAlone(tools: Tools, concurrency: Option<nat>, calls: seq<Call>, batches: seq<Batch>,
                            schedule: seq<Action>, u: nat)
    requires Partitions(tools, calls, batches)
    requires Run(tools, concurrency, batches, schedule).Some?
    requires u < |calls| && !ConcurrencySafe(tools, calls[u])
    ensures var d := Run(tools, concurrency, batches, schedule).value;
      && (u in d.running ==> d.running == {u})
      && (u < d.next ==> forall i :: 0 <= i < u ==> i in d.finished)
      && (u + 1 < d.next ==> u in d.finished)
  {
    RunInvariant(tools, concurrency, batches, schedule);
    var k := OwnBatch(tools, calls, batches, u);
    OwnBatchRunsAlone(batches, Run(tools, concurrency, batches, schedule).value, k, u);
  }

  /** A call that is not concurrency-safe is a batch of its own. */
  lemma OwnBatch(tools: Tools, calls: seq<Call>, batches: seq<Batch>, u: nat) returns (k: nat)
    requires Partitions(tools, calls, batches) && u < |calls| && !ConcurrencySafe(tools, calls[u])
    ensures k < |batches| && Offset(batches, k) == u && Offset(batches, k + 1) == u + 1
  {
    OffsetsInCalls(batches, |batches|);
    k := BatchOf(batches, u, |batches|);
    CallOfBatch(batches, k, u);
    assert batches[k] in batches && WellFormed(tools, batches[k]);
  }

  lemma OwnBatchRunsAlone(batches: seq<Batch>, d: Dispatch, k: nat, u: nat)
    requires Invariant(batches, d)
    requires k < |batches| && Offset(batches, k) == u && Offset(batches, k + 1) == u + 1
    ensures u in d.running ==> d.running == {u}
    ensures u < d.next ==> forall i :: 0 <= i < u ==> i in d.finished
    ensures u + 1 < d.next ==> u in d.finished
  {
    if d.done < k {
      OffsetMonotone(batches, d.done + 1, k);
      assert d.next <= u;
    } else if d.done > k {
      OffsetMonotone(batches, k + 1, d.done);
      assert forall i :: i in d.running ==> u < i;
    } else {
      assert forall i :: i in d.running ==> i == u;
    }
  }

  /** Calls that do run together are all safe, of one batch, and at most as many as allowed. */
  lemma {:induction false} OverlapIsBounded(tools: Tools, concurrency: Option<nat>, calls: seq<Call>,
                                            batches: seq<Batch>, schedule: seq<Action>)
    requires Partitions(tools, calls, batches)
    requires Run(tools, concurrency, batches, schedule).Some?
    ensures var d := Run(tools, concurrency, batches, schedule).value;
      && (|d.running| > 1 ==> d.done < |batches| && batches[d.done].concurrencySafe)
      && (concurrency.Some? ==> |d.running| <= if concurrency.value == 0 then 1 else concurrency.value)
  {
    if schedule == [] {
    } else {
      var last := |schedule| - 1;
      OverlapIsBounded(tools, concurrency, calls, batches, schedule[..last]);
      RunInvariant(tools, concurrency, batches, schedule[..last]);
      var before := Run(tools, concurrency, batches, schedule[..last]).value;
      var after := Run(tools, concurrency, batches, schedule).value;
      match schedule[last] {
        case Begin => assert |before.running + {before.next}| <= |before.running| + 1;
        case End(i, _) => assert |before.running - {i}| < |before.running|;
        case FinishBatch =>
      }
    }
  }

  /** When the last batch is finished every call has exactly one report, in call order, and it is
      the outcome of that call whatever order the executions ended in. */
  lemma ReportsInCallOrder(tools: Tools, concurrency: Option<nat>, calls: seq<Call>, batches: seq<Batch>,
                           schedule: seq<Action>)
    requires Partitions(tools, calls, batches)
    requires Run(tools, concurrency, batches, schedule).Some?
    requires Run(tools, concurrency, batches, schedule).value.done == |batches|
    ensures var d := Run(tools, concurrency, batches, schedule).value;
      && |d.dispatched| == |calls|
      && forall i :: 0 <= i < |calls| ==>
           d.dispatched[i].0 == calls[i] && Executed(tools, calls[i], i, schedule, d.dispatched[i].1)
  {
    RunInvariant(tools, concurrency, batches, schedule);
    OffsetsInCalls(batches, |batches|);
    var d := Run(tools, concurrency, batches, schedule).value;
    forall i | 0 <= i < |calls|
      ensures Executed(tools, calls[i], i, schedule, d.dispatched[i].1)
    {
      FinishedWasExecuted(tools, concurrency, batches, schedule, i);
    }
  }

  /** `outcome` is what an execution of the call at position `i` in this schedule came to. */
  ghost predicate Executed(tools: Tools, call: Call, i: nat, schedule: seq<Action>, outcome: Outcome) {
    exists t :: 0 <= t < |schedule| && schedule[t].End? && schedule[t].position == i &&
                outcome == Dispatched(tools, call, schedule[t].execution)
  }

  lemma {:induction false} FinishedWasExecuted(tools: Tools, concurrency: Option<nat>, batches: seq<Batch>,
                                               schedule: seq<Action>, i: nat)
    requires Run(tools, concurrency, batches, schedule).Some?
    requires i in Run(tools, concurrency, batches, schedule).value.finished && i < |Calls(batches)|
    ensures var d := Run(tools, concurrency, batches, schedule).value;
      Executed(tools, Calls(batches)[i], i, schedule, d.finished[i])
  {
    if schedule == [] {
    } else {
      var last := |schedule| - 1;
      var d := Run(tools, concurrency, batches, schedule).value;
      if schedule[last].End? && schedule[last].position == i {
        assert d.finished[i] == Dispatched(tools, Calls(batches)[i], schedule[last].execution);
      } else {
        FinishedWasExecuted(tools, concurrency, batches, schedule[..last], i);
        var t :| 0 <= t < last && schedule[..last][t].End? && schedule[..last][t].position == i &&
                 d.finished[i] == Dispatched(tools, Calls(batches)[i], schedule[..last][t].execution);
        assert schedule[t] == schedule[..last][t];
      }
    }
  }

  lemma {:induction false} EndedIsFinished(tools: Tools, concurrency: Option<nat>, batches: seq<Batch>,
                                           schedule: seq<Action>, t: nat)
    requires Run(tools, concurrency, batches, schedule).Some? && t < |schedule| && schedule[t].End?
    ensures schedule[t].position in Run(tools, concurrency, batches, schedule).value.finished
  {
    var last := |schedule| - 1;
    if t == last {
    } else {
      EndedIsFinished(tools, concurrency, batches, schedule[..last], t);
    }
  }

  /** No call is ever executed twice. */
  lemma {:induction false} ExecutedOnce(tools: Tools, concurrency: Option<nat>, batches: seq<Batch>,
                                        schedule: seq<Action>, t: nat, u: nat)
    requires Run(tools, concurrency, batches, schedule).Some? && t < u < |schedule|
    requires schedule[t].End? && schedule[u].End?
    ensures schedule[t].position != schedule[u].position
  {
    var last := |schedule| - 1;
    var before := BeforeLast(tools, concurrency, batches, schedule);
    if u < last {
      ExecutedOnce(tools, concurrency, batches, schedule[..last], t, u);
    } else {
      FinishedCannotEnd(tools, concurrency, batches, schedule[..last], before, t, schedule[u]);
    }
  }

  lemma FinishedCannotEnd(tools: Tools, concurrency: Option<nat>, batches: seq<Batch>, schedule: seq<Action>,
                          d: Dispatch, t: nat, a: Action)
    requires Run(tools, concurrency, batches, schedule) == Some(d) && t < |schedule| && schedule[t].End?
    requires a.End? && Step(tools, concurrency, batches, d, a).Some?
    ensures schedule[t].position != a.position
  {
    EndedIsFinished(tools, concurrency, batches, schedule, t);
    RunInvariant(tools, concurrency, batches, schedule);
  }

  lemma BeforeLast(tools: Tools, concurrency: Option<nat>, batches: seq<Batch>, schedule: seq<Action>)
    returns (before: Dispatch)
    requires schedule != [] && Run(tools, concurrency, batches, schedule).Some?
    ensures Run(tools, concurrency, batches, schedule[..|schedule| - 1]) == Some(before)
    ensures Step(tools, concurrency, batches, before, schedule[|schedule| - 1]).Some?
  {
    before := Run(tools, concurrency, batches, schedule[..|schedule| - 1]).value;
  }

  // ---------------------------------------------------------------- every schedule ends

  function WorkLeft(batches: seq<Batch>, d: Dispatch): int {
    2 * (|Calls(batches)| - d.next) + |d.running| + (|batches| - d.done)
  }

  lemma StepUsesWork(tools: Tools, concurrency: Option<nat>, batches: seq<Batch>, d: Dispatch, a: Action)
    requires Invariant(batches, d) && Step(tools, concurrency, batches, d, a).Some?
    ensures 0 <= WorkLeft(batches, Step(tools, concurrency, batches, d, a).value) < WorkLeft(batches, d)
  {
    StepKeeps(tools, concurrency, batches, d, a);
    match a {
      case Begin => assert |d.running + {d.next}| == |d.running| + 1;
      case End(i, _) => assert |d.running - {i}| == |d.running| - 1;
      case FinishBatch =>
    }
  }

  /** No schedule gets stuck: until all batches are finished, a running call may end, the next
      call may begin, or the batch is complete. */
  lemma SomethingCanHappen(tools: Tools, concurrency: Option<nat>, batches: seq<Batch>, d: Dispatch,
                           execution: Execution)
    returns (a: Action)
    requires Invariant(batches, d) && d.done < |batches|
    ensures Step(tools, concurrency, batches, d, a).Some?
  {
    OffsetsInCalls(batches, d.done + 1);
    if d.running != {} {
      var i :| i in d.running;
      a := End(i, execution);
    } else if d.next < Offset(batches, d.done + 1) {
      a := Begin;
    } else {
      a := FinishBatch;
    }
  }
}
