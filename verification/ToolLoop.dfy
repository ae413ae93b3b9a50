/** Model rounds: stream one, execute its tool calls, ask again with the results. */
module ToolLoop {
  import opened Wrappers
  import opened ToolEvents
  import opened ToolAccumulate
  import opened ToolDispatch

  datatype Message =
    | Earlier(text: string)
    | Assistant(content: seq<Part>)
    | ToolMessage(id: string, name: string, result: ToolResultValue)

  datatype ToolDefinition = ToolDefinition(name: string, schema: string)

  datatype Request = Request(model: string, tools: seq<ToolDefinition>, messages: seq<Message>)

  /** One model stream: what it emitted, and whether it then failed. */
  datatype Streamed = Streamed(events: seq<Event>, failed: bool)

  type StopCondition = (nat, Request) -> bool

  function StepCountIs(count: int): StopCondition {
    (step: nat, request: Request) => step + 1 >= count
  }

  /** The model and the executions are arbitrary: every round and every call may answer anything. */
  datatype Options = Options(
    tools: Tools,
    execute: bool,
    stopWhen: Option<StopCondition>,
    model: (nat, Request) -> Streamed,
    executions: (nat, nat) -> Execution)

  datatype Output = Output(events: seq<Event>, requests: seq<Request>, failed: bool)

  // ---------------------------------------------------------------- the pieces of one round

  function Indexed(e: Event, step: nat): Event {
    match e
    case StepStart(_) => StepStart(step)
    case StepFinish(_, reason, usage, metadata) => StepFinish(step, reason, usage, metadata)
    case _ => e
  }

  function IndexAll(events: seq<Event>, step: nat): seq<Event> {
    seq(|events|, i requires 0 <= i < |events| => Indexed(events[i], step))
  }

  /** The model's own finish events are withheld. */
  function Visible(events: seq<Event>): seq<Event> {
    if events == [] then [] else
    (if events[0].Finish? then [] else [events[0]]) + Visible(events[1..])
  }

  function RoundState(o: Options, step: nat, request: Request): Step {
    Round(IndexAll(o.model(step, request).events, step))
  }

  predicate Answered(o: Options, s: Step) {
    s.finishReason == Some(ToolCalls) && s.toolCalls != [] && o.execute
  }

  function DispatchAll(o: Options, step: nat, calls: seq<Call>): seq<(Call, Outcome)> {
    seq(|calls|, i requires 0 <= i < |calls| => (calls[i], Dispatched(o.tools, calls[i], o.executions(step, i))))
  }

  function Emit(report: (Call, Outcome)): seq<Event> {
    var (call, outcome) := report;
    var result := ToolResult(call.id, call.name, outcome.result, false, None);
    if outcome.result.kind == ErrorKind
    then [ToolError(call.id, call.name, outcome.result.value, outcome.error), result]
    else [result]
  }

  function EmitAll(reports: seq<(Call, Outcome)>): seq<Event> {
    if reports == [] then [] else Emit(reports[0]) + EmitAll(reports[1..])
  }

  function ToolMessages(reports: seq<(Call, Outcome)>): seq<Message> {
    seq(|reports|, i requires 0 <= i < |reports| =>
      ToolMessage(reports[i].0.id, reports[i].0.name, reports[i].1.result))
  }

  function FollowUp(request: Request, s: Step, reports: seq<(Call, Outcome)>): Request {
    request.(messages := request.messages + [Assistant(s.content)] + ToolMessages(reports))
  }

  // ---------------------------------------------------------------- the loop

  /** The condition stops at the latest in the round whose number plus one reaches `bound`. */
  ghost predicate StopsBy(o: Options, bound: int) {
    o.stopWhen.Some? ==> forall step: nat, request :: step + 1 >= bound ==> o.stopWhen.value(step, request)
  }

  function Loop(o: Options, ghost bound: int, request: Request, step: nat,
                usage: Option<Usage>, metadata: Option<Metadata>): Output
    requires StopsBy(o, bound)
    decreases bound - step
  {
    var streamed := o.model(step, request);
    var s := RoundState(o, step, request);
    var shown := Visible(IndexAll(streamed.events, step));
    if streamed.failed then Output(shown, [request], true) else
    var totalUsage := AddUsage(usage, s.usage);
    var totalMetadata := MergeMetadata(metadata, s.metadata);
    var finish := Finish(if s.finishReason.Some? then s.finishReason.value else Unknown, totalUsage, totalMetadata);
    if !Answered(o, s) then Output(shown + [finish], [request], false) else
    var reports := DispatchAll(o, step, s.toolCalls);
    if o.stopWhen.None? || o.stopWhen.value(step, request) then
      Output(shown + EmitAll(reports) + [finish], [request], false)
    else
      var rest := Loop(o, bound, FollowUp(request, s, reports), step + 1, totalUsage, totalMetadata);
      Output(shown + EmitAll(reports) + rest.events, [request] + rest.requests, rest.failed)
  }

  function InitialRequest(request: Request, runtime: seq<ToolDefinition>): Request {
    if runtime == [] then request
    else request.(tools := Without(request.tools, set t | t in runtime :: t.name) + runtime)
  }

  function Without(tools: seq<ToolDefinition>, names: set<string>): seq<ToolDefinition> {
    if tools == [] then [] else
    (if tools[0].name in names then [] else [tools[0]]) + Without(tools[1..], names)
  }

  function Stream(o: Options, ghost bound: int, request: Request, runtime: seq<ToolDefinition>): Output
    requires StopsBy(o, bound)
  {
    Loop(o, bound, InitialRequest(request, runtime), 0, None, None)
  }

  // ---------------------------------------------------------------- rounds

  /** What a completed round contributes to the output. */
  function RoundEvents(o: Options, step: nat, request: Request): seq<Event> {
    var s := RoundState(o, step, request);
    Visible(IndexAll(o.model(step, request).events, step)) +
    if Answered(o, s) then EmitAll(DispatchAll(o, step, s.toolCalls)) else []
  }

  /** Does the round lead to another one? */
  predicate Repeats(o: Options, step: nat, request: Request) {
    && !o.model(step, request).failed
    && Answered(o, RoundState(o, step, request))
    && o.stopWhen.Some?
    && !o.stopWhen.value(step, request)
  }

  function NextRequest(o: Options, step: nat, request: Request): Request {
    var s := RoundState(o, step, request);
    FollowUp(request, s, DispatchAll(o, step, s.toolCalls))
  }

  /** One round of the loop and what is left of it. */
  lemma LoopUnfolds(o: Options, bound: int, request: Request, step: nat,
                    usage: Option<Usage>, metadata: Option<Metadata>)
    requires StopsBy(o, bound)
    ensures var s := RoundState(o, step, request);
      var out := Loop(o, bound, request, step, usage, metadata);
      var totalUsage, totalMetadata := AddUsage(usage, s.usage), MergeMetadata(metadata, s.metadata);
      var reason := if s.finishReason.Some? then s.finishReason.value else Unknown;
      if Repeats(o, step, request) then
        && step + 1 < bound
        && var rest := Loop(o, bound, NextRequest(o, step, request), step + 1, totalUsage, totalMetadata);
           out == Output(RoundEvents(o, step, request) + rest.events, [request] + rest.requests, rest.failed)
      else if o.model(step, request).failed then
        out == Output(Visible(IndexAll(o.model(step, request).events, step)), [request], true)
      else
        out == Output(RoundEvents(o, step, request) + [Finish(reason, totalUsage, totalMetadata)], [request], false)
  {
  }

  lemma StepCountStops(o: Options, count: int)
    requires o.stopWhen == Some(StepCountIs(count))
    ensures StopsBy(o, count)
  {
  }

  /** With `stepCountIs(n)` at most max(1, n) rounds are made; without a stop condition, one. */
  lemma {:induction false} RoundsBounded(o: Options, bound: int, request: Request, step: nat,
                                         usage: Option<Usage>, metadata: Option<Metadata>)
    requires StopsBy(o, bound)
    ensures var n := |Loop(o, bound, request, step, usage, metadata).requests|;
      && 1 <= n
      && (n == 1 || step + n <= bound)
      && (o.stopWhen.None? ==> n == 1)
    decreases bound - step
  {
    LoopUnfolds(o, bound, request, step, usage, metadata);
    if Repeats(o, step, request) {
      var s := RoundState(o, step, request);
      RoundsBounded(o, bound, NextRequest(o, step, request), step + 1,
                    AddUsage(usage, s.usage), MergeMetadata(metadata, s.metadata));
    }
  }

  predicate NoFinish(events: seq<Event>) {
    forall i :: 0 <= i < |events| ==> !events[i].Finish?
  }

  lemma {:induction false} VisibleHasNoFinish(events: seq<Event>)
    ensures NoFinish(Visible(events))
  {
    if events == [] {
    } else {
      VisibleHasNoFinish(events[1..]);
    }
  }

  lemma {:induction false} EmittedHasNoFinish(reports: seq<(Call, Outcome)>)
    ensures NoFinish(EmitAll(reports))
  {
    if reports == [] {
    } else {
      EmittedHasNoFinish(reports[1..]);
    }
  }

  predicate EndsWithTheFinish(events: seq<Event>) {
    events != [] && events[|events| - 1].Finish? && NoFinish(events[..|events| - 1])
  }

  lemma FinishStaysLast(first: seq<Event>, rest: seq<Event>)
    requires NoFinish(first)
    ensures NoFinish(rest) ==> NoFinish(first + rest)
    ensures EndsWithTheFinish(rest) ==> EndsWithTheFinish(first + rest)
  {
    if EndsWithTheFinish(rest) {
      assert (first + rest)[..|first + rest| - 1] == first + rest[..|rest| - 1];
    }
  }

  /** Exactly one finish event, and it is the last event; none at all if a model stream failed. */
  lemma {:induction false} OneFinishAndLast(o: Options, bound: int, request: Request, step: nat,
                                            usage: Option<Usage>, metadata: Option<Metadata>)
    requires StopsBy(o, bound)
    ensures var out := Loop(o, bound, request, step, usage, metadata);
      if out.failed then NoFinish(out.events) else EndsWithTheFinish(out.events)
    decreases bound - step
  {
    var s := RoundState(o, step, request);
    VisibleHasNoFinish(IndexAll(o.model(step, request).events, step));
    EmittedHasNoFinish(DispatchAll(o, step, s.toolCalls));
    LoopUnfolds(o, bound, request, step, usage, metadata);
    var totalUsage, totalMetadata := AddUsage(usage, s.usage), MergeMetadata(metadata, s.metadata);
    if Repeats(o, step, request) {
      OneFinishAndLast(o, bound, NextRequest(o, step, request), step + 1, totalUsage, totalMetadata);
      FinishStaysLast(RoundEvents(o, step, request),
                      Loop(o, bound, NextRequest(o, step, request), step + 1, totalUsage, totalMetadata).events);
    } else {
      var reason := if s.finishReason.Some? then s.finishReason.value else Unknown;
      FinishStaysLast(RoundEvents(o, step, request), [Finish(reason, totalUsage, totalMetadata)]);
    }
  }

  function ResultsAmong(events: seq<Event>): seq<Event> {
    if events == [] then [] else (if events[0].ToolResult? then [events[0]] else []) + ResultsAmong(events[1..])
  }

  /** One result event for each report. */
  function Results(reports: seq<(Call, Outcome)>): seq<Event> {
    seq(|reports|, i requires 0 <= i < |reports| =>
      ToolResult(reports[i].0.id, reports[i].0.name, reports[i].1.result, false, None))
  }

  /** An error result comes right after its error event, and no other result does. */
  predicate ErrorsAnnounced(events: seq<Event>) {
    forall k :: 0 <= k < |events| && events[k].ToolResult? ==>
      (events[k].result.kind == ErrorKind <==>
         0 < k && events[k - 1].ToolError? && events[k - 1].id == events[k].id)
  }

  /** Executing the calls emits one result for each, in call order, and right before it an error event
      exactly if that result is an error. */
  lemma EmitsEveryResult(reports: seq<(Call, Outcome)>)
    ensures ResultsAmong(EmitAll(reports)) == Results(reports)
    ensures ErrorsAnnounced(EmitAll(reports))
  {
    ResultsInOrder(reports);
    AnnouncesErrors(reports);
  }

  lemma {:induction false} ResultsInOrder(reports: seq<(Call, Outcome)>)
    ensures ResultsAmong(EmitAll(reports)) == Results(reports)
  {
    if reports == [] {
    } else {
      ResultsInOrder(reports[1..]);
      ResultsConcat(Emit(reports[0]), EmitAll(reports[1..]));
      EmittedOne(reports[0]);
      assert Results(reports) == Results([reports[0]]) + Results(reports[1..]);
    }
  }

  lemma {:induction false} AnnouncesErrors(reports: seq<(Call, Outcome)>)
    ensures ErrorsAnnounced(EmitAll(reports))
  {
    if reports == [] {
    } else {
      AnnouncesErrors(reports[1..]);
      EmittedOne(reports[0]);
      var first, rest := Emit(reports[0]), EmitAll(reports[1..]);
      forall k | |first| <= k < |first + rest| && rest[k - |first|].ToolResult?
        ensures (first + rest)[k].result.kind == ErrorKind <==>
          (first + rest)[k - 1].ToolError? && (first + rest)[k - 1].id == (first + rest)[k].id
      {
        assert (first + rest)[k] == rest[k - |first|];
      }
    }
  }

  lemma {:induction false} ResultsConcat(a: seq<Event>, b: seq<Event>)
    ensures ResultsAmong(a + b) == ResultsAmong(a) + ResultsAmong(b)
  {
    if a == [] {
      assert a + b == b;
    } else {
      assert (a + b)[1..] == a[1..] + b;
      ResultsConcat(a[1..], b);
    }
  }

  lemma EmittedOne(report: (Call, Outcome))
    ensures ResultsAmong(Emit(report)) == [ToolResult(report.0.id, report.0.name, report.1.result, false, None)]
    ensures Emit(report)[|Emit(report)| - 1].ToolResult?
  {
    var events := Emit(report);
    assert events == events[..|events| - 1] + [events[|events| - 1]];
    ResultsConcat(events[..|events| - 1], [events[|events| - 1]]);
    assert [events[|events| - 1]][1..] == [];
    assert |events| == 2 ==> events[..1] == [events[0]] && [events[0]][1..] == [];
  }

  // ---------------------------------------------------------------- the transcript

  lemma {:induction false} IndexKeepsAtoms(events: seq<Event>, step: nat)
    ensures StreamAtoms(IndexAll(events, step)) == StreamAtoms(events)
  {
    if events == [] {
    } else {
      var last := |events| - 1;
      assert IndexAll(events, step)[..last] == IndexAll(events[..last], step);
      IndexKeepsAtoms(events[..last], step);
    }
  }

  /** `next` continues the conversation of `request` after `events`: the same request with one
      assistant message that says exactly what was streamed, and then one tool message for each
      client-executed call, in stream order, with the result of executing it. */
  ghost predicate Continues(o: Options, step: nat, request: Request, events: seq<Event>, next: Request) {
    var calls := ClientCalls(StreamAtoms(events));
    var n := |request.messages|;
    && next.model == request.model && next.tools == request.tools
    && |next.messages| == n + 1 + |calls|
    && next.messages[..n] == request.messages
    && next.messages[n].Assistant?
    && ContentAtoms(next.messages[n].content) == StreamAtoms(events)
    && forall i :: 0 <= i < |calls| ==>
         next.messages[n + 1 + i] ==
         ToolMessage(calls[i].id, calls[i].name, Dispatched(o.tools, calls[i], o.executions(step, i)).result)
  }

  lemma NextRequestContinues(o: Options, step: nat, request: Request)
    ensures Continues(o, step, request, o.model(step, request).events, NextRequest(o, step, request))
  {
    var events := o.model(step, request).events;
    IndexKeepsAtoms(events, step);
    RoundConserves(IndexAll(events, step));
    assert NextRequest(o, step, request).messages[..|request.messages|] == request.messages;
  }

  /** Every request but the first continues the one before it. */
  ghost predicate Conversation(o: Options, step: nat, requests: seq<Request>) {
    forall i :: 0 <= i < |requests| - 1 ==>
      Continues(o, step + i, requests[i], o.model(step + i, requests[i]).events, requests[i + 1])
  }

  lemma ConversationGrows(o: Options, step: nat, request: Request, rest: seq<Request>)
    requires rest != [] && Conversation(o, step + 1, rest)
    requires Continues(o, step, request, o.model(step, request).events, rest[0])
    ensures Conversation(o, step, [request] + rest)
  {
    var requests := [request] + rest;
    forall i | 0 <= i < |requests| - 1
      ensures Continues(o, step + i, requests[i], o.model(step + i, requests[i]).events, requests[i + 1])
    {
      if i > 0 {
        assert requests[i] == rest[i - 1] && requests[i + 1] == rest[i];
        assert step + i == step + 1 + (i - 1);
      }
    }
  }

  /** Over all rounds the requests are one growing conversation that starts with the given one. */
  lemma {:induction false} Transcript(o: Options, bound: int, request: Request, step: nat,
                                      usage: Option<Usage>, metadata: Option<Metadata>)
    requires StopsBy(o, bound)
    ensures var requests := Loop(o, bound, request, step, usage, metadata).requests;
      requests != [] && requests[0] == request && Conversation(o, step, requests)
    decreases bound - step
  {
    LoopUnfolds(o, bound, request, step, usage, metadata);
    if Repeats(o, step, request) {
      var s, next := RoundState(o, step, request), NextRequest(o, step, request);
      NextRequestContinues(o, step, request);
      Transcript(o, bound, next, step + 1, AddUsage(usage, s.usage), MergeMetadata(metadata, s.metadata));
      ConversationGrows(o, step, request,
        Loop(o, bound, next, step + 1, AddUsage(usage, s.usage), MergeMetadata(metadata, s.metadata)).requests);
    }
  }

  // ---------------------------------------------------------------- what is emitted, and the totals

  function AllRoundEvents(o: Options, step: nat, requests: seq<Request>): seq<Event>
    decreases |requests|
  {
    if requests == [] then [] else RoundEvents(o, step, requests[0]) + AllRoundEvents(o, step + 1, requests[1..])
  }

  function RoundsUsage(o: Options, step: nat, requests: seq<Request>): Option<Usage>
    decreases |requests|
  {
    if requests == [] then None
    else AddUsage(RoundState(o, step, requests[0]).usage, RoundsUsage(o, step + 1, requests[1..]))
  }

  function RoundsMetadata(o: Options, step: nat, requests: seq<Request>): Option<Metadata>
    decreases |requests|
  {
    if requests == [] then None
    else MergeMetadata(RoundState(o, step, requests[0]).metadata, RoundsMetadata(o, step + 1, requests[1..]))
  }

  /** The whole output: the rounds' events in order, and then the finish event with the totals. */
  ghost predicate IsWholeOutput(o: Options, step: nat, usage: Option<Usage>, metadata: Option<Metadata>, out: Output) {
    exists reason :: out.events == AllRoundEvents(o, step, out.requests) +
      [Finish(reason, AddUsage(usage, RoundsUsage(o, step, out.requests)),
              MergeMetadata(metadata, RoundsMetadata(o, step, out.requests)))]
  }

  /** Unless a stream fails, the output is the rounds' events in order and then the finish event,
      which carries the sum of every round's usage and the merge of every round's metadata. */
  lemma {:induction false} OutputIsTheRounds(o: Options, bound: int, request: Request, step: nat,
                                             usage: Option<Usage>, metadata: Option<Metadata>)
    requires StopsBy(o, bound) && !Loop(o, bound, request, step, usage, metadata).failed
    ensures IsWholeOutput(o, step, usage, metadata, Loop(o, bound, request, step, usage, metadata))
    decreases bound - step
  {
    LoopUnfolds(o, bound, request, step, usage, metadata);
    var out := Loop(o, bound, request, step, usage, metadata);
    var s := RoundState(o, step, request);
    var totalUsage, totalMetadata := AddUsage(usage, s.usage), MergeMetadata(metadata, s.metadata);
    if Repeats(o, step, request) {
      var next := NextRequest(o, step, request);
      OutputIsTheRounds(o, bound, next, step + 1, totalUsage, totalMetadata);
      var rest := Loop(o, bound, next, step + 1, totalUsage, totalMetadata);
      OneMoreRound(o, step, request, usage, metadata, rest, out);
    } else {
      ManyRounds(o, step, request, [], usage, metadata);
      assert [request] + [] == [request];
      AddUsageAssociative(totalUsage, None, None);
      var reason := if s.finishReason.Some? then s.finishReason.value else Unknown;
      assert out.events == AllRoundEvents(o, step, out.requests) + [Finish(reason, totalUsage, totalMetadata)];
    }
  }

  lemma OneMoreRound(o: Options, step: nat, request: Request, usage: Option<Usage>, metadata: Option<Metadata>,
                     rest: Output, out: Output)
    requires var s := RoundState(o, step, request);
      IsWholeOutput(o, step + 1, AddUsage(usage, s.usage), MergeMetadata(metadata, s.metadata), rest)
    requires out.events == RoundEvents(o, step, request) + rest.events && out.requests == [request] + rest.requests
    ensures IsWholeOutput(o, step, usage, metadata, out)
  {
    var s := RoundState(o, step, request);
    var reason :| rest.events == AllRoundEvents(o, step + 1, rest.requests) +
      [Finish(reason, AddUsage(AddUsage(usage, s.usage), RoundsUsage(o, step + 1, rest.requests)),
              MergeMetadata(MergeMetadata(metadata, s.metadata), RoundsMetadata(o, step + 1, rest.requests)))];
    ManyRounds(o, step, request, rest.requests, usage, metadata);
    assert out.events == AllRoundEvents(o, step, out.requests) +
      [Finish(reason, AddUsage(usage, RoundsUsage(o, step, out.requests)),
              MergeMetadata(metadata, RoundsMetadata(o, step, out.requests)))];
  }

  lemma ManyRounds(o: Options, step: nat, request: Request, rest: seq<Request>,
                   usage: Option<Usage>, metadata: Option<Metadata>)
    ensures var s := RoundState(o, step, request);
      && AllRoundEvents(o, step, [request] + rest) == RoundEvents(o, step, request) + AllRoundEvents(o, step + 1, rest)
      && AddUsage(usage, RoundsUsage(o, step, [request] + rest))
         == AddUsage(AddUsage(usage, s.usage), RoundsUsage(o, step + 1, rest))
      && MergeMetadata(metadata, RoundsMetadata(o, step, [request] + rest))
         == MergeMetadata(MergeMetadata(metadata, s.metadata), RoundsMetadata(o, step + 1, rest))
  {
    var s := RoundState(o, step, request);
    assert ([request] + rest)[1..] == rest;
    AddUsageAssociative(usage, s.usage, RoundsUsage(o, step + 1, rest));
    MergeAssociative(metadata, s.metadata, RoundsMetadata(o, step + 1, rest));
  }

  function StepUsage(events: seq<Event>): Option<Usage> {
    if events == [] then None else
    var last := |events| - 1;
    if events[last].StepFinish? then AddUsage(StepUsage(events[..last]), events[last].usage)
    else StepUsage(events[..last])
  }

  /** Without a finish event a round's usage is the sum over its steps. */
  lemma RoundUsageIsStepUsage(events: seq<Event>)
    ensures NoFinish(events) ==> Round(events).usage == StepUsage(events)
  {
    if NoFinish(events) {
      StepsAddUp([], events);
      assert [] + events == events && Round([]).usage == None;
    }
  }

  lemma {:induction false} StepsAddUp(before: seq<Event>, after: seq<Event>)
    requires NoFinish(after)
    ensures Round(before + after).usage == AddUsage(Round(before).usage, StepUsage(after))
  {
    if after == [] {
      assert before + after == before;
    } else {
      var last := |after| - 1;
      StepsAddUp(before, after[..last]);
      assert before + after == (before + after[..last]) + [after[last]];
      if after[last].StepFinish? {
        AddUsageAssociative(Round(before).usage, StepUsage(after[..last]), after[last].usage);
      }
    }
  }

  /** A finish event, wherever it comes, fills in only if nothing before it reported any usage; the
      steps after the last one are added to that. */
  lemma FinishFillsIn(before: seq<Event>, finish: Event, after: seq<Event>)
    requires finish.Finish? && NoFinish(after)
    ensures var was := Round(before).usage;
      Round(before + [finish] + after).usage
        == AddUsage(if was.Some? then was else finish.usage, StepUsage(after))
  {
    StepsAddUp(before + [finish], after);
    assert (before + [finish])[..|before|] == before;
  }

  // ---------------------------------------------------------------- the whole run

  /** The loop may take the reports as given: whatever schedule the dispatcher picked, once its
      last batch is finished they are these. */
  lemma AnyScheduleReports(o: Options, step: nat, calls: seq<Call>, concurrency: Option<nat>,
                           batches: seq<Batch>, schedule: seq<Action>)
    requires Partitions(o.tools, calls, batches)
    requires Run(o.tools, concurrency, batches, schedule).Some?
    requires Run(o.tools, concurrency, batches, schedule).value.done == |batches|
    requires forall t :: 0 <= t < |schedule| && schedule[t].End? ==>
               schedule[t].execution == o.executions(step, schedule[t].position)
    ensures Run(o.tools, concurrency, batches, schedule).value.dispatched == DispatchAll(o, step, calls)
  {
    ReportsInCallOrder(o.tools, concurrency, calls, batches, schedule);
    var reports := Run(o.tools, concurrency, batches, schedule).value.dispatched;
    forall i | 0 <= i < |calls|
      ensures reports[i] == DispatchAll(o, step, calls)[i]
    {
      assert Executed(o.tools, calls[i], i, schedule, reports[i].1);
    }
  }

  lemma {:induction false} WithoutKeeps(tools: seq<ToolDefinition>, names: set<string>)
    ensures forall t :: t in Without(tools, names) <==> t in tools && t.name !in names
  {
    if tools == [] {
    } else {
      WithoutKeeps(tools[1..], names);
    }
  }

  /** A run with `stepCountIs(count)`: at most max(1, count) requests, each continuing the one
      before; the advertised tools stay the same throughout, runtime tools replacing the request's
      tools of the same name; and a single final finish event with the totals of all rounds. */
  lemma StreamRun(o: Options, count: int, request: Request, runtime: seq<ToolDefinition>)
    requires o.stopWhen == Some(StepCountIs(count))
    ensures StopsBy(o, count)
    ensures var out := Stream(o, count, request, runtime);
      && 1 <= |out.requests| <= (if count < 1 then 1 else count)
      && out.requests[0] == InitialRequest(request, runtime)
      && out.requests[0].messages == request.messages
      && (forall t :: t in out.requests[0].tools <==>
            t in runtime || (t in request.tools && forall r :: r in runtime ==> r.name != t.name))
      && Conversation(o, 0, out.requests)
      && (if out.failed then NoFinish(out.events)
          else EndsWithTheFinish(out.events) && IsWholeOutput(o, 0, None, None, out))
  {
    var first := InitialRequest(request, runtime);
    StepCountStops(o, count);
    RoundsBounded(o, count, first, 0, None, None);
    Transcript(o, count, first, 0, None, None);
    OneFinishAndLast(o, count, first, 0, None, None);
    if !Stream(o, count, request, runtime).failed {
      OutputIsTheRounds(o, count, first, 0, None, None);
    }
    WithoutKeeps(request.tools, set t | t in runtime :: t.name);
  }
}
