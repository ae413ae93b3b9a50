/** What holds in every state that a session log can reach from the empty list. */
module SessionInvariants {
  import opened Wrappers
  import opened SessionProjection

  // ---------------------------------------------------------------- one open assistant

  predicate OneOpen(messages: seq<Message>) {
    forall i, j :: 0 <= i < |messages| && 0 <= j < |messages| && IsOpen(messages[i]) && IsOpen(messages[j]) ==> i == j
  }

  /** The message at an earlier position after an event: edited if it is the one the event is about. */
  lemma MessageAfter(messages: seq<Message>, e: Event, i: nat)
    requires i < |messages|
    ensures |Apply(messages, e)| == |messages| + if AppendsMessage(e) then 1 else 0
    ensures Apply(messages, e)[i] ==
      if EditsMessage(e) && i == LastIndex(messages, TargetMessage(e)) then EditedMessage(e, messages[i])
      else messages[i]
  {
  }

  /** The content of an assistant message after an event: edited if it is the open one and the
      event is about content. */
  lemma ContentAfter(messages: seq<Message>, e: Event, m: nat)
    requires m < |messages| && messages[m].AssistantMessage?
    ensures |messages| <= |Apply(messages, e)| && Apply(messages, e)[m].AssistantMessage?
    ensures Apply(messages, e)[m].content ==
      if (PushesItem(e) || EditsItem(e)) && m == LastIndex(messages, IsOpen)
      then EditedContent(e, messages[m].content) else messages[m].content
  {
    MessageAfter(messages, e, m);
  }

  lemma {:induction false} RunKeepsOneOpen(messages: seq<Message>, log: seq<Event>)
    requires OneOpen(messages)
    ensures OneOpen(RunFrom(messages, log))
    decreases |log|
  {
    if log == [] {
    } else {
      RunKeepsOneOpen(Apply(messages, log[0]), log[1..]);
    }
  }

  /** Whatever the log, at most one assistant message is open. */
  lemma AtMostOneOpenAssistant(log: seq<Event>)
    ensures OneOpen(Project(log))
  {
    RunKeepsOneOpen([], log);
  }

  // ---------------------------------------------------------------- history is final

  predicate IsFinal(m: Message) { m.AssistantMessage? && m.completed.Some? }

  /** A completed assistant message never changes again, and no message ever moves or disappears. */
  lemma {:induction false} CompletedAssistantsAreFinal(log: seq<Event>, more: seq<Event>)
    ensures |Project(log)| <= |Project(log + more)|
    ensures forall i :: 0 <= i < |Project(log)| ==> Project(log + more)[i].id == Project(log)[i].id
    ensures forall i :: 0 <= i < |Project(log)| && IsFinal(Project(log)[i]) ==>
      Project(log + more)[i] == Project(log)[i]
    decreases |more|
  {
    if more == [] {
      assert log + more == log;
    } else {
      var before, e := Project(log), more[0];
      ProjectPush(log, e);
      assert log + more == (log + [e]) + more[1..];
      CompletedAssistantsAreFinal(log + [e], more[1..]);
      forall i | 0 <= i < |before|
        ensures Project(log + more)[i].id == before[i].id
        ensures IsFinal(before[i]) ==> Project(log + more)[i] == before[i]
      {
        MessageAfter(before, e, i);
        AppliedKeepsId(before, e, i);
        assert IsFinal(before[i]) ==> Apply(before, e)[i] == before[i];
      }
    }
  }

  function Ids(messages: seq<Message>): seq<string> {
    seq(|messages|, i requires 0 <= i < |messages| => messages[i].id)
  }

  function AppendedIds(log: seq<Event>): seq<string> {
    if log == [] then [] else
    var last := |log| - 1;
    AppendedIds(log[..last]) + if AppendsMessage(log[last]) then [NewMessage(log[last]).id] else []
  }

  /** The messages are exactly those that some event appended, in log order. */
  lemma {:induction false} MessageIdsAreAppendIds(log: seq<Event>)
    ensures Ids(Project(log)) == AppendedIds(log)
  {
    if log == [] {
    } else {
      var last := |log| - 1;
      var before, e := Project(log[..last]), log[last];
      MessageIdsAreAppendIds(log[..last]);
      ProjectPush(log[..last], e);
      assert log == log[..last] + [e];
      AppliedIds(before, e);
    }
  }

  lemma AppliedIds(before: seq<Message>, e: Event)
    ensures Ids(Apply(before, e)) == Ids(before) + if AppendsMessage(e) then [NewMessage(e).id] else []
  {
    forall i | 0 <= i < |before|
      ensures |before| <= |Apply(before, e)| && Ids(Apply(before, e))[i] == Ids(before)[i]
    {
      AppliedKeepsId(before, e, i);
    }
  }

  lemma AppliedKeepsId(before: seq<Message>, e: Event, i: nat)
    requires i < |before|
    ensures |before| <= |Apply(before, e)| && Apply(before, e)[i].id == before[i].id
  {
    MessageAfter(before, e, i);
  }

  // ---------------------------------------------------------------- tools

  /** What the log has done to the item at a place: the input of its latest call, and whether it
      has ever settled. */
  datatype ToolHistory = ToolHistory(called: Option<Input>, settled: bool)

  const UNTOUCHED: ToolHistory := ToolHistory(None, false)

  predicate IsItem(messages: seq<Message>, m: nat, k: nat) {
    m < |messages| && messages[m].AssistantMessage? && k < |messages[m].content|
  }

  /** Is the item at this place the one that the event is about? */
  predicate Hits(messages: seq<Message>, e: Event, m: nat, k: nat) {
    && EditsItem(e)
    && IsItem(messages, m, k)
    && m == LastIndex(messages, IsOpen)
    && k == LastIndex(messages[m].content, TargetItem(e))
  }

  function Extended(h: ToolHistory, messages: seq<Message>, e: Event, m: nat, k: nat): ToolHistory {
    if !Hits(messages, e, m, k) then h else ExtendedBy(h, messages[m].content[k], e)
  }

  function ExtendedBy(h: ToolHistory, x: Item, e: Event): ToolHistory {
    if e.ToolCalled? then h.(called := Some(e.input))
    else if (e.ToolSuccess? || e.ToolFailed?) && x.ToolItem? && x.state.Running? then h.(settled := true)
    else h
  }

  function HistoryOf(log: seq<Event>, m: nat, k: nat): ToolHistory {
    if log == [] then UNTOUCHED else
    var last := |log| - 1;
    Extended(HistoryOf(log[..last], m, k), Project(log[..last]), log[last], m, k)
  }

  /** A tool item says of itself what its history says. */
  predicate Lawful(messages: seq<Message>, h: ToolHistory, m: nat, k: nat) {
    if !IsItem(messages, m, k) || !messages[m].content[k].ToolItem? then h == UNTOUCHED
    else LawfulTool(messages[m].content[k], h)
  }

  predicate LawfulTool(x: Item, h: ToolHistory)
    requires x.ToolItem?
  {
    && (x.state.Pending? <==> h.called.None?)
    && (x.ran.Some? <==> h.called.Some?)
    && (x.completed.Some? <==> h.settled)
    && (h.settled ==> h.called.Some?)
    && (x.provider.Some? <==> h.called.Some?)
    && match x.state
       case Pending(_) => true
       case Running(input, _, _) => h.called == Some(input)
       case Completed(input, _, _) => h.called == Some(input) && h.settled
       case Errored(input, _, _, _) => h.called == Some(input) && h.settled
  }

  /** What becomes of an item: edited if the event is about it, else untouched. */
  lemma ItemAfter(messages: seq<Message>, e: Event, m: nat, k: nat)
    requires IsItem(messages, m, k)
    ensures IsItem(Apply(messages, e), m, k)
    ensures Apply(messages, e)[m].content[k] ==
      if Hits(messages, e, m, k) then EditedItem(e, messages[m].content[k]) else messages[m].content[k]
  {
    ContentAfter(messages, e, m);
    ItemOfEdited(e, messages[m].content, k);
  }

  lemma ItemOfEdited(e: Event, content: seq<Item>, k: nat)
    requires k < |content|
    ensures |EditedContent(e, content)| == |content| + if PushesItem(e) then 1 else 0
    ensures EditedContent(e, content)[k] ==
      if EditsItem(e) && k == LastIndex(content, TargetItem(e)) then EditedItem(e, content[k]) else content[k]
  {
  }

  /** Items that an event adds are pending tools or are no tools at all. */
  lemma ItemAdded(messages: seq<Message>, e: Event, m: nat, k: nat)
    requires !IsItem(messages, m, k) && IsItem(Apply(messages, e), m, k)
    ensures PushesItem(e) && Apply(messages, e)[m].content[k] == NewItem(e)
  {
    if m == |messages| {
    } else {
      ContentAfter(messages, e, m);
      AddedItem(e, messages[m].content, k);
    }
  }

  lemma AddedItem(e: Event, content: seq<Item>, k: nat)
    requires |content| <= k < |EditedContent(e, content)|
    ensures PushesItem(e) && EditedContent(e, content)[k] == NewItem(e)
  {
  }

  lemma EditKeepsLawful(x: Item, h: ToolHistory, e: Event)
    requires EditsItem(e) && TargetItem(e)(x)
    requires if x.ToolItem? then LawfulTool(x, h) else h == UNTOUCHED
    ensures EditedItem(e, x).ToolItem? == x.ToolItem?
    ensures var after := ExtendedBy(h, x, e);
      if x.ToolItem? then LawfulTool(EditedItem(e, x), after) else after == UNTOUCHED
  {
  }

  lemma ApplyKeepsLawful(messages: seq<Message>, h: ToolHistory, e: Event, m: nat, k: nat)
    requires Lawful(messages, h, m, k)
    ensures Lawful(Apply(messages, e), Extended(h, messages, e, m, k), m, k)
  {
    if IsItem(messages, m, k) {
      ItemAfter(messages, e, m, k);
      if Hits(messages, e, m, k) {
        EditKeepsLawful(messages[m].content[k], h, e);
      }
    } else if IsItem(Apply(messages, e), m, k) {
      ItemAdded(messages, e, m, k);
    }
  }

  /** In every reachable state: a pending tool never ran; a running one did; a settled one ran and
      completed; and what ran has the input of its latest call. Only a tool that settled before has
      a completion time, running or not. */
  lemma {:induction false} ToolsAreLawful(log: seq<Event>, m: nat, k: nat)
    ensures Lawful(Project(log), HistoryOf(log, m, k), m, k)
  {
    if log == [] {
    } else {
      var last := |log| - 1;
      ToolsAreLawful(log[..last], m, k);
      ApplyKeepsLawful(Project(log[..last]), HistoryOf(log[..last], m, k), log[last], m, k);
      ProjectPush(log[..last], log[last]);
      assert log == log[..last] + [log[last]];
    }
  }

  /** Status is not monotone: a settled tool that is called again runs again, and still carries
      the completion time of its first run. */
  lemma SettledToolRunsAgain() returns (log: seq<Event>)
    ensures IsItem(Project(log), 0, 0) && RunsAgain(Project(log)[0].content[0])
  {
    var start := StepStarted("step", "agent", "model", "", 0);
    ProjectPush([], start);
    assert [] + [start] == [start] && Project([start]) == [NewMessage(start)];
    log := [start];
    OnlyItem(log, ToolInputStarted("call", "tool", 1), []);
    log := log + [ToolInputStarted("call", "tool", 1)];
    var x := NewItem(ToolInputStarted("call", "tool", 1));
    log, x := CallAndSettle(log, x);
    CallAgain(log, x);
    log := log + [ToolCalled("call", "second", "client", 4)];
  }

  predicate OneTool(log: seq<Event>, x: Item) {
    && |Project(log)| == 1 && IsOpen(Project(log)[0]) && Project(log)[0].content == [x]
    && x.ToolItem? && x.id == "call"
  }

  lemma CallAndSettle(log: seq<Event>, x: Item) returns (more: seq<Event>, y: Item)
    requires OneTool(log, x)
    ensures OneTool(more, y) && y.completed.Some?
  {
    var first, success := ToolCalled("call", "first", "client", 2), ToolSuccess("call", "{}", [], "client", 3);
    OnlyItem(log, first, [x]);
    OnlyItem(log + [first], success, [EditedItem(first, x)]);
    more, y := log + [first] + [success], EditedItem(success, EditedItem(first, x));
  }

  lemma CallAgain(log: seq<Event>, x: Item)
    requires OneTool(log, x) && x.completed.Some?
    ensures var more := log + [ToolCalled("call", "second", "client", 4)];
      IsItem(Project(more), 0, 0) && RunsAgain(Project(more)[0].content[0])
  {
    OnlyItem(log, ToolCalled("call", "second", "client", 4), [x]);
  }

  predicate RunsAgain(x: Item) { x.ToolItem? && x.state.Running? && x.completed.Some? }

  /** A log whose projection is one open assistant with at most one item, and one more event about it. */
  lemma OnlyItem(log: seq<Event>, e: Event, content: seq<Item>)
    requires |Project(log)| == 1 && IsOpen(Project(log)[0]) && Project(log)[0].content == content
    requires |content| <= 1
    requires if content == [] then PushesItem(e) else EditsItem(e) && TargetItem(e)(content[0])
    ensures var s := Project(log + [e]);
      && |s| == 1 && IsOpen(s[0])
      && s[0].content == [if content == [] then NewItem(e) else EditedItem(e, content[0])]
  {
    ProjectPush(log, e);
    var s := Project(log);
    assert LastIndex(s, TargetMessage(e)) == 0;
    MessageAfter(s, e, 0);
    if content != [] {
      assert LastIndex(content, TargetItem(e)) == 0;
    }
  }
}
