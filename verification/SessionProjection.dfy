/** Projecting a log of session events to the message list of the session. */
module SessionProjection {
  import opened Wrappers

  type Time = int
  type Input = string        // an encoded tool input record
  type Provider = string     // who executed a tool, with its metadata

  datatype ToolState =
    | Pending(partialInput: string)
    | Running(input: Input, structured: string, output: seq<string>)
    | Completed(input: Input, structured: string, output: seq<string>)
    | Errored(input: Input, structured: string, output: seq<string>, error: string)

  datatype Item =
    | TextItem(text: string)
    | ReasoningItem(id: string, text: string)
    | ToolItem(id: string, name: string, provider: Option<Provider>, state: ToolState,
               created: Time, ran: Option<Time>, completed: Option<Time>)

  datatype Message =
    | AgentMessage(id: string, metadata: Option<string>, agent: string, created: Time)
    | ModelMessage(id: string, metadata: Option<string>, model: string, created: Time)
    | UserMessage(id: string, metadata: Option<string>, prompt: string, created: Time)
    | SyntheticMessage(id: string, sessionID: string, text: string, created: Time)
    | ShellMessage(id: string, metadata: Option<string>, callID: string, command: string, output: string,
                   created: Time, completed: Option<Time>)
    | AssistantMessage(id: string, agent: string, model: string, content: seq<Item>,
                       snapshotStart: Option<string>, snapshotEnd: Option<string>, finish: Option<string>,
                       usage: Option<string>, error: Option<string>, created: Time, completed: Option<Time>)
    | CompactionMessage(id: string, metadata: Option<string>, reason: string, summary: string,
                        included: Option<string>, created: Time)

  datatype Event =
    | AgentSwitched(id: string, metadata: Option<string>, agent: string, at: Time)
    | ModelSwitched(id: string, metadata: Option<string>, model: string, at: Time)
    | Prompted(id: string, metadata: Option<string>, prompt: string, at: Time)
    | Synthetic(id: string, sessionID: string, text: string, at: Time)
    | NotProjected               // legacy message and part events, prepared requests, retries
    | ShellStarted(id: string, metadata: Option<string>, callID: string, command: string, at: Time)
    | ShellEnded(callID: string, output: string, at: Time)
    | StepStarted(id: string, agent: string, model: string, snapshot: string, at: Time)
    | StepEnded(finish: string, usage: string, snapshot: string, at: Time)
    | StepFailed(error: string, at: Time)
    | TextStarted
    | TextDelta(delta: string)
    | TextEnded(text: string)
    | ReasoningStarted(reasoningID: string)
    | ReasoningDelta(reasoningID: string, delta: string)
    | ReasoningEnded(reasoningID: string, text: string)
    | ToolInputStarted(callID: string, name: string, at: Time)
    | ToolInputDelta(callID: string, delta: string)
    | ToolInputEnded(callID: string, text: string)
    | ToolCalled(callID: string, input: Input, provider: Provider, at: Time)
    | ToolProgress(callID: string, structured: string, parts: seq<string>)
    | ToolSuccess(callID: string, structured: string, parts: seq<string>, provider: Provider, at: Time)
    | ToolFailed(callID: string, error: string, provider: Provider, at: Time)
    | CompactionStarted(id: string, metadata: Option<string>, reason: string, at: Time)
    | CompactionDelta(text: string)
    | CompactionEnded(text: string, included: Option<string>)

  // ---------------------------------------------------------------- editing the last match

  /** `findLastIndex`. */
  function LastIndex<T>(s: seq<T>, p: T -> bool): (i: int)
    ensures -1 <= i < |s|
    ensures i >= 0 ==> p(s[i])
    ensures forall j :: i < j < |s| ==> !p(s[j])
  {
    if s == [] then -1
    else if p(s[|s| - 1]) then |s| - 1
    else LastIndex(s[..|s| - 1], p)
  }

  function EditLast<T>(s: seq<T>, p: T -> bool, f: T -> T): (r: seq<T>)
    ensures |r| == |s|
    ensures forall j :: 0 <= j < |s| && j != LastIndex(s, p) ==> r[j] == s[j]
  {
    var i := LastIndex(s, p);
    if i < 0 then s else s[i := f(s[i])]
  }

  // ---------------------------------------------------------------- which item, which message

  predicate IsOpen(m: Message) { m.AssistantMessage? && m.completed.None? }
  predicate IsCompaction(m: Message) { m.CompactionMessage? }
  predicate IsText(x: Item) { x.TextItem? }

  function ShellWith(callID: string): Message -> bool { (m: Message) => m.ShellMessage? && m.callID == callID }
  function ReasoningWith(id: string): Item -> bool { (x: Item) => x.ReasoningItem? && x.id == id }
  function ToolWith(id: string): Item -> bool { (x: Item) => x.ToolItem? && x.id == id }

  predicate PushesItem(e: Event) { e.TextStarted? || e.ReasoningStarted? || e.ToolInputStarted? }

  predicate EditsItem(e: Event) {
    || e.TextDelta? || e.TextEnded? || e.ReasoningDelta? || e.ReasoningEnded?
    || e.ToolInputDelta? || e.ToolCalled? || e.ToolProgress? || e.ToolSuccess? || e.ToolFailed?
  }

  function NewItem(e: Event): Item
    requires PushesItem(e)
  {
    match e
    case ReasoningStarted(id) => ReasoningItem(id, "")
    case ToolInputStarted(callID, name, at) => ToolItem(callID, name, None, Pending(""), at, None, None)
    case _ => TextItem("")
  }

  /** The item an event is about: the latest of its kind, and of its id where it has one. */
  function TargetItem(e: Event): Item -> bool
    requires EditsItem(e)
  {
    match e
    case ReasoningDelta(id, _) => ReasoningWith(id)
    case ReasoningEnded(id, _) => ReasoningWith(id)
    case ToolInputDelta(id, _) => ToolWith(id)
    case ToolCalled(id, _, _, _) => ToolWith(id)
    case ToolProgress(id, _, _) => ToolWith(id)
    case ToolSuccess(id, _, _, _, _) => ToolWith(id)
    case ToolFailed(id, _, _, _) => ToolWith(id)
    case _ => IsText
  }

  function EditedItem(e: Event, x: Item): Item {
    match e
    case TextDelta(delta) => if x.TextItem? then TextItem(x.text + delta) else x
    case TextEnded(text) => if x.TextItem? then TextItem(text) else x
    case ReasoningDelta(_, delta) => if x.ReasoningItem? then x.(text := x.text + delta) else x
    case ReasoningEnded(_, text) => if x.ReasoningItem? then x.(text := text) else x
    case ToolInputDelta(_, delta) =>
      if x.ToolItem? && x.state.Pending? then x.(state := Pending(x.state.partialInput + delta)) else x
    case ToolCalled(_, input, provider, at) =>
      if x.ToolItem? then x.(provider := Some(provider), ran := Some(at), state := Running(input, "{}", [])) else x
    case ToolProgress(_, structured, output) =>
      if x.ToolItem? && x.state.Running? then x.(state := Running(x.state.input, structured, output)) else x
    case ToolSuccess(_, structured, output, provider, at) =>
      if x.ToolItem? && x.state.Running?
      then x.(provider := Some(provider), completed := Some(at), state := Completed(x.state.input, structured, output))
      else x
    case ToolFailed(_, error, provider, at) =>
      if x.ToolItem? && x.state.Running?
      then x.(provider := Some(provider), completed := Some(at),
              state := Errored(x.state.input, x.state.structured, x.state.output, error))
      else x
    case _ => x
  }

  function EditItem(e: Event): Item -> Item { (x: Item) => EditedItem(e, x) }

  function EditedContent(e: Event, content: seq<Item>): seq<Item> {
    if PushesItem(e) then content + [NewItem(e)]
    else if EditsItem(e) then EditLast(content, TargetItem(e), EditItem(e))
    else content
  }

  function Snapshot(s: string): Option<string> { if s == "" then None else Some(s) }

  /** What an event does to the message it is about. */
  function EditedMessage(e: Event, m: Message): Message {
    match e
    case ShellEnded(_, output, at) =>
      if m.ShellMessage? then m.(output := output, completed := Some(at)) else m
    case StepStarted(_, _, _, _, at) =>
      if m.AssistantMessage? then m.(completed := Some(at)) else m
    case StepEnded(finish, usage, snapshot, at) =>
      if m.AssistantMessage?
      then m.(completed := Some(at), finish := Some(finish), usage := Some(usage),
              snapshotEnd := if snapshot == "" then m.snapshotEnd else Some(snapshot))
      else m
    case StepFailed(error, at) =>
      if m.AssistantMessage? then m.(completed := Some(at), finish := Some("error"), error := Some(error)) else m
    case CompactionDelta(text) => if m.CompactionMessage? then m.(summary := m.summary + text) else m
    case CompactionEnded(text, included) =>
      if m.CompactionMessage? then m.(summary := text, included := included) else m
    case _ => if m.AssistantMessage? then m.(content := EditedContent(e, m.content)) else m
  }

  function EditMessage(e: Event): Message -> Message { (m: Message) => EditedMessage(e, m) }

  /** The message an event is about, among those events that edit one. */
  function TargetMessage(e: Event): Message -> bool {
    match e
    case ShellEnded(callID, _, _) => ShellWith(callID)
    case CompactionDelta(_) => IsCompaction
    case CompactionEnded(_, _) => IsCompaction
    case _ => IsOpen
  }

  predicate EditsMessage(e: Event) {
    || PushesItem(e) || EditsItem(e) || e.ShellEnded? || e.StepStarted? || e.StepEnded? || e.StepFailed?
    || e.CompactionDelta? || e.CompactionEnded?
  }

  predicate AppendsMessage(e: Event) {
    || e.AgentSwitched? || e.ModelSwitched? || e.Prompted? || e.Synthetic?
    || e.ShellStarted? || e.StepStarted? || e.CompactionStarted?
  }

  function NewMessage(e: Event): Message
    requires AppendsMessage(e)
  {
    match e
    case AgentSwitched(id, metadata, agent, at) => AgentMessage(id, metadata, agent, at)
    case ModelSwitched(id, metadata, model, at) => ModelMessage(id, metadata, model, at)
    case Prompted(id, metadata, prompt, at) => UserMessage(id, metadata, prompt, at)
    case Synthetic(id, sessionID, text, at) => SyntheticMessage(id, sessionID, text, at)
    case ShellStarted(id, metadata, callID, command, at) => ShellMessage(id, metadata, callID, command, "", at, None)
    case StepStarted(id, agent, model, snapshot, at) =>
      AssistantMessage(id, agent, model, [], Snapshot(snapshot), None, None, None, None, at, None)
    case CompactionStarted(id, metadata, reason, at) => CompactionMessage(id, metadata, reason, "", None, at)
  }

  /** One event. A new step first completes the open assistant, if any, and then appends its own. */
  function Apply(messages: seq<Message>, e: Event): seq<Message> {
    var edited := if EditsMessage(e) then EditLast(messages, TargetMessage(e), EditMessage(e)) else messages;
    if AppendsMessage(e) then edited + [NewMessage(e)] else edited
  }

  function RunFrom(messages: seq<Message>, log: seq<Event>): seq<Message>
    decreases |log|
  {
    if log == [] then messages else RunFrom(Apply(messages, log[0]), log[1..])
  }

  function Project(log: seq<Event>): seq<Message> { RunFrom([], log) }

  lemma {:induction false} RunConcat(messages: seq<Message>, a: seq<Event>, b: seq<Event>)
    ensures RunFrom(messages, a + b) == RunFrom(RunFrom(messages, a), b)
    decreases |a|
  {
    if a == [] {
      assert a + b == b;
    } else {
      assert (a + b)[1..] == a[1..] + b;
      RunConcat(Apply(messages, a[0]), a[1..], b);
    }
  }

  lemma ProjectPush(log: seq<Event>, e: Event)
    ensures Project(log + [e]) == Apply(Project(log), e)
  {
    RunConcat([], log, [e]);
    assert [e][1..] == [];
  }

  // ---------------------------------------------------------------- the in-memory adapter

  class MemoryState {
    var messages: seq<Message>

    constructor ()
      ensures messages == []
    {
      messages := [];
    }

    method ActiveIndex(p: Message -> bool) returns (index: int)
      ensures index == LastIndex(messages, p)
    {
      index := |messages| - 1;
      assert messages[..|messages|] == messages;
      while index >= 0 && !p(messages[index])
        invariant -1 <= index < |messages|
        invariant LastIndex(messages, p) == LastIndex(messages[..index + 1], p)
      {
        assert messages[..index + 1][..index] == messages[..index];
        index := index - 1;
      }
    }

    /** `getCurrent…`, `produce` and `update…` in one: replace the latest matching message. */
    method Replace(p: Message -> bool, f: Message -> Message)
      modifies this
      ensures messages == EditLast(old(messages), p, f)
    {
      var index := ActiveIndex(p);
      if index >= 0 {
        messages := messages[index := f(messages[index])];
      }
    }

    method AppendMessage(m: Message)
      modifies this
      ensures messages == old(messages) + [m]
    {
      messages := messages + [m];
    }

    method Update(e: Event)
      modifies this
      ensures messages == Apply(old(messages), e)
    {
      if e.ShellEnded? {
        Replace(ShellWith(e.callID), EditMessage(e));
      } else if e.CompactionDelta? || e.CompactionEnded? {
        Replace(IsCompaction, EditMessage(e));
      } else if EditsMessage(e) {
        Replace(IsOpen, EditMessage(e));
      }
      if AppendsMessage(e) {
        AppendMessage(NewMessage(e));
      }
    }

    method UpdateAll(log: seq<Event>)
      modifies this
      ensures messages == RunFrom(old(messages), log)
    {
      for i := 0 to |log|
        invariant messages == RunFrom(old(messages), log[..i])
      {
        Update(log[i]);
        RunConcat(old(messages), log[..i], [log[i]]);
        assert log[..i] + [log[i]] == log[..i + 1] && [log[i]][1..] == [];
      }
      assert log[..|log|] == log;
    }
  }
}
