/** Accumulating one model round into an assistant message. */
module ToolAccumulate {
  import opened Wrappers
  import opened ToolEvents

  datatype Step = Step(
    content: seq<Part>,
    toolCalls: seq<Call>,
    finishReason: Option<FinishReason>,
    usage: Option<Usage>,
    metadata: Option<Metadata>)

  const FRESH: Step := Step([], [], None, None, None)

  // ---------------------------------------------------------------- specification by steps

  function Streaming(content: seq<Part>, kind: StreamKind, text: string, metadata: Option<Metadata>): seq<Part> {
    if content == [] then [Streamed(kind, text, metadata)] else
    var last := |content| - 1;
    var part := content[last];
    if part.Streamed? && part.kind == kind && text == "" then
      content[last := Streamed(kind, part.text, MergeMetadata(part.metadata, metadata))]
    else if part.Streamed? && part.kind == kind && part.metadata == metadata then
      content[last := Streamed(kind, part.text + text, part.metadata)]
    else
      content + [Streamed(kind, text, metadata)]
  }

  function Accumulated(s: Step, e: Event): Step {
    match e
    case TextDelta(_, text) => s.(content := Streaming(s.content, TextKindOf, text, None))
    case ReasoningDelta(_, text) => s.(content := Streaming(s.content, ReasoningKindOf, text, None))
    case ReasoningEnd(_, metadata) => s.(content := Streaming(s.content, ReasoningKindOf, "", metadata))
    case TextEnd(_, metadata) => s.(content := Streaming(s.content, TextKindOf, "", metadata))
    case ToolCall(call) =>
      s.(content := s.content + [CallPart(call)],
         toolCalls := if call.providerExecuted then s.toolCalls else s.toolCalls + [call])
    case ToolResult(id, name, result, providerExecuted, metadata) =>
      if providerExecuted then s.(content := s.content + [ResultPart(HostedResult(id, name, result, metadata))]) else s
    case StepFinish(_, reason, usage, metadata) =>
      s.(finishReason := Some(if reason == Stop && s.toolCalls != [] then ToolCalls else reason),
         usage := AddUsage(s.usage, usage),
         metadata := MergeMetadata(s.metadata, metadata))
    case Finish(reason, usage, metadata) =>
      s.(finishReason := if s.finishReason.None? then Some(reason) else s.finishReason,
         usage := if s.usage.None? then usage else s.usage,
         metadata := MergeMetadata(s.metadata, metadata))
    case _ => s
  }

  function Round(events: seq<Event>): Step {
    if events == [] then FRESH else
    var last := |events| - 1;
    Accumulated(Round(events[..last]), events[last])
  }

  // ---------------------------------------------------------------- the mutable state

  class StepState {
    var content: seq<Part>
    var toolCalls: seq<Call>
    var finishReason: Option<FinishReason>
    var usage: Option<Usage>
    var metadata: Option<Metadata>

    function View(): Step
      reads this
    {
      Step(content, toolCalls, finishReason, usage, metadata)
    }

    constructor ()
      ensures View() == FRESH
    {
      content, toolCalls, finishReason, usage, metadata := [], [], None, None, None;
    }

    method Accumulate(e: Event)
      modifies this
      ensures View() == Accumulated(old(View()), e)
    {
      match e {
        case TextDelta(_, text) => AppendStreamingText(TextKindOf, text, None);
        case ReasoningDelta(_, text) => AppendStreamingText(ReasoningKindOf, text, None);
        case ReasoningEnd(_, m) => AppendStreamingText(ReasoningKindOf, "", m);
        case TextEnd(_, m) => AppendStreamingText(TextKindOf, "", m);
        case ToolCall(call) =>
          content := content + [CallPart(call)];
          if !call.providerExecuted {
            toolCalls := toolCalls + [call];
          }
        case ToolResult(id, name, result, providerExecuted, m) =>
          if providerExecuted {
            content := content + [ResultPart(HostedResult(id, name, result, m))];
          }
        case StepFinish(_, reason, u, m) =>
          finishReason := Some(if reason == Stop && |toolCalls| > 0 then ToolCalls else reason);
          usage := AddUsage(usage, u);
          metadata := MergeMetadata(metadata, m);
        case Finish(reason, u, m) =>
          if finishReason.None? {
            finishReason := Some(reason);
          }
          if usage.None? {
            usage := u;
          }
          metadata := MergeMetadata(metadata, m);
        case _ =>
      }
    }

    method AppendStreamingText(kind: StreamKind, text: string, m: Option<Metadata>)
      modifies `content
      ensures content == Streaming(old(content), kind, text, m)
    {
      if |content| > 0 {
        var last := |content| - 1;
        var part := content[last];
        if part.Streamed? && part.kind == kind {
          if text == "" {
            content := content[last := Streamed(kind, part.text, MergeMetadata(part.metadata, m))];
            return;
          }
          if part.metadata == m {
            content := content[last := Streamed(kind, part.text + text, part.metadata)];
            return;
          }
        }
      }
      content := content + [Streamed(kind, text, m)];
    }
  }

  /** Tapping a finite model stream leaves the state of the whole round. */
  method AccumulateAll(events: seq<Event>) returns (s: Step)
    ensures s == Round(events)
  {
    var state := new StepState();
    for i := 0 to |events|
      invariant fresh(state) && state.View() == Round(events[..i])
    {
      state.Accumulate(events[i]);
      assert events[..i + 1][..i] == events[..i];
    }
    assert events[..|events|] == events;
    return state.View();
  }

  // ---------------------------------------------------------------- conservation

  /** What a message says, independent of how it is cut into parts. */
  datatype Atom =
    | TextChar(c: char)
    | ReasoningChar(c: char)
    | CallAtom(call: Call)
    | ResultAtom(hosted: HostedResult)

  function Chars(kind: StreamKind, text: string): seq<Atom> {
    seq(|text|, i requires 0 <= i < |text| =>
      if kind == TextKindOf then TextChar(text[i]) else ReasoningChar(text[i]))
  }

  function PartAtoms(p: Part): seq<Atom> {
    match p
    case Streamed(kind, text, _) => Chars(kind, text)
    case CallPart(call) => [CallAtom(call)]
    case ResultPart(hosted) => [ResultAtom(hosted)]
  }

  function EventAtoms(e: Event): seq<Atom> {
    match e
    case TextDelta(_, text) => Chars(TextKindOf, text)
    case ReasoningDelta(_, text) => Chars(ReasoningKindOf, text)
    case ToolCall(call) => [CallAtom(call)]
    case ToolResult(id, name, result, true, m) => [ResultAtom(HostedResult(id, name, result, m))]
    case _ => []
  }

  function ContentAtoms(content: seq<Part>): seq<Atom> {
    if content == [] then [] else
    var last := |content| - 1;
    ContentAtoms(content[..last]) + PartAtoms(content[last])
  }

  function StreamAtoms(events: seq<Event>): seq<Atom> {
    if events == [] then [] else
    var last := |events| - 1;
    StreamAtoms(events[..last]) + EventAtoms(events[last])
  }

  /** The calls the client must execute, in stream order. */
  function ClientCalls(atoms: seq<Atom>): seq<Call> {
    if atoms == [] then [] else
    var last := |atoms| - 1;
    var a := atoms[last];
    ClientCalls(atoms[..last]) + if a.CallAtom? && !a.call.providerExecuted then [a.call] else []
  }

  lemma {:induction false} ClientCallsConcat(a: seq<Atom>, b: seq<Atom>)
    ensures ClientCalls(a + b) == ClientCalls(a) + ClientCalls(b)
  {
    if b == [] {
      assert a + b == a;
    } else {
      var last := |b| - 1;
      assert (a + b)[..|a| + last] == a + b[..last];
      ClientCallsConcat(a, b[..last]);
    }
  }

  lemma {:induction false} NoCallsInChars(kind: StreamKind, text: string)
    ensures ClientCalls(Chars(kind, text)) == []
  {
    if text == "" {
    } else {
      var last := |text| - 1;
      assert Chars(kind, text)[..last] == Chars(kind, text[..last]);
      NoCallsInChars(kind, text[..last]);
    }
  }

  /** When the last part comes to say more at its end, so does the message. */
  lemma ExtendLastAtoms(content: seq<Part>, p: Part, more: seq<Atom>)
    requires content != [] && PartAtoms(p) == PartAtoms(content[|content| - 1]) + more
    ensures ContentAtoms(content[|content| - 1 := p]) == ContentAtoms(content) + more
  {
    var rest := content[..|content| - 1];
    assert content[|content| - 1 := p] == rest + [p];
    PushAtoms(rest, p);
  }

  lemma StreamingAtoms(content: seq<Part>, kind: StreamKind, text: string, m: Option<Metadata>)
    ensures ContentAtoms(Streaming(content, kind, text, m)) == ContentAtoms(content) + Chars(kind, text)
  {
    if content == [] || !content[|content| - 1].Streamed? || content[|content| - 1].kind != kind {
      PushAtoms(content, Streamed(kind, text, m));
    } else {
      var part := content[|content| - 1];
      if text == "" {
        ExtendLastAtoms(content, Streamed(kind, part.text, MergeMetadata(part.metadata, m)), Chars(kind, ""));
      } else if part.metadata == m {
        ExtendLastAtoms(content, Streamed(kind, part.text + text, part.metadata), Chars(kind, text));
      } else {
        PushAtoms(content, Streamed(kind, text, m));
      }
    }
  }

  lemma PushAtoms(content: seq<Part>, p: Part)
    ensures ContentAtoms(content + [p]) == ContentAtoms(content) + PartAtoms(p)
  {
    assert (content + [p])[..|content|] == content;
  }

  /** One event adds to the message what the event says, and its call to the pending ones. */
  lemma AccumulateConserves(s: Step, e: Event)
    ensures ContentAtoms(Accumulated(s, e).content) == ContentAtoms(s.content) + EventAtoms(e)
    ensures Accumulated(s, e).toolCalls == s.toolCalls + ClientCalls(EventAtoms(e))
  {
    ContentConserved(s, e);
    CallsConserved(s, e);
  }

  lemma StreamedConserved(content: seq<Part>, after: seq<Part>, kind: StreamKind, text: string, m: Option<Metadata>,
                          atoms: seq<Atom>)
    requires after == Streaming(content, kind, text, m) && atoms == Chars(kind, text)
    ensures ContentAtoms(after) == ContentAtoms(content) + atoms
  {
    StreamingAtoms(content, kind, text, m);
  }

  lemma PushedConserved(content: seq<Part>, after: seq<Part>, p: Part, atoms: seq<Atom>)
    requires after == content + [p] && atoms == PartAtoms(p)
    ensures ContentAtoms(after) == ContentAtoms(content) + atoms
  {
    PushAtoms(content, p);
  }

  lemma ContentConserved(s: Step, e: Event)
    ensures ContentAtoms(Accumulated(s, e).content) == ContentAtoms(s.content) + EventAtoms(e)
  {
    if e.TextDelta? || e.TextEnd? {
      TextConserved(s, e);
    } else if e.ReasoningDelta? || e.ReasoningEnd? {
      ReasoningConserved(s, e);
    } else if e.ToolCall? || e.ToolResult? {
      ToolsConserved(s, e);
    } else {
      assert Accumulated(s, e).content == s.content && EventAtoms(e) == [];
    }
  }

  lemma TextConserved(s: Step, e: Event)
    requires e.TextDelta? || e.TextEnd?
    ensures ContentAtoms(Accumulated(s, e).content) == ContentAtoms(s.content) + EventAtoms(e)
  {
    var text, m := if e.TextDelta? then e.text else "", if e.TextDelta? then None else e.metadata;
    StreamedConserved(s.content, Accumulated(s, e).content, TextKindOf, text, m, EventAtoms(e));
  }

  lemma ReasoningConserved(s: Step, e: Event)
    requires e.ReasoningDelta? || e.ReasoningEnd?
    ensures ContentAtoms(Accumulated(s, e).content) == ContentAtoms(s.content) + EventAtoms(e)
  {
    var text, m := if e.ReasoningDelta? then e.text else "", if e.ReasoningDelta? then None else e.metadata;
    StreamedConserved(s.content, Accumulated(s, e).content, ReasoningKindOf, text, m, EventAtoms(e));
  }

  lemma ToolsConserved(s: Step, e: Event)
    requires e.ToolCall? || e.ToolResult?
    ensures ContentAtoms(Accumulated(s, e).content) == ContentAtoms(s.content) + EventAtoms(e)
  {
    var after := Accumulated(s, e).content;
    if e.ToolCall? {
      PushedConserved(s.content, after, CallPart(e.call), EventAtoms(e));
    } else if e.providerExecuted {
      PushedConserved(s.content, after, ResultPart(HostedResult(e.id, e.name, e.result, e.metadata)), EventAtoms(e));
    } else {
      assert after == s.content && EventAtoms(e) == [];
    }
  }

  lemma CallsConserved(s: Step, e: Event)
    ensures Accumulated(s, e).toolCalls == s.toolCalls + ClientCalls(EventAtoms(e))
  {
    if e.TextDelta? {
      NoCallsInChars(TextKindOf, e.text);
    } else if e.ReasoningDelta? {
      NoCallsInChars(ReasoningKindOf, e.text);
    } else if e.ToolCall? {
      OneCall(CallAtom(e.call));
    } else if e.ToolResult? && e.providerExecuted {
      OneCall(ResultAtom(HostedResult(e.id, e.name, e.result, e.metadata)));
    }
  }

  /** No loss, duplication or reordering: the message says exactly what the stream said, and the
      calls awaiting execution are exactly its client-executed calls, in order. */
  lemma {:induction false} RoundConserves(events: seq<Event>)
    ensures ContentAtoms(Round(events).content) == StreamAtoms(events)
    ensures Round(events).toolCalls == ClientCalls(StreamAtoms(events))
  {
    if events == [] {
    } else {
      var last := |events| - 1;
      RoundConserves(events[..last]);
      AccumulateConserves(Round(events[..last]), events[last]);
      ClientCallsConcat(StreamAtoms(events[..last]), EventAtoms(events[last]));
    }
  }

  lemma OneCall(a: Atom)
    ensures ClientCalls([a]) == if a.CallAtom? && !a.call.providerExecuted then [a.call] else []
  {
    assert [a][..0] == [];
  }

  // ---------------------------------------------------------------- metadata and coalescing

  function ContentMetadata(kind: StreamKind, content: seq<Part>): Option<Metadata> {
    if content == [] then None else
    var last := |content| - 1;
    var rest := ContentMetadata(kind, content[..last]);
    if content[last].Streamed? && content[last].kind == kind then MergeMetadata(rest, content[last].metadata) else rest
  }

  function StreamMetadata(kind: StreamKind, events: seq<Event>): Option<Metadata> {
    if events == [] then None else
    var last := |events| - 1;
    MetadataAfter(kind, StreamMetadata(kind, events[..last]), events[last])
  }

  function MetadataAfter(kind: StreamKind, rest: Option<Metadata>, e: Event): Option<Metadata> {
    match e
    case TextEnd(_, m) => if kind == TextKindOf then MergeMetadata(rest, m) else rest
    case ReasoningEnd(_, m) => if kind == ReasoningKindOf then MergeMetadata(rest, m) else rest
    case _ => rest
  }

  lemma StreamingMetadata(kind: StreamKind, content: seq<Part>, k: StreamKind, text: string, m: Option<Metadata>)
    requires text == "" || m.None?
    ensures ContentMetadata(kind, Streaming(content, k, text, m))
         == if k == kind then MergeMetadata(ContentMetadata(kind, content), m) else ContentMetadata(kind, content)
  {
    var result := Streaming(content, k, text, m);
    if content == [] {
      assert result[..0] == [];
    } else {
      var last := |content| - 1;
      if |result| == |content| {
        assert result[..last] == content[..last];
        MergeAssociative(ContentMetadata(kind, content[..last]), content[last].metadata, m);
      } else {
        assert result[..last + 1] == content;
      }
    }
  }

  /** Block metadata survives coalescing: merged over the parts it is what was merged over the ends. */
  lemma {:induction false} RoundKeepsMetadata(kind: StreamKind, events: seq<Event>)
    ensures ContentMetadata(kind, Round(events).content) == StreamMetadata(kind, events)
  {
    if events == [] {
    } else {
      var last := |events| - 1;
      RoundKeepsMetadata(kind, events[..last]);
      AccumulateKeepsMetadata(kind, Round(events[..last]), events[last]);
    }
  }

  lemma AccumulateKeepsMetadata(kind: StreamKind, s: Step, e: Event)
    ensures ContentMetadata(kind, Accumulated(s, e).content) == MetadataAfter(kind, ContentMetadata(kind, s.content), e)
  {
    if e.TextDelta? {
      StreamingMetadata(kind, s.content, TextKindOf, e.text, None);
    } else if e.ReasoningDelta? {
      StreamingMetadata(kind, s.content, ReasoningKindOf, e.text, None);
    } else if e.TextEnd? {
      StreamingMetadata(kind, s.content, TextKindOf, "", e.metadata);
    } else if e.ReasoningEnd? {
      StreamingMetadata(kind, s.content, ReasoningKindOf, "", e.metadata);
    } else if e.ToolCall? {
      PushedMetadata(kind, s.content, CallPart(e.call));
    } else if e.ToolResult? && e.providerExecuted {
      PushedMetadata(kind, s.content, ResultPart(HostedResult(e.id, e.name, e.result, e.metadata)));
    } else {
      assert Accumulated(s, e).content == s.content;
    }
  }

  lemma PushedMetadata(kind: StreamKind, content: seq<Part>, p: Part)
    requires !p.Streamed?
    ensures ContentMetadata(kind, content + [p]) == ContentMetadata(kind, content)
  {
    assert (content + [p])[..|content|] == content;
  }

  /** Neighbouring parts of one kind are split only where the first carries metadata. */
  predicate Coalesced(content: seq<Part>) {
    forall i | 0 <= i < |content| - 1 ::
      content[i].Streamed? && content[i + 1].Streamed? && content[i].kind == content[i + 1].kind
      ==> content[i].metadata.Some?
  }

  lemma {:induction false} RoundCoalesces(events: seq<Event>)
    ensures Coalesced(Round(events).content)
  {
    if events == [] {
    } else {
      RoundCoalesces(events[..|events| - 1]);
    }
  }

  // ---------------------------------------------------------------- the finish reason

  predicate LastStepFinish(events: seq<Event>, i: int) {
    0 <= i < |events| && events[i].StepFinish? && forall j :: i < j < |events| ==> !events[j].StepFinish?
  }

  /** The last step-finish event decides; a step that stops after client calls finishes with tool calls. */
  lemma {:induction false} StepFinishDecides(events: seq<Event>, i: int)
    requires LastStepFinish(events, i)
    ensures Round(events).finishReason == Some(StepReason(events[i], ClientCalls(StreamAtoms(events[..i]))))
  {
    var last := |events| - 1;
    ReasonAfter(Round(events[..last]), events[last]);
    if i == last {
      RoundConserves(events[..last]);
    } else {
      assert events[..last][..i] == events[..i];
      StepFinishDecides(events[..last], i);
    }
  }

  function StepReason(e: Event, calls: seq<Call>): FinishReason
    requires e.StepFinish?
  {
    if e.reason == Stop && calls != [] then ToolCalls else e.reason
  }

  lemma ReasonAfter(s: Step, e: Event)
    ensures e.StepFinish? ==> Accumulated(s, e).finishReason == Some(StepReason(e, s.toolCalls))
    ensures !e.StepFinish? && s.finishReason.Some? ==> Accumulated(s, e).finishReason == s.finishReason
  {
  }

  /** Without one the first finish event does, and its tool calls are left to the caller. */
  lemma {:induction false} FinishDecides(events: seq<Event>, i: int)
    requires forall j :: 0 <= j < |events| ==> !events[j].StepFinish?
    requires 0 <= i <= |events| && forall j :: 0 <= j < i ==> !events[j].Finish?
    requires i < |events| ==> events[i].Finish?
    ensures Round(events).finishReason == if i < |events| then Some(events[i].reason) else None
  {
    if events == [] {
    } else {
      var last := |events| - 1;
      FinishDecides(events[..last], if i <= last then i else last);
    }
  }
}
