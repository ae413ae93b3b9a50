/** Placing cache hints on a request according to its policy. */
module CachePolicy {
  import opened Wrappers

  datatype Hint = Hint(persistent: bool, ttlSeconds: Option<int>)

  datatype Role = User | Assistant | ToolRole | SystemRole

  datatype PartKind = TextPart | MediaPart | ToolCallPart | ToolResultPart | ReasoningPart

  datatype Part = Part(kind: PartKind, payload: string, cache: Option<Hint>)

  /** The kinds of message parts that have a place for a hint. */
  predicate CarriesHint(kind: PartKind) { kind == TextPart || kind == ToolResultPart }

  datatype Message = Message(role: Role, content: seq<Part>)

  datatype Strategy = LatestUser | LatestAssistant | LastMessages(tail: int)

  datatype Policy = Policy(tools: bool, system: bool, messages: Option<Strategy>, ttlSeconds: Option<int>)

  datatype Choice = Auto | Nothing | Chosen(policy: Policy)

  /** Tools and system parts are parts too: what matters is their order and their hints. */
  datatype Request = Request(
    route: string,
    tools: seq<Part>,
    system: seq<Part>,
    messages: seq<Message>,
    cache: Option<Choice>)

  function Resolve(choice: Option<Choice>): Policy {
    match choice
    case None => Policy(true, true, Some(LatestUser), None)
    case Some(Auto) => Policy(true, true, Some(LatestUser), None)
    case Some(Nothing) => Policy(false, false, None, None)
    case Some(Chosen(policy)) => policy
  }

  const ROUTES: set<string> := {"anthropic-messages", "bedrock-converse"}

  // ---------------------------------------------------------------- placing

  predicate Hinted(parts: seq<Part>, at: int) { 0 <= at < |parts| && parts[at].cache.Some? }

  /** Fill one slot; a hint that is there already stays. */
  function MarkPart(parts: seq<Part>, at: int, hint: Hint): seq<Part> {
    if 0 <= at < |parts| && parts[at].cache.None? then parts[at := parts[at].(cache := Some(hint))] else parts
  }

  function MarkLast(parts: seq<Part>, hint: Hint): seq<Part> { MarkPart(parts, |parts| - 1, hint) }

  function LastText(parts: seq<Part>): (at: int)
    ensures -1 <= at < |parts|
    ensures at >= 0 ==> parts[at].kind == TextPart
    ensures forall j :: at < j < |parts| ==> parts[j].kind != TextPart
  {
    if parts == [] then -1
    else if parts[|parts| - 1].kind == TextPart then |parts| - 1
    else LastText(parts[..|parts| - 1])
  }

  /** The last text part of a message, or its last part when none is text. */
  function Breakpoint(parts: seq<Part>): (at: int)
    ensures -1 <= at < |parts| && (at == -1 <==> parts == [])
  {
    if LastText(parts) >= 0 then LastText(parts) else |parts| - 1
  }

  /** Does the message have a breakpoint that could carry a hint? */
  predicate Markable(m: Message) {
    m.content != [] && CarriesHint(m.content[Breakpoint(m.content)].kind)
  }

  function MarkMessage(m: Message, hint: Hint): Message {
    if Markable(m) then m.(content := MarkPart(m.content, Breakpoint(m.content), hint)) else m
  }

  function MarkMessageAt(messages: seq<Message>, index: int, hint: Hint): seq<Message> {
    if 0 <= index < |messages| then messages[index := MarkMessage(messages[index], hint)] else messages
  }

  function LastOfRole(messages: seq<Message>, role: Role): (i: int)
    ensures -1 <= i < |messages|
    ensures i >= 0 ==> messages[i].role == role
    ensures forall j :: i < j < |messages| ==> messages[j].role != role
  {
    if messages == [] then -1
    else if messages[|messages| - 1].role == role then |messages| - 1
    else LastOfRole(messages[..|messages| - 1], role)
  }

  /** The messages from `start` on are marked, the others are not. */
  function MarkFrom(messages: seq<Message>, start: int, hint: Hint): seq<Message> {
    seq(|messages|, i requires 0 <= i < |messages| =>
      if start <= i then MarkMessage(messages[i], hint) else messages[i])
  }

  function TailStart(messages: seq<Message>, tail: int): int {
    if |messages| - tail < 0 then 0 else |messages| - tail
  }

  function MarkedMessages(messages: seq<Message>, strategy: Strategy, hint: Hint): seq<Message> {
    match strategy
    case LatestUser => MarkMessageAt(messages, LastOfRole(messages, User), hint)
    case LatestAssistant => MarkMessageAt(messages, LastOfRole(messages, Assistant), hint)
    case LastMessages(tail) => MarkFrom(messages, TailStart(messages, tail), hint)
  }

  method MarkMessages(messages: seq<Message>, strategy: Strategy, hint: Hint) returns (next: seq<Message>)
    ensures next == MarkedMessages(messages, strategy, hint)
  {
    if strategy == LatestUser {
      return MarkMessageAt(messages, LastOfRole(messages, User), hint);
    }
    if strategy == LatestAssistant {
      return MarkMessageAt(messages, LastOfRole(messages, Assistant), hint);
    }
    var start := TailStart(messages, strategy.tail);
    next := messages;
    var i := start;
    while i < |messages|
      invariant start <= i && (start <= |messages| ==> i <= |messages|)
      invariant |next| == |messages|
      invariant forall k :: 0 <= k < |messages| ==>
        next[k] == if start <= k < i then MarkMessage(messages[k], hint) else messages[k]
      decreases |messages| - i
    {
      next := MarkMessageAt(next, i, hint);
      i := i + 1;
    }
  }

  function Placed(r: Request): Request {
    if r.route !in ROUTES then r else
    var policy := Resolve(r.cache);
    var hint := Hint(false, policy.ttlSeconds);
    r.(tools := if policy.tools then MarkLast(r.tools, hint) else r.tools,
       system := if policy.system then MarkLast(r.system, hint) else r.system,
       messages := if policy.messages.None? then r.messages
                   else MarkedMessages(r.messages, policy.messages.value, hint))
  }

  // ---------------------------------------------------------------- nothing but hints changes

  function ErasedParts(parts: seq<Part>): seq<Part> {
    seq(|parts|, i requires 0 <= i < |parts| => parts[i].(cache := None))
  }

  function ErasedMessages(messages: seq<Message>): seq<Message> {
    seq(|messages|, i requires 0 <= i < |messages| => messages[i].(content := ErasedParts(messages[i].content)))
  }

  function Erased(r: Request): Request {
    r.(tools := ErasedParts(r.tools), system := ErasedParts(r.system), messages := ErasedMessages(r.messages))
  }

  /** The parts are the same ones, and every hint that was there is still the same. */
  predicate OnlyFills(before: seq<Part>, after: seq<Part>, hint: Hint) {
    && |before| == |after|
    && forall i :: 0 <= i < |before| ==>
         after[i] == before[i] || (before[i].cache.None? && after[i] == before[i].(cache := Some(hint)))
  }

  function Hints(parts: seq<Part>): nat {
    if parts == [] then 0 else (if parts[0].cache.Some? then 1 else 0) + Hints(parts[1..])
  }

  function MessageHints(messages: seq<Message>): nat {
    if messages == [] then 0 else Hints(messages[0].content) + MessageHints(messages[1..])
  }

  lemma {:induction false} HintsAfterMark(parts: seq<Part>, at: int, hint: Hint)
    ensures Hints(MarkPart(parts, at, hint)) == Hints(parts) + if 0 <= at < |parts| && !Hinted(parts, at) then 1 else 0
  {
    if parts == [] {
    } else {
      if at > 0 {
        assert MarkPart(parts, at, hint)[1..] == MarkPart(parts[1..], at - 1, hint);
        HintsAfterMark(parts[1..], at - 1, hint);
      } else if at == 0 {
        assert MarkPart(parts, at, hint)[1..] == parts[1..];
      }
    }
  }

  lemma {:induction false} LastTextByKinds(a: seq<Part>, b: seq<Part>)
    requires |a| == |b| && forall i :: 0 <= i < |a| ==> a[i].kind == b[i].kind
    ensures LastText(a) == LastText(b)
  {
    if a == [] {
    } else {
      LastTextByKinds(a[..|a| - 1], b[..|b| - 1]);
    }
  }

  lemma MarkKeepsBreakpoint(parts: seq<Part>, at: int, hint: Hint)
    ensures Breakpoint(MarkPart(parts, at, hint)) == Breakpoint(parts)
  {
    LastTextByKinds(parts, MarkPart(parts, at, hint));
  }

  /** The message's breakpoint is empty and could carry a hint. */
  predicate Gains(m: Message) { Markable(m) && !Hinted(m.content, Breakpoint(m.content)) }

  lemma MarkTwice(m: Message, hint: Hint)
    ensures MarkMessage(MarkMessage(m, hint), hint) == MarkMessage(m, hint)
    ensures OnlyFills(m.content, MarkMessage(m, hint).content, hint)
    ensures ErasedParts(MarkMessage(m, hint).content) == ErasedParts(m.content)
    ensures MarkMessage(m, hint).role == m.role
    ensures Hints(MarkMessage(m, hint).content) == Hints(m.content) + if Gains(m) then 1 else 0
  {
    MarkKeepsBreakpoint(m.content, Breakpoint(m.content), hint);
    HintsAfterMark(m.content, Breakpoint(m.content), hint);
  }

  /** What marking did to each message: one mark where `marked` says so, else nothing. */
  predicate EachMarkedOrNot(before: seq<Message>, after: seq<Message>, hint: Hint, marked: seq<bool>) {
    && |before| == |after| == |marked|
    && forall i :: 0 <= i < |before| ==> after[i] == if marked[i] then MarkMessage(before[i], hint) else before[i]
  }

  function Gaining(messages: seq<Message>, marked: seq<bool>): seq<bool>
    requires |messages| == |marked|
  {
    seq(|messages|, i requires 0 <= i < |messages| => marked[i] && Gains(messages[i]))
  }

  /** Is this message one that the strategy names? */
  predicate Named(messages: seq<Message>, strategy: Strategy, i: int) {
    match strategy
    case LatestUser => i == LastOfRole(messages, User)
    case LatestAssistant => i == LastOfRole(messages, Assistant)
    case LastMessages(tail) => TailStart(messages, tail) <= i
  }

  function Targets(messages: seq<Message>, strategy: Strategy): seq<bool> {
    seq(|messages|, i requires 0 <= i < |messages| => Named(messages, strategy, i))
  }

  /** Exactly the messages the strategy names are marked. */
  lemma StrategyMarks(messages: seq<Message>, strategy: Strategy, hint: Hint)
    ensures EachMarkedOrNot(messages, MarkedMessages(messages, strategy, hint), hint, Targets(messages, strategy))
  {
  }

  function Count(marked: seq<bool>): nat {
    if marked == [] then 0 else (if marked[0] then 1 else 0) + Count(marked[1..])
  }

  lemma {:induction false} CountNone(marked: seq<bool>)
    requires forall i :: 0 <= i < |marked| ==> !marked[i]
    ensures Count(marked) == 0
  {
    if marked == [] {
    } else {
      CountNone(marked[1..]);
    }
  }

  lemma {:induction false} CountOne(marked: seq<bool>, at: int)
    requires forall i :: 0 <= i < |marked| ==> (marked[i] ==> i == at)
    ensures Count(marked) <= 1
  {
    if marked == [] {
    } else {
      if marked[0] {
        CountNone(marked[1..]);
      } else {
        CountOne(marked[1..], at - 1);
      }
    }
  }

  lemma {:induction false} CountTail(marked: seq<bool>, start: int)
    requires forall i :: 0 <= i < |marked| ==> (marked[i] ==> start <= i)
    ensures Count(marked) <= if start < 0 then |marked| else if start <= |marked| then |marked| - start else 0
  {
    if marked == [] {
    } else {
      CountTail(marked[1..], start - 1);
    }
  }

  lemma {:induction false} MarkedHints(before: seq<Message>, after: seq<Message>, hint: Hint, marked: seq<bool>)
    requires EachMarkedOrNot(before, after, hint, marked)
    ensures MessageHints(after) == MessageHints(before) + Count(Gaining(before, marked))
  {
    if before == [] {
    } else {
      MarkedHints(before[1..], after[1..], hint, marked[1..]);
      MarkTwice(before[0], hint);
      assert Gaining(before, marked)[1..] == Gaining(before[1..], marked[1..]);
    }
  }

  // ---------------------------------------------------------------- the main results

  /** Erasing all hints gives the same request before and after. */
  lemma PlacementOnlyPlaces(r: Request)
    ensures Erased(Placed(r)) == Erased(r)
  {
    var policy := Resolve(r.cache);
    var hint := Hint(false, policy.ttlSeconds);
    assert ErasedParts(MarkLast(r.tools, hint)) == ErasedParts(r.tools);
    assert ErasedParts(MarkLast(r.system, hint)) == ErasedParts(r.system);
    if policy.messages.Some? {
      var after := MarkedMessages(r.messages, policy.messages.value, hint);
      StrategyMarks(r.messages, policy.messages.value, hint);
      forall i | 0 <= i < |r.messages|
        ensures ErasedMessages(after)[i] == ErasedMessages(r.messages)[i]
      {
        MarkTwice(r.messages[i], hint);
      }
      assert ErasedMessages(after) == ErasedMessages(r.messages);
    }
  }

  /** No hint is ever replaced: a part differs only if it had none, and then has the policy's. */
  lemma PlacementOnlyFills(r: Request)
    ensures var hint := Hint(false, Resolve(r.cache).ttlSeconds);
      && OnlyFills(r.tools, Placed(r).tools, hint)
      && OnlyFills(r.system, Placed(r).system, hint)
      && |Placed(r).messages| == |r.messages|
      && forall i :: 0 <= i < |r.messages| ==>
           Placed(r).messages[i].role == r.messages[i].role &&
           OnlyFills(r.messages[i].content, Placed(r).messages[i].content, hint)
  {
    var policy := Resolve(r.cache);
    var hint := Hint(false, policy.ttlSeconds);
    if policy.messages.Some? {
      StrategyMarks(r.messages, policy.messages.value, hint);
      forall i | 0 <= i < |r.messages|
        ensures OnlyFills(r.messages[i].content, MarkMessage(r.messages[i], hint).content, hint)
        ensures MarkMessage(r.messages[i], hint).role == r.messages[i].role
      {
        MarkTwice(r.messages[i], hint);
      }
    }
  }

  lemma MarkedTwice(messages: seq<Message>, strategy: Strategy, hint: Hint)
    ensures var once := MarkedMessages(messages, strategy, hint); MarkedMessages(once, strategy, hint) == once
  {
    var once := MarkedMessages(messages, strategy, hint);
    StrategyMarks(messages, strategy, hint);
    StrategyMarks(once, strategy, hint);
    forall i | 0 <= i < |messages|
      ensures MarkMessage(MarkMessage(messages[i], hint), hint) == MarkMessage(messages[i], hint)
      ensures once[i].role == messages[i].role
    {
      MarkTwice(messages[i], hint);
    }
    assert Targets(once, strategy) == Targets(messages, strategy);
    assert MarkedMessages(once, strategy, hint) == once;
  }

  /** Placing again changes nothing. */
  lemma PlacementIdempotent(r: Request)
    ensures Placed(Placed(r)) == Placed(r)
  {
    var policy := Resolve(r.cache);
    var hint := Hint(false, policy.ttlSeconds);
    assert MarkLast(MarkLast(r.tools, hint), hint) == MarkLast(r.tools, hint);
    assert MarkLast(MarkLast(r.system, hint), hint) == MarkLast(r.system, hint);
    if policy.messages.Some? {
      MarkedTwice(r.messages, policy.messages.value, hint);
    }
  }

  /** Exactly the empty breakpoints that can carry a hint get one. */
  lemma PlacementAddsExactly(r: Request)
    requires r.route in ROUTES
    ensures var policy := Resolve(r.cache);
      && Hints(Placed(r).tools) == Hints(r.tools) + (if policy.tools && LastIsEmpty(r.tools) then 1 else 0)
      && Hints(Placed(r).system) == Hints(r.system) + (if policy.system && LastIsEmpty(r.system) then 1 else 0)
      && MessageHints(Placed(r).messages) == MessageHints(r.messages) +
           if policy.messages.None? then 0
           else Count(Gaining(r.messages, Targets(r.messages, policy.messages.value)))
  {
    var policy := Resolve(r.cache);
    var hint := Hint(false, policy.ttlSeconds);
    HintsAfterMark(r.tools, |r.tools| - 1, hint);
    HintsAfterMark(r.system, |r.system| - 1, hint);
    if policy.messages.Some? {
      var strategy := policy.messages.value;
      StrategyMarks(r.messages, strategy, hint);
      MarkedHints(r.messages, MarkedMessages(r.messages, strategy, hint), hint, Targets(r.messages, strategy));
    }
  }

  predicate LastIsEmpty(parts: seq<Part>) { parts != [] && parts[|parts| - 1].cache.None? }

  /** So at most one hint is added to the tools, one to the system parts, and one to the messages, or
      for the tail strategy one to each of the last `tail` messages there are. */
  lemma PlacementAddsFew(r: Request)
    ensures Hints(Placed(r).tools) <= Hints(r.tools) + 1
    ensures Hints(Placed(r).system) <= Hints(r.system) + 1
    ensures var strategy := Resolve(r.cache).messages;
      MessageHints(Placed(r).messages) <= MessageHints(r.messages) +
        if strategy.None? then 0
        else match strategy.value
          case LastMessages(tail) => if tail < 0 then 0 else if tail < |r.messages| then tail else |r.messages|
          case _ => 1
  {
    if r.route in ROUTES {
      PlacementAddsExactly(r);
      var strategy := Resolve(r.cache).messages;
      if strategy.Some? {
        var gaining := Gaining(r.messages, Targets(r.messages, strategy.value));
        match strategy.value {
          case LatestUser => CountOne(gaining, LastOfRole(r.messages, User));
          case LatestAssistant => CountOne(gaining, LastOfRole(r.messages, Assistant));
          case LastMessages(tail) => CountTail(gaining, TailStart(r.messages, tail));
        }
      }
    }
  }

  /** The last text part, or the last part when none is text. */
  predicate IsBreakpoint(parts: seq<Part>, at: int) {
    && 0 <= at < |parts|
    && (forall j :: at < j < |parts| ==> parts[j].kind != TextPart)
    && (parts[at].kind != TextPart ==> at == |parts| - 1 && forall j :: 0 <= j < |parts| ==> parts[j].kind != TextPart)
  }

  lemma BreakpointIs(parts: seq<Part>, at: int)
    requires IsBreakpoint(parts, at)
    ensures at == Breakpoint(parts)
  {
  }

  /** Afterwards the last tool and the last system part have a hint exactly if they had one or the
      policy asks for one, and the breakpoint of a message exactly if it had one or the policy names
      the message and the breakpoint is a text or a tool result. */
  lemma PlacementReaches(r: Request)
    requires r.route in ROUTES
    ensures var policy := Resolve(r.cache);
      && (r.tools != [] ==>
           (Hinted(Placed(r).tools, |r.tools| - 1) <==> policy.tools || Hinted(r.tools, |r.tools| - 1)))
      && (r.system != [] ==>
           (Hinted(Placed(r).system, |r.system| - 1) <==> policy.system || Hinted(r.system, |r.system| - 1)))
      && |Placed(r).messages| == |r.messages|
      && forall i, at :: 0 <= i < |r.messages| && IsBreakpoint(r.messages[i].content, at) ==>
           (Hinted(Placed(r).messages[i].content, at) <==>
              || Hinted(r.messages[i].content, at)
              || (policy.messages.Some? && Named(r.messages, policy.messages.value, i) &&
                  CarriesHint(r.messages[i].content[at].kind)))
  {
    var policy := Resolve(r.cache);
    var hint := Hint(false, policy.ttlSeconds);
    if policy.messages.Some? {
      var targets := Targets(r.messages, policy.messages.value);
      StrategyMarks(r.messages, policy.messages.value, hint);
      forall i, at | 0 <= i < |r.messages| && IsBreakpoint(r.messages[i].content, at)
        ensures Hinted(Placed(r).messages[i].content, at) <==>
          Hinted(r.messages[i].content, at) || (targets[i] && CarriesHint(r.messages[i].content[at].kind))
      {
        BreakpointIs(r.messages[i].content, at);
      }
    }
  }
}
