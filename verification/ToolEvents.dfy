/** The vocabulary of the tool runtime: stream events, message parts, usage and metadata. */
module ToolEvents {
  import opened Wrappers

  /** Raw provider data: provider name to field to (encoded) value. */
  type Metadata = map<string, map<string, string>>

  datatype Usage = Usage(
    inputTokens: Option<int>,
    outputTokens: Option<int>,
    nonCachedInputTokens: Option<int>,
    cacheReadInputTokens: Option<int>,
    cacheWriteInputTokens: Option<int>,
    reasoningTokens: Option<int>,
    totalTokens: Option<int>,
    providerMetadata: Option<Metadata>)

  datatype FinishReason = Stop | Length | ToolCalls | ContentFilter | ErrorReason | Unknown

  datatype ResultKind = JsonKind | TextKind | ErrorKind | ContentKind

  datatype ToolResultValue = ToolResultValue(kind: ResultKind, value: string)

  datatype Call = Call(
    id: string, name: string, input: string, providerExecuted: bool, providerMetadata: Option<Metadata>)

  datatype HostedResult = HostedResult(
    id: string, name: string, result: ToolResultValue, providerMetadata: Option<Metadata>)

  datatype Event =
    | StepStart(index: nat)
    | TextStart(id: string)
    | TextDelta(id: string, text: string)
    | TextEnd(id: string, metadata: Option<Metadata>)
    | ReasoningStart(id: string)
    | ReasoningDelta(id: string, text: string)
    | ReasoningEnd(id: string, metadata: Option<Metadata>)
    | ToolInputStart(id: string, name: string)
    | ToolInputDelta(id: string, name: string, text: string)
    | ToolInputEnd(id: string, name: string)
    | ToolCall(call: Call)
    | ToolResult(id: string, name: string, result: ToolResultValue, providerExecuted: bool, metadata: Option<Metadata>)
    | ToolError(id: string, name: string, message: string, error: Option<string>)
    | StepFinish(index: nat, reason: FinishReason, usage: Option<Usage>, metadata: Option<Metadata>)
    | Finish(reason: FinishReason, usage: Option<Usage>, metadata: Option<Metadata>)
    | ProviderError(message: string)

  datatype StreamKind = TextKindOf | ReasoningKindOf

  datatype Part =
    | Streamed(kind: StreamKind, text: string, metadata: Option<Metadata>)
    | CallPart(call: Call)
    | ResultPart(hosted: HostedResult)

  // ---------------------------------------------------------------- metadata

  function MergeMetadata(left: Option<Metadata>, right: Option<Metadata>): Option<Metadata> {
    if left.None? then right
    else if right.None? then left
    else Some(Merge(left.value, right.value))
  }

  function Merge(left: Metadata, right: Metadata): Metadata {
    map provider | provider in left.Keys + right.Keys :: Fields(left, provider) + Fields(right, provider)
  }

  function Fields(m: Metadata, provider: string): map<string, string> {
    if provider in m then m[provider] else map[]
  }

  lemma FieldsOfMerge(left: Metadata, right: Metadata, provider: string)
    ensures Fields(Merge(left, right), provider) == Fields(left, provider) + Fields(right, provider)
  {
  }

  lemma PlusAssociative(x: map<string, string>, y: map<string, string>, z: map<string, string>)
    ensures (x + y) + z == x + (y + z)
  {
  }

  lemma FieldsAssociative(x: Metadata, y: Metadata, z: Metadata, p: string)
    ensures Fields(Merge(Merge(x, y), z), p) == Fields(Merge(x, Merge(y, z)), p)
  {
    FieldsOfMerge(x, y, p);
    FieldsOfMerge(y, z, p);
    FieldsOfMerge(Merge(x, y), z, p);
    FieldsOfMerge(x, Merge(y, z), p);
    PlusAssociative(Fields(x, p), Fields(y, p), Fields(z, p));
  }

  lemma SameFields(l: Metadata, r: Metadata)
    requires l.Keys == r.Keys && forall p :: p in l.Keys ==> Fields(l, p) == Fields(r, p)
    ensures l == r
  {
    forall p | p in l.Keys
      ensures l[p] == r[p]
    {
      assert Fields(l, p) == Fields(r, p);
    }
  }

  lemma MergeThree(x: Metadata, y: Metadata, z: Metadata)
    ensures Merge(Merge(x, y), z) == Merge(x, Merge(y, z))
  {
    var l, r := Merge(Merge(x, y), z), Merge(x, Merge(y, z));
    assert l.Keys == x.Keys + y.Keys + z.Keys == r.Keys;
    forall p
      ensures Fields(l, p) == Fields(r, p)
    {
      FieldsAssociative(x, y, z, p);
    }
    SameFields(l, r);
  }

  lemma MergeAssociative(a: Option<Metadata>, b: Option<Metadata>, c: Option<Metadata>)
    ensures MergeMetadata(MergeMetadata(a, b), c) == MergeMetadata(a, MergeMetadata(b, c))
  {
    if a.Some? && b.Some? && c.Some? {
      MergeThree(a.value, b.value, c.value);
    }
  }

  // ---------------------------------------------------------------- usage

  function Sum(left: Option<int>, right: Option<int>): Option<int> {
    if left.None? && right.None? then None
    else Some((if left.Some? then left.value else 0) + (if right.Some? then right.value else 0))
  }

  function AddUsage(left: Option<Usage>, right: Option<Usage>): Option<Usage> {
    if left.None? then right
    else if right.None? then left
    else
      var l, r := left.value, right.value;
      Some(Usage(
        Sum(l.inputTokens, r.inputTokens),
        Sum(l.outputTokens, r.outputTokens),
        Sum(l.nonCachedInputTokens, r.nonCachedInputTokens),
        Sum(l.cacheReadInputTokens, r.cacheReadInputTokens),
        Sum(l.cacheWriteInputTokens, r.cacheWriteInputTokens),
        Sum(l.reasoningTokens, r.reasoningTokens),
        Sum(l.totalTokens, r.totalTokens),
        MergeMetadata(l.providerMetadata, r.providerMetadata)))
  }

  /** Token totals do not depend on how the rounds are grouped, and an unreported round is neutral. */
  lemma AddUsageAssociative(a: Option<Usage>, b: Option<Usage>, c: Option<Usage>)
    ensures AddUsage(AddUsage(a, b), c) == AddUsage(a, AddUsage(b, c))
    ensures AddUsage(None, a) == a == AddUsage(a, None)
  {
    if a.Some? && b.Some? && c.Some? {
      MergeAssociative(a.value.providerMetadata, b.value.providerMetadata, c.value.providerMetadata);
    }
  }
}
