/**
 The values the run executor exchanges with the rest of the system
 (packages/ai-runtime/src/run-executor-types.ts and the provider package's types).
 Ids, tool arguments and translated parameters are opaque strings.
 */
module RunTypes {
  import opened Wrappers

  /** A provider target: which adapter talks to which model of which provider. */
  datatype Target = Target(adapterKind: string, modelId: string, providerId: string)

  datatype ToolCall = ToolCall(providerCallId: string, name: string, arguments: string)

  datatype Message =
    | Plain(role: string, content: string)
    | Assistant(content: string, toolCalls: seq<ToolCall>)
    | ToolAnswer(content: string, name: string, toolCallId: string)

  /** A JavaScript number as `Number.isSafeInteger` and `Number.isInteger` see it. */
  datatype Number = Whole(value: int) | Fractional

  const MAX_SAFE_INTEGER := 0x1F_FFFF_FFFF_FFFF

  predicate IsSafeInteger(n: Number) {
    n.Whole? && -MAX_SAFE_INTEGER <= n.value <= MAX_SAFE_INTEGER
  }

  /** Token counts; every field may be missing. */
  datatype TokenUsage = TokenUsage(
    inputTokens: Option<int>,
    cachedInputTokens: Option<int>,
    outputTokens: Option<int>,
    reasoningTokens: Option<int>,
    totalTokens: Option<int>,
    source: Option<string>)

  /** A usage report as the adapter sends it, before sanitizing. */
  datatype UsageReport = UsageReport(
    inputTokens: Option<Number>,
    cachedInputTokens: Option<Number>,
    outputTokens: Option<Number>,
    reasoningTokens: Option<Number>,
    totalTokens: Option<Number>,
    source: Option<string>)

  datatype Chunk =
    | Token(text: string)
    | ToolRequest(toolCall: ToolCall, toolCalls: Option<seq<ToolCall>>)
    | PrivateReasoning(text: string)
    | SafeSummary(text: string)
    | UsageChunk(usage: UsageReport)

  /** The calls a tool request asks for: its list, or the single call when there is none. */
  function RequestedCalls(toolCall: ToolCall, toolCalls: Option<seq<ToolCall>>): (r: seq<ToolCall>)
    ensures r != []
    ensures toolCalls.Some? && toolCalls.value != [] ==> r == toolCalls.value
  {
    if toolCalls.None? || toolCalls.value == [] then [toolCall] else toolCalls.value
  }

  datatype ToolError = ToolError(errorCode: Option<string>, code: Option<string>, approvalRequestId: Option<string>)

  /** How the tool executor answers one call. */
  datatype ToolOutcome = Returns(content: string) | Suspends(dispatch: string) | Throws(error: ToolError)

  /** What an adapter, the parameter resolver or the stream runtime can throw. */
  datatype ProviderError =
    | Classified(errorCode: string, errorType: Option<string>)
    | NamedAbort
    | Unclassified
}
