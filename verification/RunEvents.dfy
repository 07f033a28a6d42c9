/** packages/ai-runtime/src/events.ts: the event envelope and what of it the public sees. */
module RunEvents {
  import opened Wrappers
  import opened Text
  import opened Json

  datatype Kind =
    | RunStarted | MessageStarted | MessageDelta | MessageReasoning | SummaryDelta | SummaryCompleted
    | MessageCompleted | RetrievalCompleted | ToolRequested | ToolStarted | ToolApprovalRequired
    | ToolCompleted | ToolFailed | RunCancelled | RunCompleted | RunFailed | RunContinuing
    | WaitingToolApproval | WaitingToolDispatch | OutputPartReady

  function Name(k: Kind): string {
    match k
    case RunStarted => "run.started"
    case MessageStarted => "message.started"
    case MessageDelta => "message.delta"
    case MessageReasoning => "message.reasoning"
    case SummaryDelta => "reasoning.summary.delta"
    case SummaryCompleted => "reasoning.summary.completed"
    case MessageCompleted => "message.completed"
    case RetrievalCompleted => "retrieval.completed"
    case ToolRequested => "tool.requested"
    case ToolStarted => "tool.started"
    case ToolApprovalRequired => "tool.approval_required"
    case ToolCompleted => "tool.completed"
    case ToolFailed => "tool.failed"
    case RunCancelled => "run.cancelled"
    case RunCompleted => "run.completed"
    case RunFailed => "run.failed"
    case RunContinuing => "run.continuing"
    case WaitingToolApproval => "run.waiting_tool_approval"
    case WaitingToolDispatch => "run.waiting_tool_dispatch"
    case OutputPartReady => "output.part.ready"
  }

  /** The kind an event's type names. */
  function KindNamed(name: string): Option<Kind> {
    if name == "run.started" then Some(RunStarted)
    else if name == "message.started" then Some(MessageStarted)
    else if name == "message.delta" then Some(MessageDelta)
    else if name == "message.reasoning" then Some(MessageReasoning)
    else if name == "reasoning.summary.delta" then Some(SummaryDelta)
    else if name == "reasoning.summary.completed" then Some(SummaryCompleted)
    else if name == "message.completed" then Some(MessageCompleted)
    else if name == "retrieval.completed" then Some(RetrievalCompleted)
    else if name == "tool.requested" then Some(ToolRequested)
    else if name == "tool.started" then Some(ToolStarted)
    else if name == "tool.approval_required" then Some(ToolApprovalRequired)
    else if name == "tool.completed" then Some(ToolCompleted)
    else if name == "tool.failed" then Some(ToolFailed)
    else if name == "run.cancelled" then Some(RunCancelled)
    else if name == "run.completed" then Some(RunCompleted)
    else if name == "run.failed" then Some(RunFailed)
    else if name == "run.continuing" then Some(RunContinuing)
    else if name == "run.waiting_tool_approval" then Some(WaitingToolApproval)
    else if name == "run.waiting_tool_dispatch" then Some(WaitingToolDispatch)
    else if name == "output.part.ready" then Some(OutputPartReady)
    else None
  }

  /** Every kind is told by its own name. */
  lemma NamesAreRead(k: Kind)
    ensures KindNamed(Name(k)) == Some(k)
  {
    match k
    case RunStarted | RunCancelled | RunCompleted | RunFailed | RunContinuing => RunNamesAreRead(k);
    case WaitingToolApproval | WaitingToolDispatch | RetrievalCompleted | OutputPartReady => OtherNamesAreRead(k);
    case ToolRequested | ToolStarted | ToolApprovalRequired | ToolCompleted | ToolFailed => ToolNamesAreRead(k);
    case _ => MessageNamesAreRead(k);
  }

  lemma RunNamesAreRead(k: Kind)
    requires k in {RunStarted, RunCancelled, RunCompleted, RunFailed, RunContinuing}
    ensures KindNamed(Name(k)) == Some(k)
  {
  }

  lemma OtherNamesAreRead(k: Kind)
    requires k in {WaitingToolApproval, WaitingToolDispatch, RetrievalCompleted, OutputPartReady}
    ensures KindNamed(Name(k)) == Some(k)
  {
  }

  lemma ToolNamesAreRead(k: Kind)
    requires k in {ToolRequested, ToolStarted, ToolApprovalRequired, ToolCompleted, ToolFailed}
    ensures KindNamed(Name(k)) == Some(k)
  {
  }

  lemma MessageNamesAreRead(k: Kind)
    requires k in {MessageStarted, MessageDelta, MessageReasoning, SummaryDelta, SummaryCompleted, MessageCompleted}
    ensures KindNamed(Name(k)) == Some(k)
  {
  }

  /** The names are made of lower-case letters, dots and underscores. */
  lemma NameIsPlain(k: Kind)
    ensures Name(k) != "" && OneLine(Name(k))
  {
    match k
    case RunStarted | MessageStarted | MessageDelta | MessageCompleted => MessageNameIsPlain(k);
    case MessageReasoning | SummaryDelta | SummaryCompleted => ReasoningNameIsPlain(k);
    case RunCancelled | RunCompleted | RunFailed | RunContinuing | WaitingToolApproval | WaitingToolDispatch =>
      StatusNameIsPlain(k);
    case ToolRequested | ToolStarted | ToolApprovalRequired | ToolCompleted | ToolFailed => ToolNameIsPlain(k);
    case _ => OtherNameIsPlain(k);
  }

  lemma MessageNameIsPlain(k: Kind)
    requires k in {RunStarted, MessageStarted, MessageDelta, MessageCompleted}
    ensures Name(k) != "" && OneLine(Name(k))
  {
  }

  lemma ReasoningNameIsPlain(k: Kind)
    requires k in {MessageReasoning, SummaryDelta, SummaryCompleted}
    ensures Name(k) != "" && OneLine(Name(k))
  {
  }

  lemma StatusNameIsPlain(k: Kind)
    requires k in {RunCancelled, RunCompleted, RunFailed, RunContinuing, WaitingToolApproval, WaitingToolDispatch}
    ensures Name(k) != "" && OneLine(Name(k))
  {
  }

  lemma ToolNameIsPlain(k: Kind)
    requires k in {ToolRequested, ToolStarted, ToolApprovalRequired, ToolCompleted, ToolFailed}
    ensures Name(k) != "" && OneLine(Name(k))
  {
  }

  lemma OtherNameIsPlain(k: Kind)
    requires k in {RetrievalCompleted, OutputPartReady}
    ensures Name(k) != "" && OneLine(Name(k))
  {
  }

  /** `versioned` says whether schemaVersion is present; the only value it can have is 1. */
  datatype RunEvent = RunEvent(
    id: string, runId: string, sequence: nat, versioned: bool, legId: Option<string>, channel: Option<string>,
    kind: Kind, data: Json, createdAt: string)

  const PROVIDER_SAFE := "provider_safe_summary"
  const HIDDEN := "hidden_reasoning_omitted"
  const MAX_DELTA_CHARACTERS := 4_096
  const MAX_CHARACTERS := 20_000
  const MAX_DURATION_MS := 86_400_000
  const MAX_TOKENS := 200_000

  function CreateRunEvent(runId: string, sequence: nat, kind: Kind, data: Json, createdAt: string): RunEvent {
    RunEvent("evt_" + runId + "_" + Decimal(sequence), runId, sequence, true, None, None, kind, data, createdAt)
  }

  // ---------- Reading data ----------

  function Lookup(fields: seq<Field>, key: string): Option<Json> {
    if fields == [] then None
    else if fields[0].key == key then Some(fields[0].value)
    else Lookup(fields[1..], key)
  }

  /** `record(data)?.[key]`: anything but a plain object has no fields. */
  function Get(data: Json, key: string): Option<Json> {
    if data.Obj? then Lookup(data.fields, key)
      else None
  }

  function BoundedInteger(value: Option<Json>, maximum: int): (r: Option<Json>)
    ensures r.Some? ==> r == value && r.value.Int? && 0 <= r.value.n <= maximum
  {
    if value.Some? && value.value.Int? && 0 <= value.value.n <= maximum then value else None
  }

  function Optional(key: string, value: Option<Json>): seq<Field> {
    if value.Some? then [Field(key, value.value)] else []
  }

  function ReasoningMetadata(data: Json): seq<Field> {
    Optional("durationMs", BoundedInteger(Get(data, "durationMs"), MAX_DURATION_MS))
    + Optional("reasoningTokens", BoundedInteger(Get(data, "reasoningTokens"), MAX_TOKENS))
  }

  predicate IsSafe(data: Json) {
    Get(data, "classification") == Some(Str(PROVIDER_SAFE))
  }

  /** The two marks without which no reasoning text is shown. */
  predicate IsGoverned(data: Json) {
    && IsSafe(data)
    && Get(data, "contentPolicyApplied") == Some(Bool(true))
    && Get(data, "text").Some? && Get(data, "text").value.Str?
  }

  function Shorten(text: string): string {
    if |text| <= MAX_DELTA_CHARACTERS then text else text[..MAX_DELTA_CHARACTERS]
  }

  function PublicDelta(data: Json): Json
    requires IsGoverned(data)
  {
    Obj([Field("classification", Str(PROVIDER_SAFE)),
         Field("contentPolicyApplied", Bool(true)),
         Field("text", Str(Shorten(Get(data, "text").value.s)))])
  }

  function PublicClassification(data: Json): string {
    if IsSafe(data) then PROVIDER_SAFE else HIDDEN
  }

  function PublicStatus(data: Json): string {
    if IsSafe(data) && Get(data, "status") == Some(Str("completed")) then "completed" else "discarded"
  }

  function PublicCount(data: Json): Option<Json> {
    if IsSafe(data) then BoundedInteger(Get(data, "characterCount"), MAX_CHARACTERS)
      else None
  }

  function PublicCompletion(data: Json): Json {
    Obj([Field("classification", Str(PublicClassification(data))), Field("status", Str(PublicStatus(data)))]
        + (Optional("characterCount", PublicCount(data)) + ReasoningMetadata(data)))
  }

  function PublicRunEvent(e: RunEvent): RunEvent {
    match e.kind
    case SummaryDelta =>
      if IsGoverned(e.data) then e.(data := PublicDelta(e.data))
      else e.(kind := MessageReasoning, data := Obj([Field("classification", Str(HIDDEN))]))
    case SummaryCompleted => e.(data := PublicCompletion(e.data))
    case MessageReasoning => e.(data := Obj([Field("classification", Str(HIDDEN))] + ReasoningMetadata(e.data)))
    case _ => e
  }

  // ---------- Properties ----------

  /** The three kinds of event that carry reasoning. */
  predicate CarriesReasoning(k: Kind) {
    k == MessageReasoning || k == SummaryDelta || k == SummaryCompleted
  }

  /**
   Every other event is public exactly as it is; of a reasoning event only the data changes, and
   the kind of a summary delta that may not be shown: it becomes a mere notice.
   */
  lemma OnlyReasoningChanges(e: RunEvent)
    ensures !CarriesReasoning(e.kind) ==> PublicRunEvent(e) == e
    ensures var p := PublicRunEvent(e);
      && p == e.(kind := p.kind, data := p.data)
      && p.kind == if e.kind == SummaryDelta && !IsGoverned(e.data) then MessageReasoning else e.kind
  {
    match e.kind
    case SummaryDelta => assert IsGoverned(e.data) || PublicRunEvent(e).kind == MessageReasoning;
    case _ =>
  }

  /** What a notice shows: that reasoning is omitted, and its bounded metadata. */
  lemma NoticeLookup(e: RunEvent, k: string)
    requires e.kind == MessageReasoning
    ensures Get(PublicRunEvent(e).data, k) ==
            if k == "classification" then Some(Str("hidden_reasoning_omitted"))
            else if k == "durationMs" then BoundedInteger(Get(e.data, k), 86_400_000)
            else if k == "reasoningTokens" then BoundedInteger(Get(e.data, k), 200_000)
            else None
  {
    MetadataLookup(e.data, k);
    LookupFirst("classification", Str(HIDDEN), ReasoningMetadata(e.data), k);
  }

  lemma LookupOptional(key: string, value: Option<Json>, rest: seq<Field>, k: string)
    ensures Lookup(Optional(key, value) + rest, k) == if k == key && value.Some? then value else Lookup(rest, k)
  {
    if value.Some? {
      assert (Optional(key, value) + rest)[1..] == rest;
    } else {
      assert Optional(key, value) + rest == rest;
    }
  }

  lemma LookupFirst(key: string, value: Json, rest: seq<Field>, k: string)
    ensures Lookup([Field(key, value)] + rest, k) == if k == key then Some(value) else Lookup(rest, k)
  {
    assert ([Field(key, value)] + rest)[1..] == rest;
  }

  lemma MetadataLookup(data: Json, k: string)
    ensures Lookup(ReasoningMetadata(data), k) ==
            if k == "durationMs" then BoundedInteger(Get(data, k), MAX_DURATION_MS)
            else if k == "reasoningTokens" then BoundedInteger(Get(data, k), MAX_TOKENS)
            else None
  {
    var tokens := Optional("reasoningTokens", BoundedInteger(Get(data, "reasoningTokens"), MAX_TOKENS));
    LookupOptional("durationMs", BoundedInteger(Get(data, "durationMs"), MAX_DURATION_MS), tokens, k);
    LookupOptional("reasoningTokens", BoundedInteger(Get(data, "reasoningTokens"), MAX_TOKENS), [], k);
    assert tokens + [] == tokens;
  }

  lemma PublicParts(data: Json)
    ensures var safe := Get(data, "classification") == Some(Str("provider_safe_summary"));
      && PublicClassification(data) == (if safe then "provider_safe_summary" else "hidden_reasoning_omitted")
      && PublicStatus(data) ==
         (if safe && Get(data, "status") == Some(Str("completed")) then "completed" else "discarded")
      && PublicCount(data) == if safe then BoundedInteger(Get(data, "characterCount"), 20_000)
      else None
  {
    hide Get, BoundedInteger;
  }

  /** What a completion shows, read back field by field. */
  lemma CompletionLookup(data: Json, k: string)
    ensures var safe := Get(data, "classification") == Some(Str("provider_safe_summary"));
      Get(PublicCompletion(data), k) ==
      if k == "classification" then Some(Str(if safe then "provider_safe_summary" else "hidden_reasoning_omitted"))
      else if k == "status" then
        Some(Str(if safe && Get(data, k) == Some(Str("completed")) then "completed" else "discarded"))
      else if k == "characterCount" then if safe then BoundedInteger(Get(data, k), 20_000)
      else None
      else if k == "durationMs" then BoundedInteger(Get(data, k), 86_400_000)
      else if k == "reasoningTokens" then BoundedInteger(Get(data, k), 200_000)
      else None
  {
    MetadataLookup(data, k);
    PublicParts(data);
    hide PublicClassification, PublicStatus, PublicCount, ReasoningMetadata, Optional, BoundedInteger, Lookup;
    var classification, status := PublicClassification(data), PublicStatus(data);
    var tail := Optional("characterCount", PublicCount(data)) + ReasoningMetadata(data);
    LookupOptional("characterCount", PublicCount(data), ReasoningMetadata(data), k);
    LookupFirst("status", Str(status), tail, k);
    LookupFirst("classification", Str(classification), [Field("status", Str(status))] + tail, k);
    assert PublicCompletion(data).fields ==
           [Field("classification", Str(classification))] + ([Field("status", Str(status))] + tail);
  }

  lemma MetadataStable(data: Json, public: Json)
    requires Get(public, "durationMs") == BoundedInteger(Get(data, "durationMs"), MAX_DURATION_MS)
    requires Get(public, "reasoningTokens") == BoundedInteger(Get(data, "reasoningTokens"), MAX_TOKENS)
    ensures ReasoningMetadata(public) == ReasoningMetadata(data)
  {
  }

  /** Making an event public twice changes nothing more; making one without reasoning public changes nothing. */
  lemma PublicIsIdempotent(e: RunEvent)
    ensures PublicRunEvent(PublicRunEvent(e)) == PublicRunEvent(e)
    ensures !CarriesReasoning(e.kind) ==> PublicRunEvent(e) == e
  {
    var p := PublicRunEvent(e);
    match e.kind
    case SummaryDelta =>
      if IsGoverned(e.data) {
        GovernedLookup(Get(e.data, "text").value.s);
      } else {
        LookupFirst("classification", Str(HIDDEN), [], "durationMs");
        LookupFirst("classification", Str(HIDDEN), [], "reasoningTokens");
        assert [Field("classification", Str(HIDDEN))] + [] == [Field("classification", Str(HIDDEN))];
      }
    case SummaryCompleted =>
      CompletionLookup(e.data, "classification");
      CompletionLookup(e.data, "status");
      CompletionLookup(e.data, "characterCount");
      CompletionLookup(e.data, "durationMs");
      CompletionLookup(e.data, "reasoningTokens");
      MetadataLookup(e.data, "characterCount");
      MetadataLookup(e.data, "durationMs");
      MetadataLookup(e.data, "reasoningTokens");
      MetadataStable(e.data, p.data);
    case MessageReasoning =>
      LookupFirst("classification", Str(HIDDEN), ReasoningMetadata(e.data), "durationMs");
      LookupFirst("classification", Str(HIDDEN), ReasoningMetadata(e.data), "reasoningTokens");
      MetadataLookup(e.data, "durationMs");
      MetadataLookup(e.data, "reasoningTokens");
      MetadataStable(e.data, p.data);
    case _ =>
  }

  lemma GovernedLookup(text: string)
    ensures var data := Obj([Field("classification", Str(PROVIDER_SAFE)), Field("contentPolicyApplied", Bool(true)),
                             Field("text", Str(Shorten(text)))]);
      IsGoverned(data) && Get(data, "text") == Some(Str(Shorten(text)))
  {
    var last := [Field("text", Str(Shorten(text)))];
    LookupFirst("text", Str(Shorten(text)), [], "text");
    assert last + [] == last;
    LookupFirst("contentPolicyApplied", Bool(true), last, "text");
    LookupFirst("contentPolicyApplied", Bool(true), last, "contentPolicyApplied");
    var two := [Field("contentPolicyApplied", Bool(true))] + last;
    LookupFirst("classification", Str(PROVIDER_SAFE), two, "text");
    LookupFirst("classification", Str(PROVIDER_SAFE), two, "contentPolicyApplied");
    LookupFirst("classification", Str(PROVIDER_SAFE), two, "classification");
    assert [Field("classification", Str(PROVIDER_SAFE))] + two ==
           [Field("classification", Str(PROVIDER_SAFE)), Field("contentPolicyApplied", Bool(true)),
            Field("text", Str(Shorten(text)))];
  }

  /** Two events' data agree on everything but the text and fields nobody may see. */
  predicate SameOpenly(a: Json, b: Json) {
    && IsSafe(a) == IsSafe(b)
    && Get(a, "status") == Get(b, "status")
    && Get(a, "characterCount") == Get(b, "characterCount")
    && Get(a, "durationMs") == Get(b, "durationMs")
    && Get(a, "reasoningTokens") == Get(b, "reasoningTokens")
  }

  /**
   Reasoning text reaches the public only from a governed summary delta: two reasoning
   events that differ in any other way than the fields above look the same in public.
   */
  lemma PublicHidesReasoning(e: RunEvent, data: Json)
    requires e.kind in {MessageReasoning, SummaryDelta, SummaryCompleted}
    requires e.kind == SummaryDelta ==> !IsGoverned(e.data) && !IsGoverned(data)
    requires e.kind != SummaryDelta ==> SameOpenly(e.data, data)
    ensures PublicRunEvent(e.(data := data)) == PublicRunEvent(e)
  {
    assert e.kind != SummaryDelta ==> ReasoningMetadata(data) == ReasoningMetadata(e.data);
  }

  /** A governed delta shows its text, shortened; what it shows depends on nothing else. */
  lemma GovernedTextIsShown(e: RunEvent)
    requires e.kind == SummaryDelta && IsGoverned(e.data)
    ensures var text := Get(e.data, "text").value.s;
      Get(PublicRunEvent(e).data, "text") == Some(Str(if |text| <= 4_096 then text else text[..4_096]))
    ensures PublicRunEvent(e).kind == SummaryDelta && IsGoverned(PublicRunEvent(e).data)
    ensures forall data :: IsGoverned(data) && Get(data, "text") == Get(e.data, "text")
                           ==> PublicRunEvent(e.(data := data)) == PublicRunEvent(e)
  {
    GovernedLookup(Get(e.data, "text").value.s);
  }
}
