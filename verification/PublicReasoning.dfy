/**
 The reasoning events of a run as the JSON the executor gives them
 (packages/ai-runtime/src/reasoning-summary-tracker.ts, run-executor-chunks.ts), and what
 the public filter of events.ts leaves of them.
 */
module PublicReasoning {
  import opened Wrappers
  import opened Json
  import opened RunEvents
  import Log = RunLog
  import Spec = RunSpec
  import Inv = RunInvariants
  import Runs = RunTheorems
  import CB = CircuitBreaker
  import Reasoning = ReasoningSummary

  predicate IsReasoning(b: Log.Body) {
    b.MessageReasoning? || b.SummaryDelta? || b.SummaryCompleted?
  }

  function Tokens(m: Reasoning.Metadata): Option<Json>
    requires Reasoning.Bounded(m)
  {
    if m.reasoningTokens.Some? then Some(Int(m.reasoningTokens.value)) else None
  }

  function MetadataFields(m: Reasoning.Metadata): seq<Field>
    requires Reasoning.Bounded(m)
  {
    [Field("durationMs", Int(m.durationMs))] + Optional("reasoningTokens", Tokens(m))
  }

  function SafeDelta(text: string): Json {
    Obj([Field("classification", Str(PROVIDER_SAFE)), Field("text", Str(text))])
  }

  function KeptSummary(count: int, m: Reasoning.Metadata): Json
    requires 0 <= count <= MAX_CHARACTERS && Reasoning.Bounded(m)
  {
    Obj([Field("classification", Str(PROVIDER_SAFE)), Field("status", Str("completed"))]
        + ([Field("characterCount", Int(count))] + MetadataFields(m)))
  }

  function DiscardedSummary(m: Reasoning.Metadata): Json
    requires Reasoning.Bounded(m)
  {
    Obj([Field("classification", Str(HIDDEN)), Field("status", Str("discarded"))] + MetadataFields(m))
  }

  function Rendered(runId: string, e: Log.Event, createdAt: string): RunEvent
    requires IsReasoning(e.body) && Log.Presentable(e.body) && e.sequence >= 0
  {
    match e.body
    case MessageReasoning =>
      CreateRunEvent(runId, e.sequence, MessageReasoning, Obj([Field("classification", Str(HIDDEN))]), createdAt)
    case SummaryDelta(text) => CreateRunEvent(runId, e.sequence, SummaryDelta, SafeDelta(text), createdAt)
    case SummaryCompleted(kept, m) =>
      CreateRunEvent(runId, e.sequence, SummaryCompleted,
                     if kept.Some? then KeptSummary(kept.value, m) else DiscardedSummary(m), createdAt)
  }

  /** What the content policy makes of a delta it lets through. */
  function GovernedDelta(text: string): Json {
    Obj([Field("classification", Str(PROVIDER_SAFE)), Field("contentPolicyApplied", Bool(true)),
        Field("text", Str(text))])
  }

  lemma MetadataFieldsLookup(m: Reasoning.Metadata, k: string)
    requires Reasoning.Bounded(m)
    ensures Lookup(MetadataFields(m), k) ==
            if k == "durationMs" then Some(Int(m.durationMs)) else if k == "reasoningTokens" then Tokens(m) else None
  {
    LookupFirst("durationMs", Int(m.durationMs), Optional("reasoningTokens", Tokens(m)), k);
    LookupOptional("reasoningTokens", Tokens(m), [], k);
    assert Optional("reasoningTokens", Tokens(m)) + [] == Optional("reasoningTokens", Tokens(m));
  }

  /** Data that ends in a run's own metadata shows exactly that metadata. */
  lemma MetadataShown(data: Json, m: Reasoning.Metadata)
    requires Reasoning.Bounded(m)
    requires Get(data, "durationMs") == Some(Int(m.durationMs)) && Get(data, "reasoningTokens") == Tokens(m)
    ensures ReasoningMetadata(data) == MetadataFields(m)
  {
  }

  lemma TwoFieldsFirst(classification: string, status: string, rest: seq<Field>, k: string)
    ensures Lookup([Field("classification", Str(classification)), Field("status", Str(status))] + rest, k) ==
            if k == "classification" then Some(Str(classification)) else if k == "status" then Some(Str(status))
            else Lookup(rest, k)
  {
    LookupFirst("status", Str(status), rest, k);
    LookupFirst("classification", Str(classification), [Field("status", Str(status))] + rest, k);
    assert [Field("classification", Str(classification)), Field("status", Str(status))] + rest ==
           [Field("classification", Str(classification))] + ([Field("status", Str(status))] + rest);
  }

  lemma KeptLookup(count: int, m: Reasoning.Metadata, k: string)
    requires 0 <= count <= MAX_CHARACTERS && Reasoning.Bounded(m)
    ensures Get(KeptSummary(count, m), k) ==
            if k == "classification" then Some(Str(PROVIDER_SAFE)) else if k == "status" then Some(Str("completed"))
            else if k == "characterCount" then Some(Int(count))
            else Lookup(MetadataFields(m), k)
  {
    LookupFirst("characterCount", Int(count), MetadataFields(m), k);
    TwoFieldsFirst(PROVIDER_SAFE, "completed", [Field("characterCount", Int(count))] + MetadataFields(m), k);
  }

  lemma KeptIsPublic(count: int, m: Reasoning.Metadata)
    requires 0 <= count <= MAX_CHARACTERS && Reasoning.Bounded(m)
    ensures PublicCompletion(KeptSummary(count, m)) == KeptSummary(count, m)
  {
    hide Lookup, MetadataFields, ReasoningMetadata;
    var data := KeptSummary(count, m);
    KeptLookup(count, m, "classification");
    KeptLookup(count, m, "status");
    KeptLookup(count, m, "characterCount");
    KeptLookup(count, m, "durationMs");
    KeptLookup(count, m, "reasoningTokens");
    MetadataFieldsLookup(m, "durationMs");
    MetadataFieldsLookup(m, "reasoningTokens");
    MetadataShown(data, m);
  }

  lemma DiscardedIsPublic(m: Reasoning.Metadata)
    requires Reasoning.Bounded(m)
    ensures PublicCompletion(DiscardedSummary(m)) == DiscardedSummary(m)
  {
    hide Lookup, MetadataFields, ReasoningMetadata;
    var data := DiscardedSummary(m);
    TwoFieldsFirst(HIDDEN, "discarded", MetadataFields(m), "classification");
    TwoFieldsFirst(HIDDEN, "discarded", MetadataFields(m), "durationMs");
    TwoFieldsFirst(HIDDEN, "discarded", MetadataFields(m), "reasoningTokens");
    MetadataFieldsLookup(m, "durationMs");
    MetadataFieldsLookup(m, "reasoningTokens");
    MetadataShown(data, m);
    var head := [Field("classification", Str(HIDDEN)), Field("status", Str("discarded"))];
    assert head + [] + MetadataFields(m) == head + MetadataFields(m);
  }

  lemma NoticeIsPublic()
    ensures var data := Obj([Field("classification", Str(HIDDEN))]);
      [Field("classification", Str(HIDDEN))] + ReasoningMetadata(data) == data.fields
  {
    LookupFirst("classification", Str(HIDDEN), [], "durationMs");
    LookupFirst("classification", Str(HIDDEN), [], "reasoningTokens");
    assert [Field("classification", Str(HIDDEN))] + [] == [Field("classification", Str(HIDDEN))];
  }

  lemma UngovernedDelta(text: string)
    ensures !IsGoverned(SafeDelta(text))
  {
    var last := [Field("text", Str(text))];
    LookupFirst("text", Str(text), [], "contentPolicyApplied");
    assert last + [] == last;
    LookupFirst("classification", Str(PROVIDER_SAFE), last, "contentPolicyApplied");
    assert [Field("classification", Str(PROVIDER_SAFE))] + last == SafeDelta(text).fields;
  }

  /**
   The filter changes nothing of a reasoning notice or of a settled summary as the executor
   yields it, and nothing of a delta once the content policy has let it through; a delta
   straight from the executor becomes a bare notice.
   */
  lemma ReasoningIsAlreadyPublic(runId: string, e: Log.Event, createdAt: string)
    requires IsReasoning(e.body) && Log.Presentable(e.body) && e.sequence >= 0
    ensures var r := Rendered(runId, e, createdAt);
      if e.body.SummaryDelta? then
        && PublicRunEvent(r.(data := GovernedDelta(e.body.summaryText)))
            == r.(data := GovernedDelta(e.body.summaryText))
        && PublicRunEvent(r) == r.(kind := MessageReasoning, data := Obj([Field("classification", Str(HIDDEN))]))
      else PublicRunEvent(r) == r
  {
    hide Lookup, MetadataFields, ReasoningMetadata, PublicCompletion, KeptSummary, DiscardedSummary, IsGoverned;
    match e.body
    case MessageReasoning => NoticeIsPublic();
    case SummaryDelta(text) =>
      GovernedLookup(text);
      UngovernedDelta(text);
    case SummaryCompleted(kept, m) =>
      if kept.Some? {
        KeptIsPublic(kept.value, m);
      } else {
        DiscardedIsPublic(m);
      }
  }

  /** So it is for every reasoning event of every run. */
  lemma RunReasoningIsAlreadyPublic(
    cfg: Spec.Config, script: Spec.Script, breaker: seq<CB.Call>, runId: string, i: nat, createdAt: string)
    requires i < |Runs.Trace(cfg, script, breaker)| && IsReasoning(Runs.Trace(cfg, script, breaker)[i].body)
    ensures var e := Runs.Trace(cfg, script, breaker)[i];
      && Log.Presentable(e.body) && e.sequence >= 0
      && var r := Rendered(runId, e, createdAt);
         if e.body.SummaryDelta? then
           PublicRunEvent(r.(data := GovernedDelta(e.body.summaryText)))
               == r.(data := GovernedDelta(e.body.summaryText))
         else PublicRunEvent(r) == r
  {
    hide Inv.AtHead, Inv.LeftByException, Runs.Attempts, Log.Events, Log.Ordered, Log.Thoughts, Rendered,
      PublicRunEvent;
    Runs.HistoryIsAccepted(cfg, script, breaker);
    var log := Runs.Run(cfg, script, breaker).state.log;
    Log.TraceIsPresentable(log);
    Log.TraceCounts(log);
    ReasoningIsAlreadyPublic(runId, Log.Events(log)[i], createdAt);
  }
}
