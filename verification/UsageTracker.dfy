/**
 packages/ai-runtime/src/provider-usage-tracker.ts and `sanitizeUsage` of
 packages/ai-runtime/src/run-executor-chunks.ts.
 */
module UsageTracker {
  import opened Wrappers
  import opened RunTypes

  datatype Field = Input | CachedInput | Output | Reasoning | Total

  const NO_USAGE := TokenUsage(None, None, None, None, None, None)

  function Get(u: TokenUsage, f: Field): Option<int> {
    match f
    case Input => u.inputTokens
    case CachedInput => u.cachedInputTokens
    case Output => u.outputTokens
    case Reasoning => u.reasoningTokens
    case Total => u.totalTokens
  }

  function Reported(u: UsageReport, f: Field): Option<Number> {
    match f
    case Input => u.inputTokens
    case CachedInput => u.cachedInputTokens
    case Output => u.outputTokens
    case Reasoning => u.reasoningTokens
    case Total => u.totalTokens
  }

  // ---------- Sanitizing one report ----------

  predicate IsNonNegativeInteger(n: Option<Number>) {
    n.Some? && IsSafeInteger(n.value) && n.value.value >= 0
  }

  function Sanitized(n: Option<Number>): Option<int> {
    if IsNonNegativeInteger(n) then Some(n.value.value) else None
  }

  /** Counts survive only as non-negative safe integers; the source is the executor's, never the report's. */
  method SanitizeUsage(usage: UsageReport, trustedSource: string) returns (sanitized: TokenUsage)
    ensures forall f :: Get(sanitized, f) ==
                        if IsNonNegativeInteger(Reported(usage, f)) then Some(Reported(usage, f).value.value) else None
    ensures sanitized.source == Some(trustedSource)
    ensures sanitized == SanitizedUsage(usage, trustedSource)
  {
    sanitized := NO_USAGE;
    if IsNonNegativeInteger(usage.inputTokens) {
      sanitized := sanitized.(inputTokens := Some(usage.inputTokens.value.value));
    }
    if IsNonNegativeInteger(usage.cachedInputTokens) {
      sanitized := sanitized.(cachedInputTokens := Some(usage.cachedInputTokens.value.value));
    }
    if IsNonNegativeInteger(usage.outputTokens) {
      sanitized := sanitized.(outputTokens := Some(usage.outputTokens.value.value));
    }
    if IsNonNegativeInteger(usage.reasoningTokens) {
      sanitized := sanitized.(reasoningTokens := Some(usage.reasoningTokens.value.value));
    }
    if IsNonNegativeInteger(usage.totalTokens) {
      sanitized := sanitized.(totalTokens := Some(usage.totalTokens.value.value));
    }
    sanitized := sanitized.(source := Some(trustedSource));
  }

  function SanitizedUsage(u: UsageReport, trustedSource: string): TokenUsage {
    TokenUsage(Sanitized(u.inputTokens), Sanitized(u.cachedInputTokens), Sanitized(u.outputTokens),
               Sanitized(u.reasoningTokens), Sanitized(u.totalTokens), Some(trustedSource))
  }

  // ---------- Segments ----------

  datatype Segment = Segment(modelId: string, providerId: string, usage: TokenUsage)

  /** The tracker's state: the attempt being measured, and the finished ones. */
  datatype Usages = Usages(current: Option<Segment>, completed: seq<Segment>)

  const NOTHING_USED := Usages(None, [])

  datatype Evidence = NoEvidence | Evidence(usage: TokenUsage, usageSegments: seq<Segment>)

  function Latest<T>(later: Option<T>, earlier: Option<T>): Option<T> {
    if later.Some? then later else earlier
  }

  function Merged(earlier: TokenUsage, later: TokenUsage): TokenUsage {
    var m := TokenUsage(
      Latest(later.inputTokens, earlier.inputTokens),
      Latest(later.cachedInputTokens, earlier.cachedInputTokens),
      Latest(later.outputTokens, earlier.outputTokens),
      Latest(later.reasoningTokens, earlier.reasoningTokens),
      Latest(later.totalTokens, earlier.totalTokens),
      Latest(later.source, earlier.source));
    if m.reasoningTokens.Some? && m.outputTokens.Some? && m.reasoningTokens.value > m.outputTokens.value
    then m.(reasoningTokens := None) else m
  }

  function Observed(u: Usages, target: Target, usage: TokenUsage): Usages {
    var before := if u.current.Some? then u.current.value.usage else NO_USAGE;
    u.(current := Some(Segment(target.modelId, target.providerId, Merged(before, usage))))
  }

  function Finished(u: Usages): Usages {
    if u.current.None? then u else Usages(None, u.completed + [u.current.value])
  }

  function CurrentReasoning(u: Usages): Option<int> {
    if u.current.None? then None else u.current.value.usage.reasoningTokens
  }

  function EvidenceOf(u: Usages): Evidence {
    var segments := Finished(u).completed;
    if segments == [] then NoEvidence else Evidence(Aggregate(segments), segments)
  }

  // ---------- Aggregation ----------

  ghost predicate AllDefine(segments: seq<Segment>, f: Field) {
    forall i :: 0 <= i < |segments| ==> Get(segments[i].usage, f).Some?
  }

  /** The plain sum of a field over the segments, missing entries counting nothing. */
  function Sum(segments: seq<Segment>, f: Field): int {
    if segments == [] then 0
    else Sum(segments[..|segments| - 1], f) + Get(segments[|segments| - 1].usage, f).GetOr(0)
  }

  function Everywhere(segments: seq<Segment>, f: Field): (b: bool)
    ensures b <==> AllDefine(segments, f)
  {
    segments == [] || (Get(segments[|segments| - 1].usage, f).Some? && Everywhere(segments[..|segments| - 1], f))
  }

  function SameSource(segments: seq<Segment>): (b: bool)
    ensures b <==> forall i, j :: 0 <= i < |segments| && 0 <= j < |segments|
                                  ==> segments[i].usage.source == segments[j].usage.source
  {
    |segments| < 2
    || (segments[|segments| - 1].usage.source == segments[0].usage.source && SameSource(segments[..|segments| - 1]))
  }

  function FieldAggregate(segments: seq<Segment>, f: Field): Option<int> {
    if Everywhere(segments, f) then Some(Sum(segments, f)) else None
  }

  function Aggregate(segments: seq<Segment>): (r: TokenUsage)
    requires segments != []
    ensures forall f :: Get(r, f).Some? <==> AllDefine(segments, f)
    ensures forall f :: Get(r, f).Some? ==> Get(r, f).value == Sum(segments, f)
    ensures (forall i :: 0 <= i < |segments| ==> segments[i].usage.source == segments[0].usage.source) ==>
              r.source == segments[0].usage.source
    ensures (exists i :: 0 <= i < |segments| && segments[i].usage.source != segments[0].usage.source) ==> r.source.None?
  {
    TokenUsage(FieldAggregate(segments, Input), FieldAggregate(segments, CachedInput), FieldAggregate(segments, Output),
               FieldAggregate(segments, Reasoning), FieldAggregate(segments, Total),
               if SameSource(segments) then segments[0].usage.source else None)
  }

  /** One field of the aggregate, as the source's `every` and `reduce` compute it. */
  method AggregateField(segments: seq<Segment>, f: Field) returns (r: Option<int>)
    ensures r.Some? <==> AllDefine(segments, f)
    ensures r.Some? ==> r.value == Sum(segments, f)
    ensures r == FieldAggregate(segments, f)
  {
    var sum := 0;
    for i := 0 to |segments|
      invariant AllDefine(segments[..i], f)
      invariant sum == Sum(segments[..i], f)
    {
      var value := Get(segments[i].usage, f);
      if value.None? {
        return None;
      }
      assert segments[..i + 1][..i] == segments[..i];
      sum := sum + value.value;
    }
    assert segments[..|segments|] == segments;
    r := Some(sum);
  }

  method AggregateUsage(segments: seq<Segment>) returns (result: TokenUsage)
    requires segments != []
    ensures result == Aggregate(segments)
  {
    result := NO_USAGE;
    var input := AggregateField(segments, Input);
    var cached := AggregateField(segments, CachedInput);
    var output := AggregateField(segments, Output);
    var reasoning := AggregateField(segments, Reasoning);
    var total := AggregateField(segments, Total);
    result := TokenUsage(input, cached, output, reasoning, total, None);
    var same := true;
    for i := 0 to |segments|
      invariant same <==> forall k :: 0 <= k < i ==> segments[k].usage.source == segments[0].usage.source
    {
      same := same && segments[i].usage.source == segments[0].usage.source;
    }
    assert same <==> SameSource(segments);
    if same {
      result := result.(source := segments[0].usage.source);
    }
  }

  // ---------- Properties of the tracker ----------

  /** Reasoning tokens are a subset of output tokens wherever both are known. */
  predicate WithinOutput(u: TokenUsage) {
    u.reasoningTokens.Some? && u.outputTokens.Some? ==> u.reasoningTokens.value <= u.outputTokens.value
  }

  ghost predicate Sound(u: Usages) {
    && (u.current.Some? ==> WithinOutput(u.current.value.usage))
    && forall i :: 0 <= i < |u.completed| ==> WithinOutput(u.completed[i].usage)
  }

  lemma SumWithinOutput(segments: seq<Segment>)
    requires AllDefine(segments, Reasoning) && AllDefine(segments, Output)
    requires forall i :: 0 <= i < |segments| ==> WithinOutput(segments[i].usage)
    ensures Sum(segments, Reasoning) <= Sum(segments, Output)
  {
    if segments != [] {
      SumWithinOutput(segments[..|segments| - 1]);
    }
  }

  /**
   The evidence is the finished segments, the open one last, and their totals: a total is given when
   every segment has the field, and the source when all agree on it.
   */
  lemma EvidenceMeans(u: Usages)
    ensures var segments := u.completed + (if u.current.Some? then [u.current.value] else []); var e := EvidenceOf(u);
      && (e.NoEvidence? <==> segments == [])
      && (e.Evidence? ==>
            && e.usageSegments == segments
            && (forall f :: Get(e.usage, f).Some? <==> AllDefine(segments, f))
            && (forall f :: Get(e.usage, f).Some? ==> Get(e.usage, f).value == Sum(segments, f))
            && (if forall i :: 0 <= i < |segments| ==> segments[i].usage.source == segments[0].usage.source
                then e.usage.source == segments[0].usage.source else e.usage.source.None?))
  {
    if u.current.None? {
      assert u.completed + [] == u.completed;
    }
  }

  /** Whatever was reported, the aggregate never shows more reasoning than output. */
  lemma EvidenceWithinOutput(u: Usages)
    requires Sound(u)
    ensures EvidenceOf(u).Evidence? ==> WithinOutput(EvidenceOf(u).usage)
  {
    var segments := Finished(u).completed;
    if segments != [] && Aggregate(segments).reasoningTokens.Some? && Aggregate(segments).outputTokens.Some? {
      assert Get(Aggregate(segments), Reasoning).Some? && Get(Aggregate(segments), Output).Some?;
      SumWithinOutput(segments);
      assert Get(Aggregate(segments), Reasoning).value <= Get(Aggregate(segments), Output).value;
    }
  }

  /** Asking twice gives the same answer, and leaves nothing more to finish. */
  lemma EvidenceIsIdempotent(u: Usages)
    ensures EvidenceOf(Finished(u)) == EvidenceOf(u)
    ensures Finished(Finished(u)) == Finished(u)
    ensures Finished(u).current.None?
  {
  }

  function ObservedAll(u: Usages, target: Target, reports: seq<TokenUsage>): Usages {
    if reports == [] then u
    else Observed(ObservedAll(u, target, reports[..|reports| - 1]), target, reports[|reports| - 1])
  }

  function LastDefined(reports: seq<TokenUsage>, f: Field): Option<int> {
    if reports == [] then None
    else Latest(Get(reports[|reports| - 1], f), LastDefined(reports[..|reports| - 1], f))
  }

  /**
   Within one attempt a later report replaces an earlier one field by field, and a field
   a report leaves out keeps its value; only a reasoning count may be dropped.
   */
  lemma {:induction false} LaterReportsReplaceEarlier(u: Usages, target: Target, reports: seq<TokenUsage>, f: Field)
    requires u.current.None? && reports != []
    ensures ObservedAll(u, target, reports).current.Some?
    ensures ObservedAll(u, target, reports).completed == u.completed
    ensures var s := ObservedAll(u, target, reports).current.value;
            && s.modelId == target.modelId && s.providerId == target.providerId
            && WithinOutput(s.usage)
            && (f != Reasoning ==> Get(s.usage, f) == LastDefined(reports, f))
            && (f == Reasoning && Get(s.usage, f).Some? ==> Get(s.usage, f) == LastDefined(reports, f))
  {
    var earlier := reports[..|reports| - 1];
    if earlier != [] {
      LaterReportsReplaceEarlier(u, target, earlier, f);
    }
  }

  /** The last source a report names. */
  function LastSource(reports: seq<TokenUsage>): Option<string> {
    if reports == [] then None
    else if reports[|reports| - 1].source.Some? then reports[|reports| - 1].source
    else LastSource(reports[..|reports| - 1])
  }

  /**
   The report at i is the last to give a reasoning count, and neither with it nor with any later
   report has the output count known by then been below that count.
   */
  ghost predicate KeptSince(reports: seq<TokenUsage>, i: nat) {
    && i < |reports| && reports[i].reasoningTokens.Some?
    && (forall j :: i < j < |reports| ==> reports[j].reasoningTokens.None?)
    && forall j :: i <= j < |reports| ==> StaysWithin(reports, j, reports[i].reasoningTokens.value)
  }

  ghost predicate StaysWithin(reports: seq<TokenUsage>, j: nat, count: int)
    requires j < |reports|
  {
    var output := LastDefined(reports[..j + 1], Output);
    output.None? || count <= output.value
  }

  lemma KeptLonger(reports: seq<TokenUsage>, i: nat)
    requires reports != [] && i < |reports| - 1
    ensures var n := |reports| - 1;
      KeptSince(reports, i) <==>
      && KeptSince(reports[..n], i) && reports[n].reasoningTokens.None?
      && StaysWithin(reports, n, reports[i].reasoningTokens.value)
  {
    var n := |reports| - 1;
    var init := reports[..n];
    forall j | 0 <= j < n ensures init[j] == reports[j] && init[..j + 1] == reports[..j + 1] {
    }
    hide LastDefined;
    if reports[i].reasoningTokens.Some? {
      var count := reports[i].reasoningTokens.value;
      assert forall j :: 0 <= j < n ==> StaysWithin(init, j, count) == StaysWithin(reports, j, count);
    }
  }

  lemma KeptNow(reports: seq<TokenUsage>)
    requires reports != []
    ensures var n := |reports| - 1;
      KeptSince(reports, n) <==>
      reports[n].reasoningTokens.Some? && StaysWithin(reports, n, reports[n].reasoningTokens.value)
  {
  }

  /** Which report's reasoning count is shown, if any is. */
  function ShownFrom(reports: seq<TokenUsage>): (r: Option<nat>)
    ensures r.Some? ==> r.value < |reports| && reports[r.value].reasoningTokens.Some?
  {
    if reports == [] then None
    else
      var n := |reports| - 1;
      var from := if reports[n].reasoningTokens.Some? then Some(n) else ShownFrom(reports[..n]);
      var output := LastDefined(reports, Output);
      if from.Some? && output.Some? && reports[from.value].reasoningTokens.value > output.value then None else from
  }

  lemma {:induction false} ShownExactly(reports: seq<TokenUsage>, i: nat)
    ensures ShownFrom(reports) == Some(i) <==> KeptSince(reports, i)
    decreases |reports|
  {
    if reports != [] && i < |reports| {
      var n := |reports| - 1;
      assert reports[..n + 1] == reports;
      hide LastDefined, KeptSince;
      if i == n {
        KeptNow(reports);
      } else {
        KeptLonger(reports, i);
        ShownExactly(reports[..n], i);
      }
    }
  }

  lemma {:induction false} ShowsThatReport(u: Usages, target: Target, reports: seq<TokenUsage>)
    requires u.current.None? && reports != []
    ensures var s, from := ObservedAll(u, target, reports).current.value, ShownFrom(reports);
      && s.usage.source == LastSource(reports)
      && s.usage.reasoningTokens == if from.Some? then reports[from.value].reasoningTokens else None
  {
    var n := |reports| - 1;
    var earlier := reports[..n];
    LaterReportsReplaceEarlier(u, target, reports, Output);
    if earlier != [] {
      ShowsThatReport(u, target, earlier);
    }
  }

  /**
   What a call's reports add up to: of every other count and of the source the last one given; and a
   reasoning count exactly when the last report that gave one has stayed within the output count
   ever since, and then that report's count.
   */
  lemma ReportsAddUp(u: Usages, target: Target, reports: seq<TokenUsage>)
    requires u.current.None? && reports != []
    ensures ObservedAll(u, target, reports).current.Some? && ObservedAll(u, target, reports).completed == u.completed
    ensures var s := ObservedAll(u, target, reports).current.value;
      && s.modelId == target.modelId && s.providerId == target.providerId
      && (forall f :: f != Reasoning ==> Get(s.usage, f) == LastDefined(reports, f))
      && s.usage.source == LastSource(reports)
      && (s.usage.reasoningTokens.Some? <==> exists i: nat :: KeptSince(reports, i))
      && forall i: nat :: KeptSince(reports, i) ==> s.usage.reasoningTokens == reports[i].reasoningTokens
  {
    hide ObservedAll, LastSource, LastDefined;
    LaterReportsReplaceEarlier(u, target, reports, Output);
    var usage := ObservedAll(u, target, reports).current.value.usage;
    forall f ensures f != Reasoning ==> Get(usage, f) == LastDefined(reports, f) {
      LaterReportsReplaceEarlier(u, target, reports, f);
    }
    ShowsThatReport(u, target, reports);
    forall i: nat ensures ShownFrom(reports) == Some(i) <==> KeptSince(reports, i) {
      ShownExactly(reports, i);
    }
    if ShownFrom(reports).Some? {
      assert KeptSince(reports, ShownFrom(reports).value);
    }
  }

  /** One report of 40 reasoning and 100 output tokens is shown as it is; with 30 output tokens the count is dropped. */
  lemma ReasoningKeptAndDropped(u: Usages, target: Target)
    requires u.current.None?
    ensures var r := TokenUsage(None, None, Some(100), Some(40), None, None);
      && ObservedAll(u, target, [r]).current.value.usage == r
      && ObservedAll(u, target, [r.(outputTokens := Some(30))]).current.value.usage.reasoningTokens == None
  {
    var r := TokenUsage(None, None, Some(100), Some(40), None, None);
    var r' := r.(outputTokens := Some(30));
    assert [r][..0] == [] && [r'][..0] == [];
    assert ObservedAll(u, target, []) == u;
  }

  // ---------- The class ----------

  class ProviderUsageTracker {
    var current: Option<Segment>
    var completed: seq<Segment>

    ghost function View(): Usages
      reads this
    {
      Usages(current, completed)
    }

    constructor ()
      ensures View() == NOTHING_USED
    {
      current := None;
      completed := [];
    }

    method Observe(target: Target, usage: TokenUsage)
      modifies this
      ensures View() == Observed(old(View()), target, usage)
      ensures old(Sound(View())) ==> Sound(View())
    {
      var before := if current.Some? then current.value.usage else NO_USAGE;
      var merged := TokenUsage(
        Latest(usage.inputTokens, before.inputTokens),
        Latest(usage.cachedInputTokens, before.cachedInputTokens),
        Latest(usage.outputTokens, before.outputTokens),
        Latest(usage.reasoningTokens, before.reasoningTokens),
        Latest(usage.totalTokens, before.totalTokens),
        Latest(usage.source, before.source));
      if merged.reasoningTokens.Some? && merged.outputTokens.Some?
         && merged.reasoningTokens.value > merged.outputTokens.value {
        merged := merged.(reasoningTokens := None);
      }
      current := Some(Segment(target.modelId, target.providerId, merged));
    }

    method FinishAttempt()
      modifies this
      ensures View() == Finished(old(View()))
      ensures old(Sound(View())) ==> Sound(View())
    {
      if current.None? {
        return;
      }
      completed := completed + [current.value];
      current := None;
    }

    method CurrentReasoningTokens() returns (r: Option<int>)
      ensures r == CurrentReasoning(View())
    {
      r := if current.None? then None else current.value.usage.reasoningTokens;
    }

    method TakeEvidence() returns (e: Evidence)
      modifies this
      ensures View() == Finished(old(View()))
      ensures e == EvidenceOf(old(View()))
    {
      FinishAttempt();
      if |completed| == 0 {
        return NoEvidence;
      }
      var usage := AggregateUsage(completed);
      e := Evidence(usage, completed);
    }
  }
}
