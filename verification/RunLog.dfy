/**
 What one run leaves behind: the events it yields
 (packages/ai-runtime/src/events.ts, as run-executor.ts fills them) and, between them,
 everything it does to the outside world.

 `Scan` reads such a history left to right and keeps just enough to judge the next
 entry. The lemmas after it say, about the history itself, what a history that `Scan`
 accepts looks like.
 */
module RunLog {
  import opened Wrappers
  import opened RunTypes
  import CB = CircuitBreaker
  import Retry = RetryPolicy
  import Usage = UsageTracker
  import Reasoning = ReasoningSummary

  datatype FallbackSnapshot = FallbackSnapshot(
    fromModelId: string, fromProviderId: string, parameterResolution: Option<string>,
    reason: string, toModelId: string, toProviderId: string)

  /** The event's name for a requested tool: its id appears only hashed. */
  datatype RequestedTool = RequestedTool(name: string, providerCallIdHash: string)

  datatype Failure =
    | ProviderFailure(errorCode: string, errorType: Option<string>, circuit: Option<CB.Snapshot>,
                      fallback: Option<FallbackSnapshot>, retryAttempts: nat)
    | ToolFailure(errorCode: string, approvalRequestId: Option<string>, tool: RequestedTool)

  datatype Body =
    | RunStarted(modelId: string, providerId: string, streamTimeoutMs: Option<int>, maxRetries: nat,
                 parameterResolution: Option<string>)
    | MessageStarted
    | MessageDelta(text: string)
    | MessageReasoning
    | SummaryDelta(summaryText: string)
    | SummaryCompleted(kept: Option<int>, metadata: Reasoning.Metadata)   // the count, if the summary was kept
    | MessageCompleted(content: string)
    | ToolRequested(tool: RequestedTool)
    | WaitingToolDispatch(dispatch: string, waitingTool: RequestedTool, evidence: Usage.Evidence)
    | WaitingToolApproval(failure: Failure, evidence: Usage.Evidence)
    | RunFailed(failure: Failure, evidence: Usage.Evidence)
    | RunCancelled(evidence: Usage.Evidence)
    | RunCompleted(evidence: Usage.Evidence, retryAttempts: nat, fallback: Option<FallbackSnapshot>)

  datatype Event = Event(sequence: int, body: Body)

  /** `isTerminalRunEvent` of packages/ai-runtime/src/sse.ts. */
  predicate IsTerminal(b: Body) {
    b.WaitingToolDispatch? || b.WaitingToolApproval? || b.RunFailed? || b.RunCancelled? || b.RunCompleted?
  }

  /** The usage evidence a terminal event shows. */
  function EvidenceIn(b: Body): Usage.Evidence
    requires IsTerminal(b)
  {
    b.evidence
  }

  datatype Entry =
    | Yielded(event: Event)
    | ParentAborted
    | Gate(provider: string, circuit: Option<CB.Snapshot>)       // beforeAttempt and its answer
    | Stream(target: Target, messages: seq<Message>, parameters: string)
    | Handled(chunk: Chunk)                                      // a chunk the attempt may use
    | ToolRun(call: ToolCall, outcome: ToolOutcome)
    | SummaryBuffered                                            // an attempt keeps its first summary text
    | HealthSuccess(provider: string)
    | HealthFailure(provider: string, errorType: Option<string>)
    | HealthInspect(provider: string)

  // ---------- Conversations ----------

  /** The answers match the calls one for one, by id and by name. */
  predicate Answers(ms: seq<Message>, calls: seq<ToolCall>) {
    |ms| == |calls|
    && forall i :: 0 <= i < |calls| ==>
         ms[i].ToolAnswer? && ms[i].toolCallId == calls[i].providerCallId && ms[i].name == calls[i].name
  }

  /** One assistant message asking for tools, followed by exactly its answers. */
  predicate IsBlock(ms: seq<Message>) {
    ms != [] && ms[0].Assistant? && ms[0].toolCalls != [] && Answers(ms[1..], ms[0].toolCalls)
  }

  predicate Extends(earlier: seq<Message>, later: seq<Message>) {
    earlier == later || (earlier <= later && IsBlock(later[|earlier|..]))
  }

  /** A tool that was run, and how it ended. */
  datatype ToolResult = ToolResult(call: ToolCall, outcome: ToolOutcome)

  predicate AllReturned(ran: seq<ToolResult>) {
    forall i :: 0 <= i < |ran| ==> ran[i].outcome.Returns?
  }

  /** The tools run are the first calls of the batch, in order. */
  predicate RunsInOrder(ran: seq<ToolResult>, batch: seq<ToolCall>) {
    |ran| <= |batch| && forall i :: 0 <= i < |ran| ==> ran[i].call == batch[i]
  }

  /** One answer for each tool, carrying what that tool returned. */
  function AnswersOf(ran: seq<ToolResult>): (r: seq<Message>)
    requires AllReturned(ran)
    ensures |r| == |ran|
    ensures forall i :: 0 <= i < |r| ==>
              r[i] == ToolAnswer(ran[i].outcome.content, ran[i].call.name, ran[i].call.providerCallId)
  {
    if ran == [] then []
    else
      var last := ran[|ran| - 1];
      AnswersOf(ran[..|ran| - 1]) + [ToolAnswer(last.outcome.content, last.call.name, last.call.providerCallId)]
  }

  // ---------- The monitors ----------

  /** The order of the events, judged one at a time. */
  datatype Order = Order(
    ok: bool,          // no rule has been broken
    count: nat,        // events so far
    started: bool,     // a message has started
    sealed: bool,      // the last event completed the message
    closed: bool,      // the last event was terminal
    block: bool,       // the last event was summary text
    shown: nat)        // the characters of the summary text the last events showed

  predicate MayFollow(o: Order, e: Event) {
    && e.sequence == o.count + 1
    && !o.closed
    && (o.sealed <==> e.body.RunCompleted?)
    && (o.block ==> e.body.SummaryDelta? || (e.body.SummaryCompleted? && e.body.kept.Some?))
    && (e.body.SummaryCompleted? && e.body.kept.Some? ==> e.body.kept.value == o.shown)
    && (!o.started ==> e.body.MessageStarted? || (o.count == 0 && (e.body.RunStarted? || e.body.RunFailed?)))
    && (e.body.RunStarted? ==> o.count == 0)
  }

  function OrderStep(o: Order, e: Entry): Order {
    if !e.Yielded? then o
    else Order(o.ok && MayFollow(o, e.event), o.count + 1, o.started || e.event.body.MessageStarted?,
               e.event.body.MessageCompleted?, IsTerminal(e.event.body), e.event.body.SummaryDelta?,
               if e.event.body.SummaryDelta? then o.shown + |e.event.body.summaryText| else 0)
  }

  function Ordered(log: seq<Entry>): Order {
    if log == [] then Order(true, 0, false, false, false, false, 0)
    else OrderStep(Ordered(log[..|log| - 1]), log[|log| - 1])
  }

  /** The bounds every reasoning event keeps, so that making it public changes nothing. */
  predicate Presentable(b: Body) {
    match b
    case SummaryDelta(text) => |text| <= Reasoning.MAX_DELTA_CHARACTERS
    case SummaryCompleted(kept, metadata) =>
      (kept.Some? ==> 0 <= kept.value <= Reasoning.MAX_SUMMARY_CHARACTERS) && Reasoning.Bounded(metadata)
    case _ => true
  }

  /** Since the last message.started: reasoning notices, settled summaries; and whether one waits to be settled. */
  datatype Thinking = Thinking(ok: bool, reasonings: nat, summaries: nat, pending: bool)

  function ThinkingStep(t: Thinking, e: Entry): Thinking {
    match e
    case SummaryBuffered => Thinking(t.ok && !t.pending, t.reasonings, t.summaries, true)
    case Gate(_, _) => Thinking(t.ok && !t.pending, t.reasonings, t.summaries, t.pending)
    case Stream(_, _, _) => Thinking(t.ok && !t.pending, t.reasonings, t.summaries, t.pending)
    case Yielded(event) =>
      (match event.body
       case MessageStarted => Thinking(t.ok && !t.pending, 0, 0, t.pending)
       case MessageReasoning => Thinking(t.ok && t.reasonings == 0, t.reasonings + 1, t.summaries, t.pending)
       case SummaryDelta(_) => Thinking(t.ok && t.pending && Presentable(event.body), t.reasonings, t.summaries,
           t.pending)
       case SummaryCompleted(_, _) =>
         Thinking(t.ok && t.summaries == 0 && t.pending && Presentable(event.body), t.reasonings, t.summaries + 1,
             false)
       case _ => if IsTerminal(event.body) then Thinking(t.ok && !t.pending, t.reasonings, t.summaries, t.pending)
           else t)
    case _ => t
  }

  function Thoughts(log: seq<Entry>): Thinking {
    if log == [] then Thinking(true, 0, 0, false) else ThinkingStep(Thoughts(log[..|log| - 1]), log[|log| - 1])
  }

  /** The deltas' text, which every completed message must carry, and the token that must be said next. */
  datatype Spoken = Spoken(ok: bool, text: string, due: Option<string>)

  function SpokenStep(s: Spoken, e: Entry): Spoken {
    match e
    case Handled(chunk) => Spoken(s.ok && s.due.None?, s.text, if chunk.Token? then Some(chunk.text) else None)
    case Yielded(event) =>
      (match event.body
       case MessageDelta(text) => Spoken(s.ok && s.due == Some(text), s.text + text, None)
       case MessageCompleted(content) => Spoken(s.ok && content == s.text, s.text, s.due)
       case _ => s)
    case _ => s
  }

  function Speech(log: seq<Entry>): Spoken {
    if log == [] then Spoken(true, "", None) else SpokenStep(Speech(log[..|log| - 1]), log[|log| - 1])
  }

  /** Where deltas come from: the targets streamed from, the deltas' own, and the parent signal. */
  datatype Origin = Origin(ok: bool, aborted: bool, targets: seq<Target>, source: Option<Target>)

  predicate FromCurrentTarget(o: Origin) {
    o.targets != [] && (o.source.None? || o.source.value == o.targets[|o.targets| - 1])
  }

  function OriginStep(o: Origin, e: Entry): Origin {
    match e
    case ParentAborted => Origin(o.ok, true, o.targets, o.source)
    case Stream(t, _, _) => Origin(o.ok, o.aborted, o.targets + [t], o.source)
    case Yielded(event) =>
      if !event.body.MessageDelta? then o
      else Origin(o.ok && !o.aborted && FromCurrentTarget(o), o.aborted, o.targets,
                  if o.targets == [] then None else Some(o.targets[|o.targets| - 1]))
    case _ => o
  }

  function Origins(log: seq<Entry>): Origin {
    if log == [] then Origin(true, false, [], None) else OriginStep(Origins(log[..|log| - 1]), log[|log| - 1])
  }

  /** Who may be called: the provider the last gate let through, and the providers called so far. */
  datatype Traffic = Traffic(ok: bool, gate: Option<string>, served: set<string>)

  function TrafficStep(t: Traffic, e: Entry): Traffic {
    match e
    case Gate(p, c) => Traffic(t.ok, if c.Some? && c.value.state == CB.Open then None else Some(p), t.served)
    case Stream(target, _, _) =>
      Traffic(t.ok && t.gate == Some(target.providerId), None, t.served + {target.providerId})
    case HealthFailure(_, kind) => Traffic(t.ok && Retry.CountsAgainstHealth(kind), t.gate, t.served)
    case _ => t
  }

  function Gated(log: seq<Entry>): Traffic {
    if log == [] then Traffic(true, None, {}) else TrafficStep(Gated(log[..|log| - 1]), log[|log| - 1])
  }

  /**
   What was sent: the messages of the first and the last streamChat call; the tools run; since the
   last call, the batch that was requested and what its tools answered; and the text since the
   last answered batch.
   */
  datatype Talk = Talk(ok: bool, first: Option<seq<Message>>, sent: Option<seq<Message>>, toolRuns: nat,
                       batch: seq<ToolCall>, ran: seq<ToolResult>, text: string)

  const NOTHING_SENT := Talk(true, None, None, 0, [], [], "")

  /** The messages are those last sent or, once a whole batch has returned, those with its block. */
  predicate GoesOn(t: Talk, ms: seq<Message>) {
    && t.sent.Some? && |t.ran| == |t.batch| && AllReturned(t.ran)
    && ms == if t.batch == [] then t.sent.value
             else t.sent.value + [Assistant(t.text, t.batch)] + AnswersOf(t.ran)
  }

  /** The text that is not yet part of the conversation. */
  function Unsent(t: Talk): string {
    if t.batch == [] then t.text else ""
  }

  function TalkStep(t: Talk, e: Entry): Talk {
    match e
    case Stream(_, ms, _) =>
      Talk(t.ok && Unsent(t) == "" && (t.sent.Some? ==> GoesOn(t, ms)),
           if t.first.None? then Some(ms) else t.first, Some(ms), t.toolRuns, [], [], "")
    case Handled(chunk) =>
      (match chunk
       case Token(text) => t.(ok := t.ok && t.sent.Some? && t.batch == [], text := t.text + text)
       case ToolRequest(toolCall, toolCalls) =>
         t.(ok := t.ok && t.sent.Some? && t.batch == [] && t.ran == [], batch := RequestedCalls(toolCall, toolCalls))
       case _ => t)
    case ToolRun(call, outcome) =>
      t.(ok := t.ok && |t.ran| < |t.batch| && call == t.batch[|t.ran|] && AllReturned(t.ran),
         toolRuns := t.toolRuns + 1, ran := t.ran + [ToolResult(call, outcome)])
    case _ => t
  }

  function Sent(log: seq<Entry>): Talk {
    if log == [] then NOTHING_SENT else TalkStep(Sent(log[..|log| - 1]), log[|log| - 1])
  }

  /** What the usage chunks add up to: the target being measured, its open segment and the finished ones. */
  datatype Meter = Meter(target: Option<Target>, usages: Usage.Usages)

  function MeterStep(m: Meter, e: Entry): Meter {
    match e
    case Stream(t, _, _) => Meter(Some(t), Usage.Finished(m.usages))
    case Handled(chunk) =>
      if m.target.None? || !chunk.UsageChunk? then m
      else
        var usage := Usage.SanitizedUsage(chunk.usage, m.target.value.adapterKind);
        Meter(m.target, Usage.Observed(m.usages, m.target.value, usage))
    case _ => m
  }

  function Metered(log: seq<Entry>): Meter {
    if log == [] then Meter(None, Usage.NOTHING_USED) else MeterStep(Metered(log[..|log| - 1]), log[|log| - 1])
  }

  /** One more entry: every monitor takes one step. */
  function Logged(log: seq<Entry>, e: Entry): (r: seq<Entry>)
    ensures r == log + [e]
    ensures Ordered(r) == OrderStep(Ordered(log), e) && Thoughts(r) == ThinkingStep(Thoughts(log), e)
    ensures Speech(r) == SpokenStep(Speech(log), e) && Origins(r) == OriginStep(Origins(log), e)
    ensures Gated(r) == TrafficStep(Gated(log), e) && Sent(r) == TalkStep(Sent(log), e)
    ensures Metered(r) == MeterStep(Metered(log), e)
    ensures Events(r) == Events(log) + if e.Yielded? then [e.event] else []
  {
    assert (log + [e])[..|log|] == log;
    log + [e]
  }

  /** No monitor objects. */
  predicate Accepted(log: seq<Entry>) {
    Ordered(log).ok && Thoughts(log).ok && Speech(log).ok && Origins(log).ok && Gated(log).ok && Sent(log).ok
  }

  /** The events of a history: what the consumer of the generator sees. */
  function Events(log: seq<Entry>): seq<Event> {
    if log == [] then []
    else Events(log[..|log| - 1]) + if log[|log| - 1].Yielded? then [log[|log| - 1].event] else []
  }

  /** The last entry is one step of every monitor, and at most one more event. */
  lemma LastStep(log: seq<Entry>)
    requires log != []
    ensures var before, e := log[..|log| - 1], log[|log| - 1];
      && Ordered(log) == OrderStep(Ordered(before), e) && Thoughts(log) == ThinkingStep(Thoughts(before), e)
      && Speech(log) == SpokenStep(Speech(before), e) && Origins(log) == OriginStep(Origins(before), e)
      && Gated(log) == TrafficStep(Gated(before), e) && Sent(log) == TalkStep(Sent(before), e)
      && Metered(log) == MeterStep(Metered(before), e)
      && (if e.Yielded?
          then Events(log) == Events(before) + [e.event] && Events(log)[..|Events(before)|] == Events(before)
          else Events(log) == Events(before))
  {
  }

  // ---------- What an accepted history looks like: the trace ----------

  ghost predicate Numbered(t: seq<Event>) {
    forall i :: 0 <= i < |t| ==> t[i].sequence == i + 1
  }

  ghost predicate Opens(t: seq<Event>) {
    t != [] ==>
      || t[0].body.MessageStarted?
      || (t[0].body.RunFailed? && |t| == 1)
      || (t[0].body.RunStarted? && (|t| > 1 ==> t[1].body.MessageStarted?))
  }

  ghost predicate StartsOnce(t: seq<Event>) {
    forall i :: 0 < i < |t| ==> !t[i].body.RunStarted?
  }

  /** A terminal event is the last one. */
  ghost predicate NothingAfterTerminal(t: seq<Event>) {
    forall i :: 0 <= i < |t| && IsTerminal(t[i].body) ==> i == |t| - 1
  }

  /** The message is completed only right before the run is, and a run never completes otherwise. */
  ghost predicate CompletesTogether(t: seq<Event>) {
    && (forall i :: 0 <= i < |t| - 1 && t[i].body.MessageCompleted? ==> t[i + 1].body.RunCompleted?)
    && (forall i :: 0 <= i < |t| && t[i].body.RunCompleted? ==> i > 0 && t[i - 1].body.MessageCompleted?)
  }

  /** Summary text comes only in one block that ends in a kept summary. */
  ghost predicate SummaryTextIsSettled(t: seq<Event>) {
    forall i :: 0 <= i < |t| - 1 && t[i].body.SummaryDelta? ==>
      t[i + 1].body.SummaryDelta? || (t[i + 1].body.SummaryCompleted? && t[i + 1].body.kept.Some?)
  }

  /** The characters of the summary text that stands right before position n. */
  function BlockCharacters(t: seq<Event>, n: nat): nat
    requires n <= |t|
  {
    if n == 0 || !t[n - 1].body.SummaryDelta? then 0
    else BlockCharacters(t, n - 1) + |t[n - 1].body.summaryText|
  }

  /** A kept summary counts exactly the characters of the block it ends. */
  ghost predicate KeptCountsItsBlock(t: seq<Event>) {
    forall i :: 0 <= i < |t| && t[i].body.SummaryCompleted? && t[i].body.kept.Some? ==>
      t[i].body.kept.value == BlockCharacters(t, i)
  }

  ghost predicate MessageStartedBetween(t: seq<Event>, i: int, j: int)
    requires 0 <= i <= j <= |t|
  {
    exists k :: i < k < j && t[k].body.MessageStarted?
  }

  /** Between two starts of the message: one reasoning notice and one settled summary at most. */
  ghost predicate OneReasoningPerMessage(t: seq<Event>) {
    forall i, j :: 0 <= i < j < |t| && ((t[i].body.MessageReasoning? && t[j].body.MessageReasoning?)
                                        || (t[i].body.SummaryCompleted? && t[j].body.SummaryCompleted?))
                   ==> MessageStartedBetween(t, i, j)
  }

  function DeltaText(t: seq<Event>): string {
    if t == [] then ""
    else DeltaText(t[..|t| - 1]) + if t[|t| - 1].body.MessageDelta? then t[|t| - 1].body.text else ""
  }

  ghost predicate CompletesWithDeltas(t: seq<Event>) {
    forall i :: 0 <= i < |t| && t[i].body.MessageCompleted? ==> t[i].body.content == DeltaText(t[..i])
  }

  /** The trace of a finished run. */
  ghost predicate FinishedTrace(t: seq<Event>) {
    && t != [] && IsTerminal(t[|t| - 1].body)
    && Numbered(t) && Opens(t) && StartsOnce(t) && NothingAfterTerminal(t) && CompletesTogether(t)
    && SummaryTextIsSettled(t) && KeptCountsItsBlock(t) && OneReasoningPerMessage(t) && CompletesWithDeltas(t)
  }

  lemma {:induction false} TraceCounts(log: seq<Entry>)
    requires Ordered(log).ok
    ensures var o, t := Ordered(log), Events(log);
      && o.count == |t| && Numbered(t)
      && (t != [] ==> (o.closed <==> IsTerminal(t[|t| - 1].body))
                      && (o.sealed <==> t[|t| - 1].body.MessageCompleted?)
                      && (o.block <==> t[|t| - 1].body.SummaryDelta?))
      && (t == [] ==> !o.closed && !o.sealed && !o.block && !o.started)
  {
    if log != [] {
      TraceCounts(log[..|log| - 1]);
      LastStep(log);
      hide Ordered, Events;
    }
  }

  lemma {:induction false} TraceOpens(log: seq<Entry>)
    requires Ordered(log).ok
    ensures var o, t := Ordered(log), Events(log);
      && Opens(t) && StartsOnce(t)
      && (!o.started ==> |t| <= 1)
      && (|t| == 1 ==> (o.started <==> t[0].body.MessageStarted?))
  {
    if log != [] {
      var before := log[..|log| - 1];
      TraceOpens(before);
      TraceCounts(before);
      LastStep(log);
      hide Ordered, Events;
      assert Events(before) != [] ==> Events(log)[0] == Events(before)[0];
      assert |Events(before)| > 1 ==> Events(log)[1] == Events(before)[1];
    }
  }

  lemma {:induction false} TraceEnds(log: seq<Entry>)
    requires Ordered(log).ok
    ensures NothingAfterTerminal(Events(log)) && SummaryTextIsSettled(Events(log))
  {
    if log != [] {
      TraceEnds(log[..|log| - 1]);
      TraceCounts(log[..|log| - 1]);
      LastStep(log);
      hide Ordered, Events;
    }
  }

  lemma {:induction false} BlockOfPrefix(t: seq<Event>, longer: seq<Event>, n: nat)
    requires n <= |t| && t <= longer
    ensures BlockCharacters(longer, n) == BlockCharacters(t, n)
  {
    if n > 0 {
      BlockOfPrefix(t, longer, n - 1);
    }
  }

  lemma {:induction false} TraceCountsBlocks(log: seq<Entry>)
    requires Ordered(log).ok
    ensures KeptCountsItsBlock(Events(log)) && Ordered(log).shown == BlockCharacters(Events(log), |Events(log)|)
  {
    if log != [] {
      var before := log[..|log| - 1];
      TraceCountsBlocks(before);
      LastStep(log);
      hide Ordered, Events, KeptCountsItsBlock, BlockCharacters;
      if log[|log| - 1].Yielded? {
        CountsOneMore(Events(before), log[|log| - 1].event);
      }
    } else {
      assert KeptCountsItsBlock([]) && BlockCharacters([], 0) == 0;
    }
  }

  lemma CountsOneMore(t: seq<Event>, e: Event)
    requires KeptCountsItsBlock(t)
    requires e.body.SummaryCompleted? && e.body.kept.Some? ==> e.body.kept.value == BlockCharacters(t, |t|)
    ensures KeptCountsItsBlock(t + [e])
    ensures BlockCharacters(t + [e], |t| + 1) ==
            if e.body.SummaryDelta? then BlockCharacters(t, |t|) + |e.body.summaryText| else 0
  {
    var longer := t + [e];
    BlockOfPrefix(t, longer, |t|);
    assert BlockCharacters(longer, |t| + 1) ==
           if e.body.SummaryDelta? then BlockCharacters(longer, |t|) + |e.body.summaryText| else 0;
    hide BlockCharacters;
    forall i | 0 <= i < |t| ensures longer[i] == t[i] && BlockCharacters(longer, i) == BlockCharacters(t, i) {
      BlockOfPrefix(t, longer, i);
    }
  }

  lemma {:induction false} TraceCompletes(log: seq<Entry>)
    requires Ordered(log).ok
    ensures CompletesTogether(Events(log))
  {
    if log != [] {
      TraceCompletes(log[..|log| - 1]);
      TraceCounts(log[..|log| - 1]);
      LastStep(log);
      hide Ordered, Events;
    }
  }

  lemma {:induction false} TraceText(log: seq<Entry>)
    ensures Speech(log).text == DeltaText(Events(log))
  {
    if log != [] {
      TraceText(log[..|log| - 1]);
      LastStep(log);
    }
  }

  lemma {:induction false} TraceSaysAll(log: seq<Entry>)
    requires Speech(log).ok
    ensures CompletesWithDeltas(Events(log))
  {
    if log != [] {
      var before, e := log[..|log| - 1], log[|log| - 1];
      TraceSaysAll(before);
      TraceText(before);
      LastStep(log);
      hide DeltaText, Events, Speech;
      var t, t' := Events(before), Events(log);
      assert forall i :: 0 <= i < |t| ==> t'[..i] == t[..i];
    }
  }

  /** The counters in terms of positions: what is no longer counted lies before a message.started. */
  ghost predicate CountersMean(m: Thinking, t: seq<Event>) {
    && (forall i :: 0 <= i < |t| && t[i].body.MessageReasoning? && m.reasonings == 0 ==>
         MessageStartedBetween(t, i, |t|))
    && (forall i :: 0 <= i < |t| && t[i].body.SummaryCompleted? && m.summaries == 0 ==>
         MessageStartedBetween(t, i, |t|))
  }

  lemma {:induction false} TraceReasoning(log: seq<Entry>)
    requires Thoughts(log).ok
    ensures OneReasoningPerMessage(Events(log)) && CountersMean(Thoughts(log), Events(log))
  {
    if log != [] {
      var before, e := log[..|log| - 1], log[|log| - 1];
      TraceReasoning(before);
      LastStep(log);
      hide Thoughts, Events;
      var t, t' := Events(before), Events(log);
      if e.Yielded? {
        assert t' == t + [e.event] && t'[|t|] == e.event;
        assert forall i :: 0 <= i < |t| ==> t'[i] == t[i];
        forall i, j | 0 <= i < j <= |t| && MessageStartedBetween(t, i, j)
          ensures MessageStartedBetween(t', i, j) && MessageStartedBetween(t', i, |t'|)
        {
          var k :| i < k < j && t[k].body.MessageStarted?;
          assert t'[k].body.MessageStarted?;
        }
        if e.event.body.MessageStarted? {
          assert t'[|t|].body.MessageStarted?;
          assert forall i :: 0 <= i < |t| ==> MessageStartedBetween(t', i, |t'|);
        }
      } else {
        assert t' == t;
      }
    }
  }

  lemma {:induction false} TraceIsPresentable(log: seq<Entry>)
    requires Thoughts(log).ok
    ensures forall i :: 0 <= i < |Events(log)| ==> Presentable(Events(log)[i].body)
  {
    if log != [] {
      TraceIsPresentable(log[..|log| - 1]);
      LastStep(log);
      hide Events, Thoughts;
    }
  }

  /** A closed, accepted history has the trace of a finished run. */
  lemma AcceptedTrace(log: seq<Entry>)
    requires Accepted(log) && Ordered(log).closed
    ensures FinishedTrace(Events(log))
  {
    TraceCounts(log);
    TraceOpens(log);
    TraceEnds(log);
    TraceCountsBlocks(log);
    TraceCompletes(log);
    TraceSaysAll(log);
    TraceReasoning(log);
  }

  // ---------- What an accepted history looks like: the outside world ----------

  ghost predicate IsDelta(e: Entry) {
    e.Yielded? && e.event.body.MessageDelta?
  }

  /** The target of the last streamChat call before position n. */
  ghost function LastTarget(log: seq<Entry>, n: nat): Option<Target>
    requires n <= |log|
  {
    if n == 0 then None else if log[n - 1].Stream? then Some(log[n - 1].target) else LastTarget(log, n - 1)
  }

  lemma {:induction false} LastTargetOfPrefix(log: seq<Entry>, longer: seq<Entry>, n: nat)
    requires n <= |log| && log <= longer
    ensures LastTarget(longer, n) == LastTarget(log, n)
  {
    if n > 0 {
      LastTargetOfPrefix(log, longer, n - 1);
    }
  }

  /** All deltas of the run come from one target, whichever attempts produced them. */
  ghost predicate SingleSource(log: seq<Entry>) {
    forall i, j :: 0 <= i < |log| && 0 <= j < |log| && IsDelta(log[i]) && IsDelta(log[j])
                   ==> LastTarget(log, i).Some? && LastTarget(log, i) == LastTarget(log, j)
  }

  lemma {:induction false} AcceptedSource(log: seq<Entry>)
    requires Origins(log).ok
    ensures SingleSource(log)
    ensures var o := Origins(log);
      && LastTarget(log, |log|) == (if o.targets == [] then None else Some(o.targets[|o.targets| - 1]))
      && forall i :: 0 <= i < |log| && IsDelta(log[i]) ==> o.source.Some? && LastTarget(log, i) == o.source
  {
    if log != [] {
      var before := log[..|log| - 1];
      AcceptedSource(before);
      forall n: nat | n <= |before| ensures LastTarget(log, n) == LastTarget(before, n) {
        LastTargetOfPrefix(before, log, n);
      }
      assert forall i :: 0 <= i < |before| ==> log[i] == before[i];
    }
  }

  /** Once the parent signal has aborted, no delta follows. */
  ghost predicate SilentAfterAbort(log: seq<Entry>) {
    forall i, j :: 0 <= i < j < |log| && log[i].ParentAborted? ==> !IsDelta(log[j])
  }

  lemma {:induction false} AcceptedAbort(log: seq<Entry>)
    requires Origins(log).ok
    ensures SilentAfterAbort(log)
    ensures forall i :: 0 <= i < |log| && log[i].ParentAborted? ==> Origins(log).aborted
  {
    if log != [] {
      var before := log[..|log| - 1];
      AcceptedAbort(before);
      assert forall i :: 0 <= i < |before| ==> log[i] == before[i];
    }
  }

  ghost predicate LetThrough(e: Entry, provider: string) {
    e.Gate? && e.provider == provider && !(e.circuit.Some? && e.circuit.value.state == CB.Open)
  }

  ghost predicate Unused(log: seq<Entry>, g: int, i: int)
    requires 0 <= g && i <= |log|
  {
    forall k :: g < k < i ==> !log[k].Gate? && !log[k].Stream?
  }

  /** The circuit let this provider through, and nothing has used that permission before position i. */
  ghost predicate PermittedAt(log: seq<Entry>, i: int, provider: string)
    requires i <= |log|
  {
    exists g :: 0 <= g < i && LetThrough(log[g], provider) && Unused(log, g, i)
  }

  /** Every streamChat call had its own, unopposed pass of the circuit breaker. */
  ghost predicate EveryStreamPermitted(log: seq<Entry>) {
    forall i :: 0 <= i < |log| && log[i].Stream? ==> PermittedAt(log, i, log[i].target.providerId)
  }

  lemma PermissionCarries(log: seq<Entry>, e: Entry, i: int, p: string)
    requires 0 <= i <= |log| && PermittedAt(log, i, p)
    ensures PermittedAt(log + [e], i, p)
    ensures i == |log| && !e.Gate? && !e.Stream? ==> PermittedAt(log + [e], |log| + 1, p)
  {
    var g :| 0 <= g < i && LetThrough(log[g], p) && Unused(log, g, i);
    assert LetThrough((log + [e])[g], p) && Unused(log + [e], g, i);
    if i == |log| && !e.Gate? && !e.Stream? {
      assert Unused(log + [e], g, |log| + 1);
    }
  }

  lemma {:induction false} AcceptedGates(log: seq<Entry>)
    requires Gated(log).ok
    ensures EveryStreamPermitted(log)
    ensures Gated(log).gate.Some? ==> PermittedAt(log, |log|, Gated(log).gate.value)
  {
    if log != [] {
      var before, e := log[..|log| - 1], log[|log| - 1];
      AcceptedGates(before);
      assert log == before + [e];
      forall i, p: string | 0 <= i <= |before| && PermittedAt(before, i, p) ensures PermittedAt(log, i, p) {
        PermissionCarries(before, e, i, p);
      }
      if e.Gate? {
        assert LetThrough(log[|before|], e.provider) ==> Unused(log, |before|, |log|);
      } else if !e.Stream? && Gated(before).gate.Some? {
        PermissionCarries(before, e, |before|, Gated(before).gate.value);
      }
    }
  }

  ghost predicate NoStreamBetween(log: seq<Entry>, i: int, j: int)
    requires 0 <= i && j <= |log|
  {
    forall k :: i < k < j ==> !log[k].Stream?
  }

  /** Each call sends what the previous one sent, or that and one more answered tool request. */
  ghost predicate ConversationsGrow(log: seq<Entry>) {
    forall i, j :: 0 <= i < j < |log| && log[i].Stream? && log[j].Stream? && NoStreamBetween(log, i, j)
                   ==> Extends(log[i].messages, log[j].messages)
  }

  /** Tools run only for a requested batch, in its order, and no more after one that did not return. */
  lemma {:induction false} AcceptedBatches(log: seq<Entry>)
    requires Sent(log).ok
    ensures var t := Sent(log); RunsInOrder(t.ran, t.batch) && (t.ran != [] ==> AllReturned(t.ran[..|t.ran| - 1]))
  {
    if log != [] {
      var before, e := log[..|log| - 1], log[|log| - 1];
      hide GoesOn;
      AcceptedBatches(before);
      if e.ToolRun? {
        assert (Sent(before).ran + [ToolResult(e.call, e.outcome)])[..|Sent(before).ran|] == Sent(before).ran;
      }
    }
  }

  lemma GoingOnExtends(t: Talk, ms: seq<Message>)
    requires GoesOn(t, ms) && RunsInOrder(t.ran, t.batch)
    ensures Extends(t.sent.value, ms)
  {
    if t.batch != [] {
      var block := [Assistant(t.text, t.batch)] + AnswersOf(t.ran);
      assert ms == t.sent.value + block;
      assert ms[|t.sent.value|..] == block && block[1..] == AnswersOf(t.ran);
    }
  }

  lemma {:induction false} AcceptedConversations(log: seq<Entry>)
    requires Sent(log).ok
    ensures ConversationsGrow(log)
    ensures forall i :: 0 <= i < |log| && log[i].Stream? && NoStreamBetween(log, i, |log|)
                        ==> Sent(log).sent == Some(log[i].messages)
  {
    if log != [] {
      var before, e := log[..|log| - 1], log[|log| - 1];
      AcceptedConversations(before);
      AcceptedBatches(before);
      if e.Stream? && Sent(before).sent.Some? {
        GoingOnExtends(Sent(before), e.messages);
      }
      forall i, j | 0 <= i <= j <= |before| && NoStreamBetween(log, i, j) ensures NoStreamBetween(before, i, j) {
      }
      assert forall i :: 0 <= i < |before| && NoStreamBetween(log, i, |log|) ==> NoStreamBetween(log, i, |before|);
    }
  }

  ghost predicate SettlesAt(log: seq<Entry>, j: int) {
    0 <= j < |log| && log[j].Yielded? && log[j].event.body.SummaryCompleted?
  }

  /** Neither a next attempt nor the end of the run, nor a settled summary, strictly between i and j. */
  ghost predicate SameAttempt(log: seq<Entry>, i: int, j: int)
    requires 0 <= i && j <= |log|
  {
    forall k :: i < k < j ==>
      && !log[k].Gate? && !log[k].Stream? && !log[k].SummaryBuffered? && !SettlesAt(log, k)
      && !(log[k].Yielded? && IsTerminal(log[k].event.body))
  }

  ghost predicate SettledAfter(log: seq<Entry>, i: int)
    requires 0 <= i
  {
    exists j :: i < j && SettlesAt(log, j) && SameAttempt(log, i, j)
  }

  ghost predicate BufferedBefore(log: seq<Entry>, j: int)
    requires j <= |log|
  {
    exists i :: 0 <= i < j && log[i].SummaryBuffered? && SameAttempt(log, i, j)
  }

  /** A buffered summary is settled exactly once, within its own attempt, and nothing else is ever settled. */
  ghost predicate SummariesSettledOnce(log: seq<Entry>) {
    && (forall i :: 0 <= i < |log| && log[i].SummaryBuffered? ==> SettledAfter(log, i))
    && (forall j :: SettlesAt(log, j) ==> BufferedBefore(log, j))
  }

  /** The same while a summary may still wait, at the position p where it was buffered. */
  ghost predicate SettledUpTo(log: seq<Entry>, p: int) {
    && (forall i :: 0 <= i < |log| && i != p && log[i].SummaryBuffered? ==> SettledAfter(log, i))
    && (forall j :: SettlesAt(log, j) ==> BufferedBefore(log, j))
    && (p >= 0 ==> p < |log| && log[p].SummaryBuffered? && SameAttempt(log, p, |log|))
  }

  lemma SameAttemptCarries(log: seq<Entry>, e: Entry, i: int, j: int)
    requires 0 <= i && j <= |log| && SameAttempt(log, i, j)
    ensures SameAttempt(log + [e], i, j)
  {
    forall k | i < k < j ensures (log + [e])[k] == log[k] && SettlesAt(log + [e], k) == SettlesAt(log, k) {
    }
  }

  lemma SettlingCarries(log: seq<Entry>, e: Entry)
    ensures forall i :: 0 <= i < |log| && SettledAfter(log, i) ==> SettledAfter(log + [e], i)
    ensures forall j :: j <= |log| && BufferedBefore(log, j) ==> BufferedBefore(log + [e], j)
    ensures forall j :: j < |log| ==> SettlesAt(log + [e], j) == SettlesAt(log, j)
  {
    forall i | 0 <= i < |log| && SettledAfter(log, i) ensures SettledAfter(log + [e], i) {
      var j :| i < j && SettlesAt(log, j) && SameAttempt(log, i, j);
      SameAttemptCarries(log, e, i, j);
      assert SettlesAt(log + [e], j);
    }
    forall j | j <= |log| && BufferedBefore(log, j) ensures BufferedBefore(log + [e], j) {
      var i :| 0 <= i < j && log[i].SummaryBuffered? && SameAttempt(log, i, j);
      SameAttemptCarries(log, e, i, j);
      assert (log + [e])[i].SummaryBuffered?;
    }
  }

  predicate Settles(e: Entry) {
    e.Yielded? && e.event.body.SummaryCompleted?
  }

  predicate EndsAttempt(e: Entry) {
    e.Gate? || e.Stream? || e.SummaryBuffered? || Settles(e) || (e.Yielded? && IsTerminal(e.event.body))
  }

  lemma WaitingGoesOn(log: seq<Entry>, e: Entry, q: int)
    requires 0 <= q < |log| && SameAttempt(log, q, |log|) && !EndsAttempt(e)
    ensures SameAttempt(log + [e], q, |log| + 1)
  {
    SameAttemptCarries(log, e, q, |log|);
    assert !SettlesAt(log + [e], |log|);
  }

  lemma WaitingSettles(log: seq<Entry>, e: Entry, q: int)
    requires 0 <= q < |log| && log[q].SummaryBuffered? && SameAttempt(log, q, |log|) && Settles(e)
    ensures SettledAfter(log + [e], q) && BufferedBefore(log + [e], |log|)
  {
    SameAttemptCarries(log, e, q, |log|);
    assert SettlesAt(log + [e], |log|) && (log + [e])[q].SummaryBuffered?;
  }

  lemma WaitingStarts(log: seq<Entry>, e: Entry)
    ensures SameAttempt(log + [e], |log|, |log| + 1)
    ensures SettlesAt(log + [e], |log|) == Settles(e)
  {
  }

  lemma BufferStep(log: seq<Entry>, e: Entry, q: int)
    requires SettledUpTo(log, q) && q < 0 && e.SummaryBuffered?
    ensures SettledUpTo(log + [e], |log|)
  {
    hide SameAttempt, SettledAfter, BufferedBefore, SettlesAt;
    SettlingCarries(log, e);
    WaitingStarts(log, e);
    SettledWithin(log + [e]);
  }

  lemma SettleStep(log: seq<Entry>, e: Entry, q: int)
    requires SettledUpTo(log, q) && q >= 0 && Settles(e)
    ensures SettledUpTo(log + [e], -1)
  {
    hide SameAttempt, SettledAfter, BufferedBefore, SettlesAt;
    SettlingCarries(log, e);
    WaitingSettles(log, e, q);
    SettledWithin(log + [e]);
  }

  lemma OtherStep(log: seq<Entry>, e: Entry, q: int)
    requires SettledUpTo(log, q) && !e.SummaryBuffered? && !Settles(e) && (q >= 0 ==> !EndsAttempt(e))
    ensures SettledUpTo(log + [e], q)
  {
    hide SameAttempt, SettledAfter, BufferedBefore, SettlesAt;
    SettlingCarries(log, e);
    WaitingStarts(log, e);
    if q >= 0 {
      WaitingGoesOn(log, e, q);
    }
    SettledWithin(log + [e]);
  }

  /** What a step says about a waiting summary. */
  lemma ThinkingTells(t: Thinking, e: Entry)
    requires ThinkingStep(t, e).ok
    ensures t.ok
    ensures e.SummaryBuffered? ==> !t.pending && ThinkingStep(t, e).pending
    ensures Settles(e) ==> t.pending && !ThinkingStep(t, e).pending
    ensures t.pending && EndsAttempt(e) ==> Settles(e)
    ensures !e.SummaryBuffered? && !Settles(e) ==> ThinkingStep(t, e).pending == t.pending
  {
  }

  lemma {:induction false} AcceptedSummaries(log: seq<Entry>) returns (p: int)
    requires Thoughts(log).ok
    ensures SettledUpTo(log, p) && (p >= 0 <==> Thoughts(log).pending)
  {
    if log == [] {
      p := -1;
      NothingSettles();
    } else {
      hide SettledUpTo, Thoughts, ThinkingStep, Settles, EndsAttempt;
      var before, e := log[..|log| - 1], log[|log| - 1];
      LastStep(log);
      ThinkingTells(Thoughts(before), e);
      var q := AcceptedSummaries(before);
      assert log == before + [e];
      if e.SummaryBuffered? {
        p := |before|;
        BufferStep(before, e, q);
      } else if Settles(e) {
        p := -1;
        SettleStep(before, e, q);
      } else {
        p := q;
        OtherStep(before, e, q);
      }
    }
  }

  lemma NothingSettles()
    ensures SettledUpTo([], -1)
  {
  }

  lemma SettledWithin(log: seq<Entry>)
    ensures forall j :: SettlesAt(log, j) ==> 0 <= j < |log|
  {
  }

  lemma AcceptedSettles(log: seq<Entry>)
    requires Thoughts(log).ok && !Thoughts(log).pending
    ensures SummariesSettledOnce(log)
  {
    var p := AcceptedSummaries(log);
  }

  /** Failures of the client's own making are never held against a provider. */
  ghost predicate OnlyHealthFailuresRecorded(log: seq<Entry>) {
    forall i :: 0 <= i < |log| && log[i].HealthFailure? ==> Retry.CountsAgainstHealth(log[i].errorType)
  }

  function CountToolRuns(log: seq<Entry>): nat {
    if log == [] then 0 else CountToolRuns(log[..|log| - 1]) + if log[|log| - 1].ToolRun? then 1 else 0
  }

  function StreamTargets(log: seq<Entry>): seq<Target> {
    if log == [] then []
    else StreamTargets(log[..|log| - 1]) + if log[|log| - 1].Stream? then [log[|log| - 1].target] else []
  }

  lemma {:induction false} AcceptedCounts(log: seq<Entry>)
    requires Gated(log).ok
    ensures Sent(log).toolRuns == CountToolRuns(log)
    ensures Origins(log).targets == StreamTargets(log)
    ensures OnlyHealthFailuresRecorded(log)
    ensures forall i :: 0 <= i < |log| && log[i].Stream? ==> log[i].target.providerId in Gated(log).served
  {
    if log != [] {
      AcceptedCounts(log[..|log| - 1]);
    }
  }

  // ---------- What an accepted history looks like: usage ----------

  /** One streamChat call and the usage reports, sanitized, that came before the next one. */
  datatype Measurement = Measurement(target: Target, reports: seq<TokenUsage>)

  function Measurements(log: seq<Entry>): seq<Measurement> {
    if log == [] then []
    else
      var earlier, e := Measurements(log[..|log| - 1]), log[|log| - 1];
      match e
      case Stream(t, _, _) => earlier + [Measurement(t, [])]
      case Handled(chunk) =>
        if earlier == [] || !chunk.UsageChunk? then earlier
        else
          var last := earlier[|earlier| - 1];
          var usage := Usage.SanitizedUsage(chunk.usage, last.target.adapterKind);
          earlier[..|earlier| - 1] + [Measurement(last.target, last.reports + [usage])]
      case _ => earlier
  }

  /** The open segment a call's reports leave: later ones replace earlier ones field by field. */
  function SegmentOf(m: Measurement): Option<Usage.Segment> {
    Usage.ObservedAll(Usage.NOTHING_USED, m.target, m.reports).current
  }

  /** A segment for every call that reported anything, in the order of the calls. */
  function SegmentsOf(ms: seq<Measurement>): seq<Usage.Segment> {
    if ms == [] then []
    else
      SegmentsOf(ms[..|ms| - 1])
      + (if SegmentOf(ms[|ms| - 1]).Some? then [SegmentOf(ms[|ms| - 1]).value] else [])
  }

  /** Observing looks only at the open segment. */
  lemma {:induction false} ObservedAlike(u: Usage.Usages, v: Usage.Usages, t: Target, reports: seq<TokenUsage>)
    requires u.current == v.current
    ensures Usage.ObservedAll(u, t, reports).current == Usage.ObservedAll(v, t, reports).current
    ensures Usage.ObservedAll(u, t, reports).completed == u.completed
  {
    if reports != [] {
      ObservedAlike(u, v, t, reports[..|reports| - 1]);
    }
  }

  /** The meter is the measurements: what is finished, and what the last call has reported so far. */
  lemma {:induction false} MeterMeans(log: seq<Entry>)
    ensures var ms, m := Measurements(log), Metered(log);
      && (ms == [] ==> m == Meter(None, Usage.NOTHING_USED))
      && (ms != [] ==>
            && m.target == Some(ms[|ms| - 1].target) && m.usages.current == SegmentOf(ms[|ms| - 1])
            && m.usages.completed == SegmentsOf(ms[..|ms| - 1]))
      && Usage.Finished(m.usages).completed == SegmentsOf(ms)
  {
    if log != [] {
      var before, e := log[..|log| - 1], log[|log| - 1];
      MeterMeans(before);
      LastMeasurement(log);
      LastStep(log);
      hide Metered, Measurements, Usage.Finished, Ordered, Thoughts, Speech, Origins, Gated, Sent, Events;
      FinishingAdds(Metered(before).usages);
    } else {
      assert Metered([]) == Meter(None, Usage.NOTHING_USED) && Measurements([]) == [] && SegmentsOf([]) == [];
    }
  }

  lemma FinishingAdds(u: Usage.Usages)
    ensures Usage.Finished(u).current.None?
    ensures Usage.Finished(u).completed == u.completed + (if u.current.Some? then [u.current.value] else [])
  {
  }

  predicate Reports(e: Entry) {
    e.Handled? && e.chunk.UsageChunk?
  }

  /** What the last entry does to the measurements. */
  lemma LastMeasurement(log: seq<Entry>)
    requires log != []
    ensures var ms, earlier, e := Measurements(log), Measurements(log[..|log| - 1]), log[|log| - 1];
      && (e.Stream? ==> ms != [] && ms[..|ms| - 1] == earlier && ms[|ms| - 1] == Measurement(e.target, []))
      && (Reports(e) && earlier != [] ==>
            && ms != [] && ms[..|ms| - 1] == earlier[..|earlier| - 1]
            && ms[|ms| - 1].target == earlier[|earlier| - 1].target
            && SegmentOf(ms[|ms| - 1]) ==
               Usage.Observed(Usage.Usages(SegmentOf(earlier[|earlier| - 1]), []), ms[|ms| - 1].target,
                              Usage.SanitizedUsage(e.chunk.usage, ms[|ms| - 1].target.adapterKind)).current)
      && (!e.Stream? && (!Reports(e) || earlier == []) ==> ms == earlier)
  {
    var earlier, e := Measurements(log[..|log| - 1]), log[|log| - 1];
    if Reports(e) && earlier != [] {
      var last := earlier[|earlier| - 1];
      var usage := Usage.SanitizedUsage(e.chunk.usage, last.target.adapterKind);
      assert (last.reports + [usage])[..|last.reports|] == last.reports;
    }
  }
}
