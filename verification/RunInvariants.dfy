/**
 What every state of a run keeps, one function of `RunSpec` at a time. The whole-run
 theorems in `RunTheorems` follow from these and from the meaning of an accepted history.
 */
module RunInvariants {
  import opened Wrappers
  import opened RunTypes
  import opened RunLog
  import opened RunSpec
  import CB = CircuitBreaker
  import Retry = RetryPolicy
  import Usage = UsageTracker
  import Reasoning = ReasoningSummary
  import opened StreamRuntime

  // ---------- Conversations ----------

  /** A tail made of answered tool requests only. */
  ghost predicate Blocks(ms: seq<Message>) {
    ms == [] || exists n :: 0 <= n < |ms| && Blocks(ms[..n]) && IsBlock(ms[n..])
  }

  function AssistantText(ms: seq<Message>): string {
    if ms == [] then ""
    else AssistantText(ms[..|ms| - 1]) + if ms[|ms| - 1].Assistant? then ms[|ms| - 1].content else ""
  }

  lemma {:induction false} AnswersSayNothing(ms: seq<Message>, answers: seq<Message>)
    requires forall i :: 0 <= i < |answers| ==> answers[i].ToolAnswer?
    ensures AssistantText(ms + answers) == AssistantText(ms)
  {
    if answers == [] {
      assert ms + answers == ms;
    } else {
      var init := answers[..|answers| - 1];
      assert ms + answers == (ms + init) + [answers[|answers| - 1]];
      assert (ms + answers)[..|ms + answers| - 1] == ms + init;
      AnswersSayNothing(ms, init);
    }
  }

  lemma BlockAdds(ms: seq<Message>, text: string, calls: seq<ToolCall>, answers: seq<Message>)
    requires calls != [] && Answers(answers, calls)
    ensures IsBlock([Assistant(text, calls)] + answers)
    ensures AssistantText(ms + [Assistant(text, calls)] + answers) == AssistantText(ms) + text
    ensures Blocks(ms) ==> Blocks(ms + [Assistant(text, calls)] + answers)
  {
    var block := [Assistant(text, calls)] + answers;
    assert block[1..] == answers;
    var all := ms + [Assistant(text, calls)] + answers;
    AnswersSayNothing(ms + [Assistant(text, calls)], answers);
    assert (ms + [Assistant(text, calls)])[..|ms|] == ms;
    assert all[..|ms|] == ms && all[|ms|..] == block;
  }

  /** The input history, then answered tool requests; what the assistant said so far is the content. */
  ghost predicate Conversation(cfg: Config, r: Reply) {
    && cfg.messages <= r.messages
    && Blocks(r.messages[|cfg.messages|..])
    && r.content == AssistantText(r.messages[|cfg.messages|..]) + r.current
  }

  // ---------- Usage ----------

  /** Between attempts nothing is open, and the finished segments are what the history's reports add up to. */
  ghost predicate Attributed(s: State) {
    s.usage == Usage.Finished(Metered(s.log).usages)
  }

  /** During an attempt the tracker is what the history's reports add up to, measuring the current target. */
  ghost predicate Attributing(s: State) {
    Metered(s.log) == Meter(Some(s.route.active), s.usage)
  }

  lemma FinishingAttributes(s: State)
    requires Attributing(s) || Attributed(s)
    ensures Attributed(s.(usage := Usage.Finished(s.usage)))
  {
  }

  lemma ObservingStaysSound(u: Usage.Usages, t: Target, report: TokenUsage)
    requires Usage.Sound(u)
    ensures Usage.Sound(Usage.Observed(u, t, report)) && Usage.Sound(Usage.Finished(u))
  {
  }

  // ---------- The invariant ----------

  ghost predicate Shape(s: State) {
    var o := Ordered(s.log);
    o.ok && o.count == s.sequence && o.started && !o.sealed && !o.closed && !o.block && o.shown == 0
  }

  ghost predicate Spoke(s: State) {
    Speech(s.log) == Spoken(true, s.reply.content, None) && (!s.reply.emitted ==> s.reply.content == "")
  }

  ghost predicate Sourced(s: State) {
    var o := Origins(s.log);
    && o.ok && o.aborted == s.aborted
    && (s.reply.emitted <==> o.source.Some?)
    && (o.source.Some? ==> o.source.value == s.route.active)
  }

  ghost predicate Permitted(cfg: Config, s: State) {
    var t := Gated(s.log);
    t.ok && (cfg.providerDisabled ==> cfg.primary.providerId !in t.served)
  }

  ghost predicate Talked(cfg: Config, s: State) {
    var t := Sent(s.log);
    && t.ok && t.toolRuns == s.reply.toolCalls <= Max(0, cfg.ToolBudget())
    && (if t.sent.Some? then GoesOn(t, s.reply.messages) && t.first == Some(cfg.messages)
        else t == NOTHING_SENT && s.reply.messages == cfg.messages)
    && s.reply.current == Unsent(t)
    && Conversation(cfg, s.reply)
  }

  ghost predicate Bounded(cfg: Config, s: State) {
    forall p :: p in s.route.retries ==> s.route.retries[p] <= cfg.Policy().maxRetries
  }

  ghost predicate Live(cfg: Config, s: State) {
    && Shape(s) && Spoke(s) && Sourced(s) && Permitted(cfg, s) && Talked(cfg, s) && Bounded(cfg, s)
    && Thoughts(s.log).ok && Usage.Sound(s.usage)
  }

  /** Nothing of a former attempt's reasoning is left over. */
  ghost predicate NothingCounted(s: State) {
    Thoughts(s.log).reasonings == 0 && Thoughts(s.log).summaries == 0 && !Thoughts(s.log).pending
  }

  /** Nothing waits to be settled, and if no reasoning was shown nothing is counted. */
  ghost predicate NothingWaits(s: State, reasoned: bool) {
    !Thoughts(s.log).pending && (reasoned || NothingCounted(s))
  }

  /** At the head of the attempt loop. */
  ghost predicate AtHead(cfg: Config, s: State) {
    && Live(cfg, s)
    && Attributed(s)
    && NothingCounted(s)
    && s.reply.current == ""
  }

  /** No text is longer than what a chunk may carry. */
  ghost predicate Brief(texts: seq<string>) {
    forall i :: 0 <= i < |texts| ==> |texts[i]| <= Reasoning.MAX_DELTA_CHARACTERS
  }

  /** The attempt's own state agrees with what it has made visible. */
  ghost predicate InStep(s: State, a: Attempt) {
    var t := Thoughts(s.log);
    && (s.aborted ==> a.outcome.Some?)
    && (a.summary.finished ==> a.summary.startedAt.Some?)
    && (a.summary.startedAt.Some? ==> a.reasoned)
    && (!a.reasoned ==> t.reasonings == 0)
    && t.summaries == (if a.summary.finished then 1 else 0)
    && t.pending == Reasoning.Pending(a.summary)
    && Brief(a.summary.texts)
  }

  /** InAttempt an attempt, once streamChat has been called. */
  ghost predicate InAttempt(cfg: Config, s: State, a: Attempt) {
    var o := Origins(s.log);
    && Live(cfg, s) && InStep(s, a)
    && Attributing(s) && o.targets != []
    && o.targets[|o.targets| - 1] == s.route.active
    && Sent(s.log).sent == Some(s.reply.messages) && Sent(s.log).batch == []
    && !a.summary.finished
  }

  function LastEvidence(log: seq<Entry>): Option<Usage.Evidence> {
    if log != [] && log[|log| - 1].Yielded? && IsTerminal(log[|log| - 1].event.body)
    then Some(EvidenceIn(log[|log| - 1].event.body)) else None
  }

  /** A run that has yielded its terminal event. */
  ghost predicate Over(cfg: Config, s: State) {
    && Accepted(s.log) && Ordered(s.log).closed && Ordered(s.log).started && !Thoughts(s.log).pending
    && LastEvidence(s.log) == Some(Usage.EvidenceOf(s.usage))
    && Origins(s.log).aborted == s.aborted
    && Permitted(cfg, s)
    && Conversation(cfg, s.reply) && Spoke(s)
    && (Sent(s.log).first.Some? ==> Sent(s.log).first.value == cfg.messages)
    && s.reply.toolCalls <= Sent(s.log).toolRuns <= Max(0, cfg.ToolBudget())
    && Attributed(s) && Usage.Sound(s.usage)
  }

  /** What an event changes besides the order of events and the reasoning counters: nothing. */
  ghost predicate OnlyOrderChanges(s: State, s': State) {
    && s'.reply == s.reply && s'.route == s.route && s'.breaker == s.breaker && s'.aborted == s.aborted
    && Speech(s'.log) == Speech(s.log) && Origins(s'.log) == Origins(s.log)
    && Gated(s'.log) == Gated(s.log) && Sent(s'.log) == Sent(s.log) && Metered(s'.log) == Metered(s.log)
  }

  // ---------- Signals and events ----------

  lemma Aborting(cfg: Config, s: State, happens: bool)
    ensures var s' := Abort(s, happens);
      && s' == s.(log := s'.log, aborted := s'.aborted) && s'.aborted == (s.aborted || happens)
      && Thoughts(s'.log) == Thoughts(s.log) && Ordered(s'.log) == Ordered(s.log)
      && Speech(s'.log) == Speech(s.log) && Gated(s'.log) == Gated(s.log) && Sent(s'.log) == Sent(s.log)
      && Metered(s'.log) == Metered(s.log)
      && Origins(s'.log).targets == Origins(s.log).targets
      && (Origins(s.log).aborted == s.aborted ==>
            Origins(s'.log) == Origin(Origins(s.log).ok, s'.aborted, Origins(s.log).targets, Origins(s.log).source))
    ensures Live(cfg, s) ==> Live(cfg, Abort(s, happens))
  {
    hide Ordered, Thoughts, Speech, Origins, Gated, Sent, Metered;
  }

  lemma Closing(cfg: Config, s: State, body: Body)
    requires Live(cfg, s)
    requires Attributing(s) || Attributed(s)
    requires IsTerminal(body) && !body.RunCompleted? && EvidenceIn(body) == Usage.EvidenceOf(s.usage)
    requires !Thoughts(s.log).pending
    ensures Over(cfg, Close(s, body))
    ensures Origins(Close(s, body).log).targets == Origins(s.log).targets
  {
    hide Ordered, Thoughts, Speech, Origins, Gated, Sent, Metered, Conversation, GoesOn, Unsent, Bounded;
    FinishingAttributes(s);
    ObservingStaysSound(s.usage, s.route.active, Usage.NO_USAGE);
  }

  lemma EmittingText(s: State, block: bool, shown: nat, text: string)
    requires Ordered(s.log) == Order(true, s.sequence, true, false, false, block, shown)
    requires Thoughts(s.log).ok && Thoughts(s.log).pending && |text| <= Reasoning.MAX_DELTA_CHARACTERS
    ensures var s' := Emit(s, SummaryDelta(text));
      && OnlyOrderChanges(s, s') && s'.usage == s.usage && Thoughts(s'.log) == Thoughts(s.log)
      && Ordered(s'.log) == Order(true, s'.sequence, true, false, false, true, shown + |text|)
  {
    hide Ordered, Thoughts, Speech, Origins, Gated, Sent, Metered;
  }

  lemma {:induction false} EmittingTexts(s: State, texts: seq<string>)
    requires Shape(s) && Thoughts(s.log).ok && Thoughts(s.log).pending && Brief(texts)
    ensures var s' := EmitSummary(s, Reasoning.Texts(texts));
      && OnlyOrderChanges(s, s') && s'.usage == s.usage && Thoughts(s'.log) == Thoughts(s.log)
      && Ordered(s'.log) == Order(true, s'.sequence, true, false, false, texts != [], Reasoning.Characters(texts))
  {
    hide Ordered, Thoughts, Speech, Origins, Gated, Sent, Metered, Emit;
    if texts == [] {
      assert Reasoning.Texts(texts) == [];
    } else {
      var init, last := texts[..|texts| - 1], texts[|texts| - 1];
      EmittingTexts(s, init);
      EmittingText(EmitSummary(s, Reasoning.Texts(init)), init != [], Reasoning.Characters(init), last);
      var events := Reasoning.Texts(texts);
      assert events[..|events| - 1] == Reasoning.Texts(init) && events[|events| - 1] == Reasoning.SummaryText(last);
    }
  }

  lemma CompletingSummary(s: State, block: bool, shown: nat, kept: Option<int>, metadata: Reasoning.Metadata)
    requires Ordered(s.log) == Order(true, s.sequence, true, false, false, block, shown)
    requires (if kept.Some? then kept.value == shown else !block) && Presentable(SummaryCompleted(kept, metadata))
    ensures var s' := Emit(s, SummaryCompleted(kept, metadata));
      && OnlyOrderChanges(s, s') && s'.usage == s.usage && Shape(s')
      && Thoughts(s'.log) ==
         Thinking(Thoughts(s.log).ok && Thoughts(s.log).summaries == 0 && Thoughts(s.log).pending,
                  Thoughts(s.log).reasonings, Thoughts(s.log).summaries + 1, false)
  {
    hide Ordered, Thoughts, Speech, Origins, Gated, Sent, Metered;
  }

  lemma SettlingIsPresentable(a: Attempt, keep: bool, tokens: Option<int>, now: int)
    requires Reasoning.Pending(a.summary)
    ensures var metadata := Reasoning.MetadataAt(a.summary.startedAt.value, tokens, now);
      && Presentable(SummaryCompleted(None, metadata))
      && (keep && Reasoning.Fits(a.summary.texts) ==>
            Presentable(SummaryCompleted(Some(Reasoning.Characters(a.summary.texts)), metadata)))
  {
  }

  lemma Settling(s: State, a: Attempt, keep: bool, now: int)
    requires Shape(s) && Thoughts(s.log).ok && InStep(s, a)
    ensures var s' := Settle(s, a, keep, now);
      && OnlyOrderChanges(s, s') && s'.usage == s.usage && Shape(s') && Thoughts(s'.log).ok
      && Thoughts(s'.log).reasonings == Thoughts(s.log).reasonings
      && Thoughts(s'.log).summaries == Thoughts(s.log).summaries + (if Reasoning.Pending(a.summary) then 1 else 0)
      && !Thoughts(s'.log).pending
  {
    hide Ordered, Thoughts, Speech, Origins, Gated, Sent, Metered, Emit, EmitSummary, Reasoning.Fits,
      Reasoning.Characters, Reasoning.MetadataAt, Presentable, Reasoning.FinishEvents;
    if Reasoning.Pending(a.summary) {
      SettlingIsPresentable(a, keep, Usage.CurrentReasoning(s.usage), now);
      var metadata := Reasoning.MetadataAt(a.summary.startedAt.value, Usage.CurrentReasoning(s.usage), now);
      var kept := keep && Reasoning.Fits(a.summary.texts);
      var texts := if kept then a.summary.texts else [];
      var count := if kept then Some(Reasoning.Characters(texts)) else None;
      SettlesAs(s, a, keep, now, texts, count, metadata);
      hide Settle;
      EmittingTexts(s, texts);
      CompletingSummary(EmitSummary(s, Reasoning.Texts(texts)), texts != [], Reasoning.Characters(texts), count,
          metadata);
    } else {
      assert Settle(s, a, keep, now) == s by {
        SettlesNothing(s, a, keep, now);
      }
    }
  }

  lemma SettlesNothing(s: State, a: Attempt, keep: bool, now: int)
    requires !Reasoning.Pending(a.summary)
    ensures Settle(s, a, keep, now) == s
  {
  }

  lemma SettlesAs(s: State, a: Attempt, keep: bool, now: int, texts: seq<string>, count: Option<int>,
                  metadata: Reasoning.Metadata)
    requires Reasoning.Pending(a.summary)
    requires var kept := keep && Reasoning.Fits(a.summary.texts);
      && texts == (if kept then a.summary.texts else [])
      && count == (if kept then Some(Reasoning.Characters(texts)) else None)
      && metadata == Reasoning.MetadataAt(a.summary.startedAt.value, Usage.CurrentReasoning(s.usage), now)
    ensures Settle(s, a, keep, now) == Emit(EmitSummary(s, Reasoning.Texts(texts)), SummaryCompleted(count, metadata))
  {
    hide Emit, Reasoning.Fits, Reasoning.Characters, Reasoning.MetadataAt;
    var events := Reasoning.FinishEvents(a.summary, keep, Usage.CurrentReasoning(s.usage), now);
    assert events[..|events| - 1] == Reasoning.Texts(texts);
    assert SummaryBody(events[|events| - 1]) == SummaryCompleted(count, metadata);
  }

  // ---------- Tool calls ----------

  lemma {:induction false} Requesting(cfg: Config, s: State, calls: seq<ToolCall>)
    requires Shape(s)
    ensures var s' := EmitRequests(cfg, s, calls);
      OnlyOrderChanges(s, s') && s'.usage == s.usage && Shape(s') && Thoughts(s'.log) == Thoughts(s.log)
  {
    hide Ordered, Thoughts, Speech, Origins, Gated, Sent, Metered;
    if calls != [] {
      Requesting(cfg, s, calls[..|calls| - 1]);
    }
  }

  /** The conversation while a batch of tool calls is requested and not yet answered. */
  ghost predicate Asking(cfg: Config, s: State, calls: seq<ToolCall>) {
    var t := Sent(s.log);
    && t.ok && t.toolRuns == s.reply.toolCalls + |t.ran|
    && t.first == Some(cfg.messages) && t.sent == Some(s.reply.messages)
    && t.batch == calls && t.text == s.reply.current
    && Conversation(cfg, s.reply)
  }

  /** Every tool run so far returned, and these are the answers. */
  ghost predicate Answered(s: State, calls: seq<ToolCall>, answers: seq<Message>) {
    var ran := Sent(s.log).ran;
    RunsInOrder(ran, calls) && AllReturned(ran) && AnswersOf(ran) == answers
  }

  /** Like `InAttempt`, once the attempt's stream has requested tools. */
  ghost predicate Requests(cfg: Config, s: State, a: Attempt, calls: seq<ToolCall>) {
    && Shape(s) && Spoke(s) && Sourced(s) && Permitted(cfg, s) && Bounded(cfg, s)
    && Thoughts(s.log).ok && Usage.Sound(s.usage) && Attributing(s)
    && InStep(s, a) && !a.summary.finished
    && Asking(cfg, s, calls) && Sent(s.log).ran == [] && s.reply.toolCalls <= Max(0, cfg.ToolBudget())
  }

  /** Like `Live`, while a batch of tool calls is under way. */
  ghost predicate Batching(cfg: Config, s: State, calls: seq<ToolCall>) {
    && Shape(s) && Spoke(s) && Sourced(s) && Permitted(cfg, s) && Bounded(cfg, s)
    && Thoughts(s.log).ok && !Thoughts(s.log).pending && Usage.Sound(s.usage) && Attributed(s)
    && Asking(cfg, s, calls)
  }

  lemma Stopping(cfg: Config, s: State, calls: seq<ToolCall>, body: Body)
    requires Batching(cfg, s, calls) && s.reply.toolCalls + |Sent(s.log).ran| <= Max(0, cfg.ToolBudget())
    requires IsTerminal(body) && !body.RunCompleted? && EvidenceIn(body) == Usage.EvidenceOf(s.usage)
    requires !Thoughts(s.log).pending
    ensures Over(cfg, Close(s, body))
    ensures Origins(Close(s, body).log).targets == Origins(s.log).targets
  {
    hide Ordered, Thoughts, Speech, Origins, Gated, Sent, Metered;
    FinishingAttributes(s);
  }

  /** One more tool of the batch, whether or not it returned. */
  lemma RanTool(cfg: Config, s: State, calls: seq<ToolCall>, outcome: ToolOutcome, aborts: bool)
    requires Batching(cfg, s, calls) && AllReturned(Sent(s.log).ran) && |Sent(s.log).ran| < |calls|
    ensures var call := calls[|Sent(s.log).ran|];
      var s' := Abort(Note(s, ToolRun(call, outcome)), aborts);
      && Batching(cfg, s', calls) && s'.reply == s.reply && s'.route == s.route
      && Sent(s'.log).ran == Sent(s.log).ran + [ToolResult(call, outcome)]
      && Thoughts(s'.log) == Thoughts(s.log) && Origins(s'.log).targets == Origins(s.log).targets
  {
    hide Ordered, Thoughts, Speech, Origins, Gated, Sent, Metered;
    Aborting(cfg, Note(s, ToolRun(calls[|Sent(s.log).ran|], outcome)), aborts);
  }

  lemma OneMoreAnswer(s: State, s': State, calls: seq<ToolCall>, answers: seq<Message>, content: string)
    requires Answered(s, calls, answers) && |answers| < |calls|
    requires Sent(s'.log).ran == Sent(s.log).ran + [ToolResult(calls[|answers|], Returns(content))]
    ensures var call := calls[|answers|];
      Answered(s', calls, answers + [ToolAnswer(content, call.name, call.providerCallId)])
  {
    hide Sent;
    var ran := Sent(s'.log).ran;
    assert ran[..|ran| - 1] == Sent(s.log).ran;
  }

  lemma {:induction false} RunningTools(
    cfg: Config, pass: Pass, s: State, calls: seq<ToolCall>, i: nat, answers: seq<Message>)
    requires Batching(cfg, s, calls) && Answered(s, calls, answers) && |answers| == i <= |calls|
    requires s.reply.toolCalls + |calls| <= cfg.ToolBudget()
    ensures var flow := RunTools(cfg, pass, s, calls, i, answers);
      && Origins(flow.state.log).targets == Origins(s.log).targets
      && (flow.Stopped? ==> Over(cfg, flow.state))
      && (flow.AllRan? ==>
            && Batching(cfg, flow.state, calls) && Answered(flow.state, calls, flow.answers)
            && |flow.answers| == |calls| && flow.state.reply == s.reply && flow.state.route == s.route
            && Thoughts(flow.state.log) == Thoughts(s.log))
    decreases |calls| - i
  {
    hide Ordered, Thoughts, Speech, Origins, Gated, Sent, Metered, Batching, Over, Close, Abort, Note,
      RequestOf, Usage.EvidenceOf, StopBody;
    if i < |calls| {
      var call, reply := calls[i], pass.tools(i);
      var s1 := Abort(Note(s, ToolRun(call, reply.outcome)), reply.aborts);
      RanTool(cfg, s, calls, reply.outcome, reply.aborts);
      match reply.outcome
      case Returns(content) =>
        OneMoreAnswer(s, s1, calls, answers, content);
        RunningTools(cfg, pass, s1, calls, i + 1, answers + [ToolAnswer(content, call.name, call.providerCallId)]);
      case _ =>
        BatchIsCounted(cfg, s1, calls);
        Stopping(cfg, s1, calls, StopBody(RequestOf(cfg, call), reply.outcome, Usage.EvidenceOf(s1.usage)));
    }
  }

  lemma BatchIsCounted(cfg: Config, s: State, calls: seq<ToolCall>)
    requires Batching(cfg, s, calls)
    ensures !Thoughts(s.log).pending
  {
    hide Ordered, Thoughts, Speech, Origins, Gated, Sent, Metered;
  }

  lemma Appended<T>(xs: seq<T>, ys: seq<T>, zs: seq<T>)
    requires xs <= ys
    ensures xs <= ys + zs && (ys + zs)[|xs|..] == ys[|xs|..] + zs && (ys + zs)[|ys|..] == zs
  {
    hide Ordered, Thoughts, Speech, Origins, Gated, Sent, Metered;
  }

  lemma ConversationContinues(cfg: Config, r: Reply, calls: seq<ToolCall>, answers: seq<Message>)
    requires calls != [] && Conversation(cfg, r) && Answers(answers, calls)
    ensures var messages := r.messages + [Assistant(r.current, calls)] + answers;
      Conversation(cfg, Reply(r.content, "", r.emitted, messages, r.toolCalls + |calls|))
  {
    hide Ordered, Thoughts, Speech, Origins, Gated, Sent, Metered, Blocks, AssistantText, IsBlock, Answers;
    var block := [Assistant(r.current, calls)] + answers;
    var tail := r.messages[|cfg.messages|..];
    assert r.messages + [Assistant(r.current, calls)] + answers == r.messages + block;
    assert tail + [Assistant(r.current, calls)] + answers == tail + block;
    Appended(cfg.messages, r.messages, block);
    BlockAdds(tail, r.current, calls, answers);
    var said := AssistantText(tail + block);
    assert said + "" == said;
  }

  /** Announcing the message again resets the reasoning counters and nothing else. */
  lemma Announcing(s: State)
    requires Shape(s)
    ensures var s' := Emit(s, MessageStarted);
      && OnlyOrderChanges(s, s') && s'.usage == s.usage && Shape(s')
      && Thoughts(s'.log) == Thinking(Thoughts(s.log).ok && !Thoughts(s.log).pending, 0, 0, Thoughts(s.log).pending)
  {
    hide Ordered, Thoughts, Speech, Origins, Gated, Sent, Metered;
  }

  lemma Continuing(cfg: Config, s: State, calls: seq<ToolCall>, answers: seq<Message>, reasoned: bool)
    requires calls != [] && Batching(cfg, s, calls) && Answered(s, calls, answers) && |answers| == |calls|
    requires s.reply.toolCalls + |calls| <= cfg.ToolBudget()
    requires NothingWaits(s, reasoned)
    ensures AtHead(cfg, Continued(s, calls, answers, reasoned))
    ensures Origins(Continued(s, calls, answers, reasoned).log).targets == Origins(s.log).targets
  {
    hide Ordered, Thoughts, Speech, Origins, Gated, Sent, Metered, Conversation, Usage.Sound;
    var r := s.reply;
    ConversationContinues(cfg, r, calls, answers);
    var s1 := s.(reply := Reply(r.content, "", r.emitted, r.messages + [Assistant(r.current, calls)] + answers,
                                r.toolCalls + |calls|));
    assert Live(cfg, s1);
    Announcing(s1);
  }

  ghost predicate FlowKeeps(cfg: Config, s: State, flow: Flow) {
    match flow
    case Pulling(s', a') => InAttempt(cfg, s', a') && SameRouteAndTools(s, s')
    case Looped(s') => AtHead(cfg, s') && s'.route == s.route && s'.reply.toolCalls > s.reply.toolCalls
                       && Origins(s'.log).targets == Origins(s.log).targets
    case Returned(s') => Over(cfg, s') && Origins(s'.log).targets == Origins(s.log).targets
    case Drained(s', a') => InAttempt(cfg, s', a') && SameRouteAndTools(s, s')
    case Threw(s', a', _) => InAttempt(cfg, s', a') && SameRouteAndTools(s, s')
  }

  /** An attempt changes neither the route nor the tool count on its way. */
  ghost predicate SameRouteAndTools(s: State, s': State) {
    && s'.route == s.route && s'.reply.toolCalls == s.reply.toolCalls && s'.reply.messages == s.reply.messages
    && Origins(s'.log).targets == Origins(s.log).targets
  }

  lemma OrderKeepsLive(cfg: Config, s: State, s': State)
    requires Live(cfg, s) && OnlyOrderChanges(s, s') && Shape(s') && Thoughts(s'.log).ok && Usage.Sound(s'.usage)
    ensures Live(cfg, s')
  {
    hide Ordered, Thoughts, Speech, Origins, Gated, Sent, Metered;
  }

  /** An attempt that may still have to settle its summary, whether or not streamChat was called. */
  ghost predicate InFailableAttempt(cfg: Config, s: State, a: Attempt) {
    && Live(cfg, s) && InStep(s, a) && !a.summary.finished
    && (Attributing(s) || Attributed(s))
  }

  /** A settled summary leaves the attempt ready to close its usage segment. */
  lemma SettledAttempt(cfg: Config, s: State, a: Attempt, keep: bool, now: int)
    requires InFailableAttempt(cfg, s, a)
    ensures var s' := Settle(s, a, keep, now);
      && Live(cfg, s') && OnlyOrderChanges(s, s') && s'.usage == s.usage
      && NothingWaits(s', a.reasoned)
  {
    hide Ordered, Thoughts, Speech, Origins, Gated, Sent, Metered;
    Settling(s, a, keep, now);
    OrderKeepsLive(cfg, s, Settle(s, a, keep, now));
  }

  /** The state in which requested tools are announced and their batch may start. */
  lemma RequestedTools(cfg: Config, pass: Pass, s: State, a: Attempt, calls: seq<ToolCall>)
    requires Requests(cfg, s, a, calls)
    ensures var s1 := Requested(cfg, pass, s, a, calls);
      && OnlyOrderChanges(s, s1) && Batching(cfg, s1, calls) && Answered(s1, calls, [])
      && s1.reply.toolCalls <= Max(0, cfg.ToolBudget()) && Sent(s1.log).ran == []
      && NothingWaits(s1, a.reasoned)
  {
    hide Ordered, Thoughts, Speech, Origins, Gated, Sent, Metered, Conversation, Brief, Settle, EmitRequests;
    Settling(s, a, true, pass.settledAt);
    var settled := Settle(s, a, true, pass.settledAt);
    FinishingAttributes(settled);
    ObservingStaysSound(settled.usage, s.route.active, Usage.NO_USAGE);
    var closed := settled.(usage := Usage.Finished(settled.usage));
    Requesting(cfg, closed, calls);
  }

  lemma OnToolCallsKeeps(cfg: Config, pass: Pass, s: State, a: Attempt, calls: seq<ToolCall>)
    requires Requests(cfg, s, a, calls) && calls != []
    ensures FlowKeeps(cfg, s, OnToolCalls(cfg, pass, s, a, calls))
  {
    hide Ordered, Thoughts, Speech, Origins, Gated, Sent, Metered, Live, Batching, Answered, Requested, Over, Requests,
      InAttempt, AtHead, RunTools, Close, RequestOf;
    RequestedTools(cfg, pass, s, a, calls);
    var s1 := Requested(cfg, pass, s, a, calls);
    if !cfg.hasToolExecutor {
      var failure := ToolFailure("provider_tool_call_dispatch_unavailable", None, RequestOf(cfg, calls[0]));
      BatchIsCounted(cfg, s1, calls);
      Stopping(cfg, s1, calls, RunFailed(failure, Usage.EvidenceOf(s1.usage)));
    } else if s1.reply.toolCalls + |calls| > cfg.ToolBudget() {
      var limited := LimitedCall(calls, cfg.ToolBudget() - s1.reply.toolCalls);
      var failure := ToolFailure("model_tool_call_limit_exceeded", None, RequestOf(cfg, limited));
      BatchIsCounted(cfg, s1, calls);
      Stopping(cfg, s1, calls, RunFailed(failure, Usage.EvidenceOf(s1.usage)));
    } else {
      RunningTools(cfg, pass, s1, calls, 0, []);
      var flow := RunTools(cfg, pass, s1, calls, 0, []);
      if flow.AllRan? {
        Continuing(cfg, flow.state, calls, flow.answers, a.reasoned);
      }
    }
  }

  // ---------- Chunks and pulls ----------

  lemma OnUsageKeeps(cfg: Config, s: State, a: Attempt, report: UsageReport)
    requires InAttempt(cfg, s, a)
    ensures var s' := Measured(Note(s, Handled(UsageChunk(report))), report);
      InAttempt(cfg, s', a) && SameRouteAndTools(s, s')
  {
    hide Ordered, Thoughts, Speech, Origins, Gated, Sent, Metered;
    ObservingStaysSound(s.usage, s.route.active, Usage.SanitizedUsage(report, s.route.active.adapterKind));
  }

  lemma OnTokenKeeps(cfg: Config, s: State, a: Attempt, text: string)
    requires InAttempt(cfg, s, a) && a.outcome.None?
    ensures var s' := Said(Note(s, Handled(Token(text))), text); InAttempt(cfg, s', a) && SameRouteAndTools(s, s')
  {
    hide Ordered, Thoughts, Speech, Origins, Gated, Sent, Metered, Conversation, Usage.Sound;
    SayingMore(cfg, s.reply, text);
  }

  lemma SayingMore(cfg: Config, r: Reply, text: string)
    requires Conversation(cfg, r)
    ensures Conversation(cfg, Reply(r.content + text, r.current + text, true, r.messages, r.toolCalls))
  {
    hide Blocks, AssistantText;
    var said := AssistantText(r.messages[|cfg.messages|..]);
    assert said + (r.current + text) == (said + r.current) + text;
  }

  lemma OnRequestKeeps(cfg: Config, s: State, a: Attempt, toolCall: ToolCall, toolCalls: Option<seq<ToolCall>>)
    requires InAttempt(cfg, s, a)
    ensures var s' := Note(s, Handled(ToolRequest(toolCall, toolCalls)));
      Requests(cfg, s', a, RequestedCalls(toolCall, toolCalls)) && SameRouteAndTools(s, s')
  {
    hide Ordered, Thoughts, Speech, Origins, Gated, Sent, Metered, Conversation, Usage.Sound;
  }

  lemma NotingReasoning(cfg: Config, s: State, a: Attempt, chunk: Chunk)
    requires InAttempt(cfg, s, a) && (chunk.PrivateReasoning? || chunk.SafeSummary?)
    ensures InAttempt(cfg, Note(s, Handled(chunk)), a) && SameRouteAndTools(s, Note(s, Handled(chunk)))
  {
    hide Ordered, Thoughts, Speech, Origins, Gated, Sent, Metered, Conversation, Usage.Sound;
  }

  lemma NoticeKeeps(cfg: Config, s: State, a: Attempt)
    requires InAttempt(cfg, s, a) && !a.reasoned
    ensures InAttempt(cfg, Emit(s, MessageReasoning), a.(reasoned := true))
    ensures SameRouteAndTools(s, Emit(s, MessageReasoning))
  {
    hide Ordered, Thoughts, Speech, Origins, Gated, Sent, Metered, Usage.Sound, Shape, Spoke, Sourced, Permitted,
      Talked, Bounded, Emit;
    Noticing(s);
    OrderKeepsLive(cfg, s, Emit(s, MessageReasoning));
  }

  /** A notice counts as the message's reasoning and changes nothing else. */
  lemma Noticing(s: State)
    requires Shape(s) && Thoughts(s.log).ok && Thoughts(s.log).reasonings == 0
    ensures var s' := Emit(s, MessageReasoning);
      && OnlyOrderChanges(s, s') && Shape(s') && s'.usage == s.usage
      && Thoughts(s'.log) == Thoughts(s.log).(reasonings := 1)
  {
    hide Ordered, Thoughts, Speech, Origins, Gated, Sent, Metered;
  }

  lemma BufferKeeps(cfg: Config, s: State, a: Attempt, text: string, at: int)
    requires InAttempt(cfg, s, a) && |text| <= Reasoning.MAX_DELTA_CHARACTERS
    ensures InAttempt(cfg, Buffer(s, a), a.(reasoned := true, summary := Reasoning.Observed(a.summary, text, at)))
    ensures SameRouteAndTools(s, Buffer(s, a))
  {
    hide Ordered, Thoughts, Speech, Origins, Gated, Sent, Metered, Usage.Sound, Conversation, Bounded, Extends;
    var s' := Buffer(s, a);
    assert OnlyOrderChanges(s, s') && Shape(s');
    OrderKeepsLive(cfg, s, s');
  }

  /** An attempt that has shown reasoning may show nothing more of it. */
  lemma ReasonedAlike(cfg: Config, s: State, a: Attempt)
    requires InAttempt(cfg, s, a)
    ensures a.reasoned ==> a.(reasoned := true) == a
  {
    hide Live, InStep, Attributing;
  }

  lemma OnReasoningKeeps(cfg: Config, s: State, a: Attempt, chunk: Chunk, at: int)
    requires InAttempt(cfg, s, a) && (chunk.PrivateReasoning? || chunk.SafeSummary?)
    ensures var (s', a') := Thinks(s, a, chunk, at); InAttempt(cfg, s', a') && SameRouteAndTools(s, s')
  {
    hide Ordered, Thoughts, Speech, Origins, Gated, Sent, Metered, Live, InStep, Attributing, Buffer, Emit;
    ReasonedAlike(cfg, s, a);
    match ReasoningOf(chunk, a.reasoned, a.retain)
    case Summarizes(text) => BufferKeeps(cfg, s, a, text, at);
    case Notice => NoticeKeeps(cfg, s, a);
    case _ =>
  }

  lemma OnChunkKeeps(cfg: Config, pass: Pass, s: State, a: Attempt, chunk: Chunk, at: int)
    requires InAttempt(cfg, s, a) && a.outcome.None?
    ensures FlowKeeps(cfg, s, OnChunk(cfg, pass, s, a, chunk, at))
  {
    hide Ordered, Thoughts, Speech, Origins, Gated, Sent, Metered, InAttempt, Measured, Said, Thinks, OnToolCalls;
    match chunk
    case UsageChunk(report) => OnUsageKeeps(cfg, s, a, report);
    case ToolRequest(toolCall, toolCalls) =>
      OnRequestKeeps(cfg, s, a, toolCall, toolCalls);
      OnToolCallsKeeps(cfg, pass, Note(s, Handled(chunk)), a, RequestedCalls(toolCall, toolCalls));
    case Token(text) => OnTokenKeeps(cfg, s, a, text);
    case _ =>
      NotingReasoning(cfg, s, a, chunk);
      OnReasoningKeeps(cfg, Note(s, Handled(chunk)), a, chunk, at);
  }

  lemma AbortingInside(cfg: Config, s: State, a: Attempt, happens: bool, outcome: Option<Outcome>)
    requires InAttempt(cfg, s, a) && (happens || a.outcome.Some? ==> outcome.Some?)
    ensures InAttempt(cfg, Abort(s, happens), a.(outcome := outcome)) && SameRouteAndTools(s, Abort(s, happens))
  {
    hide Ordered, Thoughts, Speech, Origins, Gated, Sent, Metered;
    Aborting(cfg, s, happens);
  }

  lemma ReceiveKeeps(cfg: Config, s: State, a: Attempt, pull: Pull)
    requires InAttempt(cfg, s, a)
    ensures var (s', a', _) := Receive(s, a, pull); InAttempt(cfg, s', a') && SameRouteAndTools(s, s')
  {
    hide Ordered, Thoughts, Speech, Origins, Gated, Sent, Metered, InAttempt;
    var latched := Latched(a.outcome, pull.before);
    var outcome := NextOf(latched, pull.answer).1;
    AbortingInside(cfg, s, a, ParentAbort in pull.before, latched);
    var happens := latched.None? && ParentAbort in SignalsOf(pull.answer);
    AbortingInside(cfg, Abort(s, ParentAbort in pull.before), a.(outcome := latched), happens, outcome);
  }

  lemma CancelKeeps(cfg: Config, s: State, a: Attempt, now: int)
    requires InFailableAttempt(cfg, s, a)
    ensures var s' := Cancel(Settle(s, a, false, now));
      Over(cfg, s') && Origins(s'.log).targets == Origins(s.log).targets
  {
    hide Ordered, Thoughts, Speech, Origins, Gated, Sent, Metered, Live, InStep, Settle, Over;
    SettledAttempt(cfg, s, a, false, now);
    var s1 := Settle(s, a, false, now);
    Closing(cfg, s1, RunCancelled(Usage.EvidenceOf(s1.usage)));
  }

  lemma FlowsOn(cfg: Config, s: State, s1: State, flow: Flow)
    requires SameRouteAndTools(s, s1) && FlowKeeps(cfg, s1, flow)
    ensures FlowKeeps(cfg, s, flow)
  {
    hide InAttempt, AtHead, Over;
  }

  lemma OnPullKeeps(cfg: Config, pass: Pass, s: State, a: Attempt, pull: Pull)
    requires InAttempt(cfg, s, a)
    ensures FlowKeeps(cfg, s, OnPull(cfg, pass, s, a, pull))
  {
    hide Ordered, Thoughts, Speech, Origins, Gated, Sent, Metered, Live, InStep, Settle, Over,
      AtHead, Receive, OnChunk;
    ReceiveKeeps(cfg, s, a, pull);
    var (s1, a1, next) := Receive(s, a, pull);
    if next.Value? {
      if a1.outcome == Some(Cancelled) {
        CancelKeeps(cfg, s1, a1, pass.settledAt);
      } else if a1.outcome.None? {
        OnChunkKeeps(cfg, pass, s1, a1, next.chunk, pull.at);
        FlowsOn(cfg, s, s1, OnChunk(cfg, pass, s1, a1, next.chunk, pull.at));
      } else {
        assert a1.outcome.value.TimedOut?;
      }
    }
  }

  lemma {:induction false} ConsumeKeeps(cfg: Config, pass: Pass, s: State, a: Attempt, i: nat)
    requires InAttempt(cfg, s, a)
    ensures FlowKeeps(cfg, s, Consume(cfg, pass, s, a, i))
    decreases |pass.pulls| - i
  {
    hide Ordered, Thoughts, Speech, Origins, Gated, Sent, Metered, InAttempt, AtHead, Over, OnPull;
    OnPullKeeps(cfg, pass, s, a, PullAt(pass, i));
    var flow := OnPull(cfg, pass, s, a, PullAt(pass, i));
    if flow.Pulling? && i < |pass.pulls| {
      ConsumeKeeps(cfg, pass, flow.state, flow.attempt, i + 1);
      FlowsOn(cfg, s, flow.state, Consume(cfg, pass, flow.state, flow.attempt, i + 1));
    }
  }

  // ---------- Turns of the attempt loop ----------

  /** What bounds the attempt loop: tool budget left, then the fallback, then retries left. */
  function Measure(cfg: Config, s: State): int {
    Max(0, cfg.ToolBudget()) - s.reply.toolCalls
    + (if s.route.fallback.Some? then 1 + cfg.Policy().maxRetries else 0)
    + cfg.Policy().maxRetries - RetriesUsed(s)
  }

  lemma MeasureIsNatural(cfg: Config, s: State)
    requires Live(cfg, s)
    ensures Measure(cfg, s) >= 0 && 0 <= RetriesUsed(s) <= cfg.Policy().maxRetries
  {
    hide Ordered, Thoughts, Speech, Origins, Gated, Sent, Metered;
  }

  function Streams(s: State): nat {
    |Origins(s.log).targets|
  }

  /** A run that left by an exception of the fallback's parameter resolution: no terminal event. */
  ghost predicate LeftByException(cfg: Config, s: State) {
    Live(cfg, s) && Attributed(s) && !s.reply.emitted && !Thoughts(s.log).pending
  }

  ghost predicate TurnKeeps(cfg: Config, s: State, turn: Turn) {
    match turn
    case Again(s') => AtHead(cfg, s') && Measure(cfg, s') < Measure(cfg, s)
    case Finished(s') => Over(cfg, s')
    case Escapes(s') => LeftByException(cfg, s')
  }

  /** A change of route while nothing has been emitted. */
  lemma Rerouting(cfg: Config, s: State, route: Route)
    requires Live(cfg, s) && !s.reply.emitted
    requires forall p :: p in route.retries ==> route.retries[p] <= cfg.Policy().maxRetries
    ensures Live(cfg, s.(route := route))
  {
    hide Ordered, Thoughts, Speech, Origins, Gated, Sent, Metered;
  }

  lemma Switching(cfg: Config, s: State, r: Resolution, reason: string)
    requires Live(cfg, s) && Attributed(s) && !Thoughts(s.log).pending
    ensures match TryFallback(s, r, reason)
      case Unavailable => true
      case Switched(s') =>
        Live(cfg, s') && Attributed(s') && Thoughts(s'.log) == Thoughts(s.log) && s'.reply == s.reply
        && !s.reply.emitted && Measure(cfg, s') < Measure(cfg, s) && Origins(s'.log).targets == Origins(s.log).targets
      case Escaped(s') => LeftByException(cfg, s') && Origins(s'.log).targets == Origins(s.log).targets
  {
    hide Ordered, Thoughts, Speech, Origins, Gated, Sent, Metered;
    var s1 := Abort(s, ParentAbort in r.signals);
    Aborting(cfg, s, ParentAbort in r.signals);
    var fell := TryFallback(s, r, reason);
    if fell.Switched? {
      Rerouting(cfg, s1, fell.state.route);
      MeasureIsNatural(cfg, s);
      MeasureIsNatural(cfg, fell.state);
    }
  }

  lemma AnnouncingHead(cfg: Config, s: State, reasoned: bool)
    requires Live(cfg, s) && Attributed(s) && !s.reply.emitted
    requires NothingWaits(s, reasoned)
    ensures var s' := Announce(s, reasoned);
      AtHead(cfg, s') && s'.route == s.route && s'.reply == s.reply && Origins(s'.log).targets == Origins(s.log).targets
  {
    hide Ordered, Thoughts, Speech, Origins, Gated, Sent, Metered;
    Announcing(s);
    if reasoned {
      OrderKeepsLive(cfg, s, Emit(s, MessageStarted));
    }
    SilentSaysNothing(cfg, s);
  }

  /** While nothing has been emitted, there is no text. */
  lemma SilentSaysNothing(cfg: Config, s: State)
    requires Live(cfg, s) && !s.reply.emitted
    ensures s.reply.content == s.reply.current == ""
  {
    hide Ordered, Thoughts, Speech, Origins, Gated, Sent, Metered, AssistantText, Blocks;
  }

  lemma CountingRetry(cfg: Config, s: State)
    requires Live(cfg, s) && !s.reply.emitted && RetriesUsed(s) < cfg.Policy().maxRetries
    ensures Live(cfg, CountRetry(s)) && Measure(cfg, CountRetry(s)) == Measure(cfg, s) - 1
  {
    hide Ordered, Thoughts, Speech, Origins, Gated, Sent, Metered;
    Rerouting(cfg, s, CountRetry(s).route);
  }

  lemma AfterDelayKeeps(cfg: Config, pass: Pass, s: State, reasoned: bool)
    requires Live(cfg, s) && Attributed(s) && !s.reply.emitted
    requires NothingWaits(s, reasoned)
    ensures match AfterDelay(cfg, pass, s, reasoned)
      case Again(s') => AtHead(cfg, s') && Measure(cfg, s') == Measure(cfg, s) && Streams(s') == Streams(s)
      case Finished(s') => Over(cfg, s') && Streams(s') == Streams(s)
      case Escapes(_) => false
  {
    hide Ordered, Thoughts, Speech, Origins, Gated, Sent, Metered, Live, AtHead, Over;
    var happens := !s.aborted && pass.delayAborts;
    var waited := Abort(s, happens);
    Aborting(cfg, s, happens);
    AnnouncingHead(cfg, waited, reasoned);
    Closing(cfg, waited, RunCancelled(Usage.EvidenceOf(waited.usage)));
  }

  lemma ReportingFailure(cfg: Config, pass: Pass, s: State, kind: Option<string>)
    requires Live(cfg, s)
    ensures var (s', circuit) := ReportFailure(cfg, pass, s, kind);
      && Live(cfg, s') && s' == s.(log := s'.log, breaker := s'.breaker)
      && Thoughts(s'.log) == Thoughts(s.log) && Origins(s'.log) == Origins(s.log) && Metered(s'.log) == Metered(s.log)
  {
    hide Ordered, Thoughts, Speech, Origins, Gated, Sent, Metered, CB.SnapshotOf, Conversation, Usage.Sound, GoesOn,
      Unsent, Note;
    var p := s.route.active.providerId;
    if cfg.circuit.Some? {
      var counts := Retry.CountsAgainstHealth(kind);
      var call := if counts then CB.RecordFailure(p, pass.reportedAt) else CB.Inspect(p);
      var told := s.(breaker := s.breaker + pass.othersAfter + [call]);
      if counts {
        HealthNoted(cfg, told, HealthFailure(p, kind));
      } else {
        HealthNoted(cfg, told, HealthInspect(p));
      }
    }
  }

  /** What is told to the breaker changes nothing else. */
  lemma HealthNoted(cfg: Config, s: State, e: Entry)
    requires Live(cfg, s)
    requires e.HealthSuccess? || e.HealthInspect? || (e.HealthFailure? && Retry.CountsAgainstHealth(e.errorType))
    ensures var s' := Note(s, e);
      && Live(cfg, s') && s' == s.(log := s'.log)
      && Thoughts(s'.log) == Thoughts(s.log) && Origins(s'.log) == Origins(s.log) && Metered(s'.log) == Metered(s.log)
  {
    hide Ordered, Thoughts, Speech, Origins, Gated, Sent, Metered, CB.SnapshotOf, Conversation, Usage.Sound, GoesOn,
      Unsent;
  }

  lemma SettlingFailed(cfg: Config, pass: Pass, s: State, a: Attempt)
    requires InFailableAttempt(cfg, s, a)
    ensures var s1 := SettleFailed(pass, s, a).0;
      && Live(cfg, s1) && s1.usage == s.usage && s1.route == s.route && s1.reply == s.reply
      && Origins(s1.log).targets == Origins(s.log).targets && Metered(s1.log) == Metered(s.log)
          && NothingWaits(s1, a.reasoned)
  {
    hide Ordered, Thoughts, Speech, Origins, Gated, Sent, Metered, Live, Abort;
    SettledAttempt(cfg, s, a, false, pass.settledAt);
    Aborting(cfg, Settle(s, a, false, pass.settledAt), ParentAbort in pass.settling);
    if !Reasoning.Pending(a.summary) {
      NothingToSettle(s, a, pass.settledAt);
    }
  }

  lemma NothingToSettle(s: State, a: Attempt, now: int)
    requires !Reasoning.Pending(a.summary)
    ensures Settle(s, a, false, now) == s
  {
  }

  /** The failed attempt is settled, reported and closed; the run may now retry, fall back or fail. */
  lemma CatchPrepares(cfg: Config, pass: Pass, s: State, a: Attempt, kind: Option<string>)
    requires InFailableAttempt(cfg, s, a)
    ensures var s1 := SettleFailed(pass, s, a).0;
      var s2 := ReportFailure(cfg, pass, s1, kind).0;
      var s3 := s2.(usage := Usage.Finished(s2.usage));
      && Live(cfg, s3) && Attributed(s3)
      && s3.route == s.route && s3.reply == s.reply && Origins(s3.log).targets == Origins(s.log).targets
      && NothingWaits(s3, a.reasoned)
  {
    hide Ordered, Thoughts, Speech, Origins, Gated, Sent, Metered, SettleFailed;
    SettlingFailed(cfg, pass, s, a);
    var s1 := SettleFailed(pass, s, a).0;
    ReportingFailure(cfg, pass, s1, kind);
    var s2 := ReportFailure(cfg, pass, s1, kind).0;
    FinishingAttributes(s2);
    ObservingStaysSound(s2.usage, s.route.active, Usage.NO_USAGE);
  }

  lemma DecideKeeps(cfg: Config, pass: Pass, s: State, reasoned: bool, code: string, kind: Option<string>,
                    circuit: Option<CB.Snapshot>)
    requires Live(cfg, s) && Attributed(s)
    requires NothingWaits(s, reasoned)
    ensures TurnKeeps(cfg, s, Decide(cfg, pass, s, reasoned, code, kind, circuit))
    ensures Streams(Decide(cfg, pass, s, reasoned, code, kind, circuit).state) == Streams(s)
  {
    hide Ordered, Thoughts, Speech, Origins, Gated, Sent, Metered, Live, AtHead, Over, AfterDelay,
      TryFallback, LeftByException;
    if Retry.IsRetryable(code) && !s.reply.emitted && RetriesUsed(s) < cfg.Policy().maxRetries {
      CountingRetry(cfg, s);
      AfterDelayKeeps(cfg, pass, CountRetry(s), reasoned);
    } else {
      Switching(cfg, s, pass.fallback, code);
      match TryFallback(s, pass.fallback, code)
      case Switched(s1) => AnnouncingHead(cfg, s1, reasoned);
      case Escaped(_) =>
      case Unavailable =>
        Closing(cfg, s, RunFailed(ProviderFailure(code, kind, Shown(circuit), s.route.snapshot, s.route.retryAttempts),
                                  Usage.EvidenceOf(s.usage)));
    }
  }

  lemma CatchKeeps(cfg: Config, pass: Pass, s: State, a: Attempt, error: ProviderError)
    requires InFailableAttempt(cfg, s, a)
    ensures TurnKeeps(cfg, s, Catch(cfg, pass, s, a, error))
    ensures Streams(Catch(cfg, pass, s, a, error).state) == Streams(s)
  {
    hide Ordered, Thoughts, Speech, Origins, Gated, Sent, Metered, Live, AtHead, Over, SettleFailed,
      ReportFailure, Decide, LeftByException, InStep, FailureCode;
    var (s1, outcome) := SettleFailed(pass, s, a);
    SettlingFailed(cfg, pass, s, a);
    if outcome == Some(Cancelled) {
      Closing(cfg, s1, RunCancelled(Usage.EvidenceOf(s1.usage)));
    } else {
      var (code, kind) := FailureCode(outcome, error);
      CatchPrepares(cfg, pass, s, a, kind);
      var (s2, circuit) := ReportFailure(cfg, pass, s1, kind);
      DecideKeeps(cfg, pass, s2.(usage := Usage.Finished(s2.usage)), a.reasoned, code, kind, circuit);
    }
  }

  lemma FallbackOrKeeps(cfg: Config, pass: Pass, s: State, reason: string, circuit: Option<CB.Snapshot>)
    requires AtHead(cfg, s)
    ensures TurnKeeps(cfg, s, FallbackOr(s, pass, reason, circuit))
    ensures Streams(FallbackOr(s, pass, reason, circuit).state) == Streams(s)
  {
    hide Ordered, Thoughts, Speech, Origins, Gated, Sent, Metered, Live, Over, TryFallback, LeftByException;
    Switching(cfg, s, pass.fallback, reason);
    Closing(cfg, s, RunFailed(ProviderFailure(reason, None, Shown(circuit), s.route.snapshot, s.route.retryAttempts),
                              Usage.EvidenceOf(s.usage)));
  }

  /** Between message.completed and run.completed. */
  ghost predicate Sealed(cfg: Config, s: State) {
    && Ordered(s.log) == Order(true, s.sequence, true, true, false, false, 0)
    && Spoke(s) && Sourced(s) && Permitted(cfg, s) && Talked(cfg, s) && Thoughts(s.log).ok && Usage.Sound(s.usage)
    && (Attributing(s) || Attributed(s))
    && !Thoughts(s.log).pending
  }

  lemma CompletingMessage(cfg: Config, s: State)
    requires Live(cfg, s) && !Thoughts(s.log).pending
    requires Attributing(s) || Attributed(s)
    ensures var s' := Emit(s, MessageCompleted(s.reply.content));
      Sealed(cfg, s') && Origins(s'.log).targets == Origins(s.log).targets
  {
    hide Ordered, Thoughts, Speech, Origins, Gated, Sent, Metered;
  }

  lemma CompletingRun(cfg: Config, s: State)
    requires Sealed(cfg, s)
    ensures var s' := Close(s, RunCompleted(Usage.EvidenceOf(s.usage), s.route.retryAttempts, s.route.snapshot));
      Over(cfg, s') && Origins(s'.log).targets == Origins(s.log).targets
  {
    hide Ordered, Thoughts, Speech, Origins, Gated, Sent, Metered, Conversation, Extends;
    FinishingAttributes(s);
    ObservingStaysSound(s.usage, s.route.active, Usage.NO_USAGE);
  }

  lemma ReportingSuccess(cfg: Config, pass: Pass, s: State)
    requires Live(cfg, s)
    ensures var s' := ReportSuccess(cfg, pass, s);
      Live(cfg, s') && s' == s.(log := s'.log, breaker := s'.breaker) && Origins(s'.log) == Origins(s.log)
      && Thoughts(s'.log) == Thoughts(s.log) && Metered(s'.log) == Metered(s.log)
  {
    hide Ordered, Thoughts, Speech, Origins, Gated, Sent, Metered;
  }

  lemma CompleteKeeps(cfg: Config, pass: Pass, s: State, a: Attempt)
    requires InAttempt(cfg, s, a)
    ensures Over(cfg, Complete(cfg, pass, s, a))
    ensures Streams(Complete(cfg, pass, s, a)) == Streams(s)
  {
    hide Ordered, Thoughts, Speech, Origins, Gated, Sent, Metered, Live, Over, Sealed, Settle,
      ReportSuccess;
    SettledAttempt(cfg, s, a, true, pass.settledAt);
    ReportingSuccess(cfg, pass, Settle(s, a, true, pass.settledAt));
    var s1 := ReportSuccess(cfg, pass, Settle(s, a, true, pass.settledAt));
    CompletingMessage(cfg, s1);
    CompletingRun(cfg, Emit(s1, MessageCompleted(s1.reply.content)));
  }

  // ---------- The call itself ----------

  lemma AskingCircuit(cfg: Config, pass: Pass, s: State)
    requires AtHead(cfg, s)
    ensures var (s', circuit) := AskCircuit(cfg, pass, s);
      && AtHead(cfg, s') && s' == s.(log := s'.log, breaker := s'.breaker) && Origins(s'.log) == Origins(s.log)
      && Gated(s'.log).gate ==
         (if circuit.Some? && circuit.value.state == CB.Open then None else Some(s.route.active.providerId))
  {
    hide Ordered, Thoughts, Speech, Origins, Gated, Sent, Metered, CB.SnapshotOf, Conversation, Usage.Sound;
  }

  /** streamChat is called with the conversation as it stands, once its provider may be called. */
  lemma Streaming(cfg: Config, s: State, parameters: string)
    requires AtHead(cfg, s) && Gated(s.log).gate == Some(s.route.active.providerId)
    requires !cfg.KillSwitched(s.route.active.providerId)
    ensures var s' := Note(s, Stream(s.route.active, s.reply.messages, parameters));
      && Live(cfg, s') && Attributing(s')
      && Thoughts(s'.log) == Thoughts(s.log) && Sent(s'.log).sent == Some(s.reply.messages)
      && Origins(s'.log).targets == Origins(s.log).targets + [s.route.active]
      && Origins(s'.log).aborted == s.aborted
  {
    hide Ordered, Thoughts, Speech, Origins, Gated, Sent, Metered;
  }

  lemma StreamKeeps(cfg: Config, pass: Pass, s: State, effective: string, a: Attempt)
    requires AtHead(cfg, s) && Gated(s.log).gate == Some(s.route.active.providerId)
    requires !cfg.KillSwitched(s.route.active.providerId)
    requires (s.aborted ==> a.outcome.Some?) && a.summary == Reasoning.NO_SUMMARY && !a.reasoned
    ensures var s' := Note(s, Stream(s.route.active, s.reply.messages, effective));
      && InAttempt(cfg, s', a) && Streams(s') == Streams(s) + 1 && s'.route == s.route && s'.reply == s.reply
  {
    hide Ordered, Thoughts, Speech, Origins, Gated, Sent, Metered, Live;
    Streaming(cfg, s, effective);
  }

  /** What the attempt loop makes of a stream that has been consumed. */
  lemma ConsumedKeeps(cfg: Config, pass: Pass, s: State, s2: State, a: Attempt)
    requires AtHead(cfg, s) && InAttempt(cfg, s2, a) && s2.route == s.route && s2.reply == s.reply
    ensures var turn := Consumed(cfg, pass, Consume(cfg, pass, s2, a, 0));
      TurnKeeps(cfg, s, turn) && Streams(turn.state) == Streams(s2)
  {
    hide Ordered, Thoughts, Speech, Origins, Gated, Sent, Metered, Live, Over, Consume, Catch,
      Complete, LeftByException, InStep;
    ConsumeKeeps(cfg, pass, s2, a, 0);
    MeasureIsNatural(cfg, s);
    match Consume(cfg, pass, s2, a, 0)
    case Looped(s3) => MeasureIsNatural(cfg, s3);
    case Returned(s3) =>
    case Threw(s3, a3, error) => CatchKeeps(cfg, pass, s3, a3, error);
    case Drained(s3, a3) => CompleteKeeps(cfg, pass, s3, a3);
  }

  lemma CallKeeps(cfg: Config, pass: Pass, s: State)
    requires AtHead(cfg, s) && Gated(s.log).gate == Some(s.route.active.providerId)
    requires !cfg.KillSwitched(s.route.active.providerId)
    ensures TurnKeeps(cfg, s, Call(cfg, pass, s))
    ensures Streams(Call(cfg, pass, s).state) <= Streams(s) + 1
  {
    hide Ordered, Thoughts, Speech, Origins, Gated, Sent, Metered, Live, Over, InAttempt,
      Consumed, Catch, LeftByException;
    var s1 := Abort(s, ParentAbort in pass.resolution.signals);
    Aborting(cfg, s, ParentAbort in pass.resolution.signals);
    var outcome := Latched(if s.aborted then Some(Cancelled) else None, pass.resolution.signals);
    match pass.resolution.answer
    case Refused(error) => CatchKeeps(cfg, pass, s1, Attempt(outcome, Reasoning.NO_SUMMARY, false, false), error);
    case Resolved(effective, _, retain) =>
      var a := Attempt(outcome, Reasoning.NO_SUMMARY, false, retain);
      StreamKeeps(cfg, pass, s1, effective, a);
      ConsumedKeeps(cfg, pass, s1, Note(s1, Stream(s1.route.active, s1.reply.messages, effective)), a);
  }

  lemma TakeTurnKeeps(cfg: Config, pass: Pass, s: State)
    requires AtHead(cfg, s)
    ensures TurnKeeps(cfg, s, TakeTurn(cfg, pass, s))
    ensures Streams(TakeTurn(cfg, pass, s).state) <= Streams(s) + 1
  {
    hide Ordered, Thoughts, Speech, Origins, Gated, Sent, Metered, Live, Over, FallbackOr, Call, AskCircuit,
      LeftByException;
    var s1 := Abort(s, ParentAbort in pass.before);
    Aborting(cfg, s, ParentAbort in pass.before);
    if cfg.KillSwitched(s1.route.active.providerId) {
      FallbackOrKeeps(cfg, pass, s1, "provider_disabled", None);
    } else {
      AskingCircuit(cfg, pass, s1);
      var (s2, circuit) := AskCircuit(cfg, pass, s1);
      if circuit.Some? && circuit.value.state == CB.Open {
        FallbackOrKeeps(cfg, pass, s2, "provider_circuit_open", circuit);
      } else {
        CallKeeps(cfg, pass, s2);
      }
    }
  }
}
