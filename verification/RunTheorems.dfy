/**
 The attempt loop and what holds of every run of it, for any configuration, any
 environment and any earlier use of the circuit breaker.
 */
module RunTheorems {
  import opened Wrappers
  import opened RunTypes
  import opened RunLog
  import opened RunSpec
  import opened RunInvariants
  import CB = CircuitBreaker
  import Retry = RetryPolicy
  import Usage = UsageTracker
  import opened StreamRuntime

  /** A finished run, or one that left through an exception; `turns` counts passes of the attempt loop. */
  datatype Outcome = Outcome(state: State, escaped: bool, turns: nat)

  /** The attempt loop from pass `k` on. */
  ghost function Attempts(cfg: Config, script: Script, s: State, k: nat): Outcome
    requires AtHead(cfg, s)
    decreases Measure(cfg, s)
  {
    TakeTurnKeeps(cfg, script.passes(k), s);
    MeasureIsNatural(cfg, s);
    match TakeTurn(cfg, script.passes(k), s)
    case Again(s') => MeasureIsNatural(cfg, s'); Attempts(cfg, script, s', k + 1)
    case Finished(s') => Outcome(s', false, k + 1)
    case Escapes(s') => Outcome(s', true, k + 1)
  }

  lemma StartIsHead(cfg: Config, breaker: seq<CB.Call>, aborted: bool, requested: Option<string>)
    ensures var s := Start(cfg, Begin(cfg, breaker, aborted), requested);
      AtHead(cfg, s) && Streams(s) == 0 && RetriesUsed(s) == 0 && s.reply.toolCalls == 0
      && s.route.fallback == cfg.providerFallback
  {
    var s0 := Begin(cfg, breaker, aborted);
    assert cfg.messages[|cfg.messages|..] == [];
    assert Ordered(s0.log) == Order(true, 0, false, false, false, false, 0);
    assert Thoughts(s0.log) == Thinking(true, 0, 0, false);
    assert Speech(s0.log) == Spoken(true, "", None);
    assert Origins(s0.log) == Origin(true, s0.aborted, [], None);
    assert Gated([]) == Traffic(true, None, {});
    assert Gated(s0.log) == Traffic(true, None, {}) && Sent(s0.log) == NOTHING_SENT;
    if cfg.emitRunStarted {
      var s1 := Emit(s0, RunStarted(cfg.primary.modelId, cfg.primary.providerId, cfg.providerTimeoutMs,
                                    cfg.Policy().maxRetries, requested));
      assert Ordered(s1.log) == Order(true, 1, false, false, false, false, 0);
      assert Thoughts(s1.log) == Thinking(true, 0, 0, false);
      assert Speech(s1.log) == Spoken(true, "", None);
      assert Origins(s1.log) == Origin(true, s0.aborted, [], None);
      assert Gated(s1.log) == Traffic(true, None, {}) && Sent(s1.log) == NOTHING_SENT;
    }
  }

  /** One whole run. The breaker's history so far is part of the environment. */
  ghost function Run(cfg: Config, script: Script, breaker: seq<CB.Call>): Outcome {
    var s := Begin(cfg, breaker, ParentAbort in script.initial.signals);
    match script.initial.answer
    case Refused(error) => Outcome(RefuseStart(s, error), false, 0)
    case Resolved(_, requested, _) =>
      StartIsHead(cfg, breaker, ParentAbort in script.initial.signals, requested);
      Attempts(cfg, script, Start(cfg, s, requested), 0)
  }

  ghost function Trace(cfg: Config, script: Script, breaker: seq<CB.Call>): seq<Event> {
    Events(Run(cfg, script, breaker).state.log)
  }

  // ---------- From one pass to the whole run ----------

  lemma {:induction false} AttemptsKeep(cfg: Config, script: Script, s: State, k: nat)
    requires AtHead(cfg, s)
    ensures var r := Attempts(cfg, script, s, k);
      && (if r.escaped then LeftByException(cfg, r.state) else Over(cfg, r.state))
      && r.turns <= k + Measure(cfg, s) + 1
      && Streams(r.state) <= Streams(s) + Measure(cfg, s) + 1
    decreases Measure(cfg, s)
  {
    hide AtHead, Over, LeftByException, TakeTurn, Measure;
    TakeTurnKeeps(cfg, script.passes(k), s);
    MeasureOfHead(cfg, s);
    match TakeTurn(cfg, script.passes(k), s)
    case Again(s') =>
      MeasureOfHead(cfg, s');
      AttemptsKeep(cfg, script, s', k + 1);
    case Finished(_) =>
    case Escapes(_) =>
  }

  lemma MeasureOfHead(cfg: Config, s: State)
    requires AtHead(cfg, s)
    ensures Measure(cfg, s) >= 0
  {
    MeasureIsNatural(cfg, s);
  }

  predicate Begins(script: Script) {
    script.initial.answer.Resolved?
  }

  /** A run whose initial parameters resolve ends over or adrift, within the bound. */
  lemma RunKeeps(cfg: Config, script: Script, breaker: seq<CB.Call>)
    requires Begins(script)
    ensures var r := Run(cfg, script, breaker);
      && (if r.escaped then LeftByException(cfg, r.state) else Over(cfg, r.state))
      && r.turns <= LoopBound(cfg) && Streams(r.state) <= LoopBound(cfg)
  {
    var aborted := ParentAbort in script.initial.signals;
    StartIsHead(cfg, breaker, aborted, script.initial.answer.requested);
    AttemptsKeep(cfg, script, Start(cfg, Begin(cfg, breaker, aborted), script.initial.answer.requested), 0);
  }

  /** A run that cannot even resolve its initial parameters fails at once and touches nothing. */
  lemma RefusedRun(cfg: Config, script: Script, breaker: seq<CB.Call>)
    requires !Begins(script)
    ensures var r := Run(cfg, script, breaker);
      && !r.escaped && |Events(r.state.log)| == 1 && Events(r.state.log)[0].sequence == 1
      && Events(r.state.log)[0].body.RunFailed? && Origins(r.state.log).targets == [] && r.state.breaker == breaker
      && Accepted(r.state.log) && Ordered(r.state.log).closed && !Thoughts(r.state.log).pending
  {
    var s := Begin(cfg, breaker, ParentAbort in script.initial.signals);
    var s' := RefuseStart(s, script.initial.answer.error);
    assert Ordered(s.log) == Order(true, 0, false, false, false, false, 0) && Events(s.log) == [];
    assert Thoughts(s.log) == Thinking(true, 0, 0, false) && Speech(s.log).ok;
    assert Gated([]).ok && Gated(s.log).ok;
    assert Origins(s.log).ok && Origins(s.log).targets == [] && Sent(s.log).ok;
    assert s'.log[..|s'.log| - 1] == s.log;
  }

  /** No monitor objects to any run, whether it ends or escapes. */
  lemma HistoryIsAccepted(cfg: Config, script: Script, breaker: seq<CB.Call>)
    ensures Accepted(Run(cfg, script, breaker).state.log)
  {
    if Begins(script) {
      RunKeeps(cfg, script, breaker);
    } else {
      RefusedRun(cfg, script, breaker);
    }
  }

  // ---------- Whole-run theorems ----------

  /**
   Every run that does not escape yields events numbered from 1 of which exactly the last
   is terminal; unless its initial parameters were refused it opens with an optional
   run.started and message.started; message.completed stands only right before run.completed.
   */
  lemma EveryTraceIsFinished(cfg: Config, script: Script, breaker: seq<CB.Call>)
    requires !Run(cfg, script, breaker).escaped
    ensures FinishedTrace(Trace(cfg, script, breaker))
    ensures var t := Trace(cfg, script, breaker);
      if Begins(script) then t[0].body.MessageStarted?
          || (t[0].body.RunStarted? && |t| > 1 && t[1].body.MessageStarted?)
      else |t| == 1 && t[0].body.RunFailed?
  {
    var r := Run(cfg, script, breaker);
    if Begins(script) {
      RunKeeps(cfg, script, breaker);
      TraceOpens(r.state.log);
    } else {
      RefusedRun(cfg, script, breaker);
    }
    AcceptedTrace(r.state.log);
  }

  /** A run that escapes is one that never emitted anything, and its trace lacks only its end. */
  lemma EscapedTraceIsUnfinished(cfg: Config, script: Script, breaker: seq<CB.Call>)
    requires Run(cfg, script, breaker).escaped
    ensures var t := Trace(cfg, script, breaker);
      && t != [] && Numbered(t) && Opens(t)
      && forall i :: 0 <= i < |t| ==> !IsTerminal(t[i].body) && !t[i].body.MessageDelta?
  {
    var r := Run(cfg, script, breaker);
    if Begins(script) {
      RunKeeps(cfg, script, breaker);
      TraceCounts(r.state.log);
      TraceOpens(r.state.log);
      TraceEnds(r.state.log);
      NoDeltas(r.state.log);
    } else {
      RefusedRun(cfg, script, breaker);
    }
  }

  lemma {:induction false} NoDeltas(log: seq<Entry>)
    requires Origins(log).ok && Origins(log).source.None?
    ensures forall i :: 0 <= i < |Events(log)| ==> !Events(log)[i].body.MessageDelta?
  {
    if log != [] {
      NoDeltas(log[..|log| - 1]);
    }
  }

  /** How often the attempt loop can turn, whatever providers, fallback and budgets are. */
  function LoopBound(cfg: Config): nat {
    Max(0, cfg.ToolBudget()) + 2 * cfg.Policy().maxRetries + 2
  }

  lemma RunsAreBounded(cfg: Config, script: Script, breaker: seq<CB.Call>)
    ensures var r := Run(cfg, script, breaker);
      r.turns <= LoopBound(cfg) && |StreamTargets(r.state.log)| <= LoopBound(cfg)
  {
    if Begins(script) {
      RunKeeps(cfg, script, breaker);
    } else {
      RefusedRun(cfg, script, breaker);
    }
    AcceptedCounts(Run(cfg, script, breaker).state.log);
  }

  /** In a finished trace that completes, the completed message is all the deltas together. */
  lemma CompletedMessageIsAllDeltas(t: seq<Event>)
    requires FinishedTrace(t) && t[|t| - 1].body.RunCompleted?
    ensures |t| > 1 && t[|t| - 2].body == MessageCompleted(DeltaText(t))
  {
    var n := |t|;
    assert t[..n - 1][..n - 2] == t[..n - 2];
    var said := DeltaText(t[..n - 2]);
    assert DeltaText(t[..n - 1]) == said + "" && DeltaText(t) == (said + "") + "";
  }

  /** All deltas come from one target, and together they are the content and the completed message. */
  lemma OneTargetSpeaks(cfg: Config, script: Script, breaker: seq<CB.Call>)
    ensures var r := Run(cfg, script, breaker); var t := Trace(cfg, script, breaker);
      && SingleSource(r.state.log)
      && r.state.reply.content == DeltaText(t)
      && (!r.escaped && t != [] && t[|t| - 1].body.RunCompleted? ==>
            |t| > 1 && t[|t| - 2].body == MessageCompleted(DeltaText(t)))
  {
    hide AtHead, Over, LeftByException, Attempts, FinishedTrace, TakeTurn, RefuseStart;
    var r := Run(cfg, script, breaker);
    var log, t := r.state.log, Trace(cfg, script, breaker);
    ContentIsSpoken(cfg, script, breaker);
    AcceptedSource(log);
    TraceText(log);
    if !r.escaped && t != [] && t[|t| - 1].body.RunCompleted? {
      EveryTraceIsFinished(cfg, script, breaker);
      CompletedMessageIsAllDeltas(t);
    }
  }

  lemma ContentIsSpoken(cfg: Config, script: Script, breaker: seq<CB.Call>)
    ensures var s := Run(cfg, script, breaker).state;
      Speech(s.log) == Spoken(true, s.reply.content, None) && Origins(s.log).ok
  {
    if Begins(script) {
      RunKeeps(cfg, script, breaker);
    } else {
      RefusedRun(cfg, script, breaker);
      var s := Begin(cfg, breaker, ParentAbort in script.initial.signals);
      assert Speech(s.log).text == "";
    }
  }

  /** Once the parent signal has aborted, the run says nothing more. */
  lemma AbortSilences(cfg: Config, script: Script, breaker: seq<CB.Call>)
    ensures SilentAfterAbort(Run(cfg, script, breaker).state.log)
  {
    if Begins(script) {
      RunKeeps(cfg, script, breaker);
    } else {
      RefusedRun(cfg, script, breaker);
    }
    AcceptedAbort(Run(cfg, script, breaker).state.log);
  }

  /**
   streamChat is called for a provider only on its own fresh pass of the circuit breaker
   and never for the kill-switched primary; only failures that count against health are recorded.
   */
  lemma EveryCallIsPermitted(cfg: Config, script: Script, breaker: seq<CB.Call>)
    ensures var log := Run(cfg, script, breaker).state.log;
      && EveryStreamPermitted(log)
      && OnlyHealthFailuresRecorded(log)
      && (cfg.providerDisabled ==>
            forall i :: 0 <= i < |log| && log[i].Stream? ==> log[i].target.providerId != cfg.primary.providerId)
  {
    var log := Run(cfg, script, breaker).state.log;
    if Begins(script) {
      RunKeeps(cfg, script, breaker);
    } else {
      RefusedRun(cfg, script, breaker);
    }
    AcceptedGates(log);
    AcceptedCounts(log);
    assert |StreamTargets(log)| == 0 ==> forall i :: 0 <= i < |log| ==> !log[i].Stream? by {
      NoStreams(log);
    }
  }

  lemma {:induction false} NoStreams(log: seq<Entry>)
    ensures StreamTargets(log) == [] ==> forall i :: 0 <= i < |log| ==> !log[i].Stream?
  {
    if log != [] {
      NoStreams(log[..|log| - 1]);
    }
  }

  /** A conversation a provider may be sent: the input history, then answered tool requests only. */
  ghost predicate SendsHistoryAndBlocks(cfg: Config, messages: seq<Message>) {
    cfg.messages <= messages && Blocks(messages[|cfg.messages|..])
  }

  lemma ExtendingBlocks(history: seq<Message>, earlier: seq<Message>, later: seq<Message>)
    requires history <= earlier && Blocks(earlier[|history|..]) && Extends(earlier, later)
    ensures history <= later && Blocks(later[|history|..])
  {
    if earlier != later {
      var tail, n := later[|history|..], |earlier| - |history|;
      assert tail[..n] == earlier[|history|..] && tail[n..] == later[|earlier|..];
    }
  }

  lemma {:induction false} CallsSendBlocks(cfg: Config, log: seq<Entry>)
    requires Sent(log).ok && (Sent(log).first.Some? ==> Sent(log).first.value == cfg.messages)
    ensures forall i :: 0 <= i < |log| && log[i].Stream? ==> SendsHistoryAndBlocks(cfg, log[i].messages)
    ensures Sent(log).sent.Some? ==> Sent(log).first.Some? && SendsHistoryAndBlocks(cfg, Sent(log).sent.value)
  {
    if log != [] {
      var before, e := log[..|log| - 1], log[|log| - 1];
      CallsSendBlocks(cfg, before);
      if e.Stream? {
        if Sent(before).sent.Some? {
          AcceptedBatches(before);
          GoingOnExtends(Sent(before), e.messages);
          ExtendingBlocks(cfg.messages, Sent(before).sent.value, e.messages);
        } else {
          assert cfg.messages[|cfg.messages|..] == [];
          assert Sent(before).first.Some? ==> Sent(before).sent.Some? by {
            FirstIsSent(before);
          }
        }
      }
    }
  }

  lemma {:induction false} FirstIsSent(log: seq<Entry>)
    ensures Sent(log).first.Some? <==> Sent(log).sent.Some?
  {
    if log != [] {
      FirstIsSent(log[..|log| - 1]);
    }
  }

  /**
   Every streamChat call sends the input history followed by answered tool requests, the
   same as the call before it or one more; the assistant's texts in them are the content so far.
   */
  lemma ConversationsAreConserved(cfg: Config, script: Script, breaker: seq<CB.Call>)
    ensures var s := Run(cfg, script, breaker).state;
      && Conversation(cfg, s.reply)
      && ConversationsGrow(s.log)
      && forall i :: 0 <= i < |s.log| && s.log[i].Stream? ==> SendsHistoryAndBlocks(cfg, s.log[i].messages)
  {
    var s := Run(cfg, script, breaker).state;
    if Begins(script) {
      RunKeeps(cfg, script, breaker);
    } else {
      RefusedRun(cfg, script, breaker);
      NoStreams(s.log);
      AcceptedCounts(s.log);
      assert cfg.messages[|cfg.messages|..] == [];
      FirstIsSent(s.log);
      NothingSent(s.log);
    }
    AcceptedConversations(s.log);
    CallsSendBlocks(cfg, s.log);
  }

  lemma {:induction false} NothingSent(log: seq<Entry>)
    requires Origins(log).targets == []
    ensures Sent(log).first.None?
  {
    if log != [] {
      NothingSent(log[..|log| - 1]);
    }
  }

  /** The evidence is these segments and their totals; reasoning is never more than output. */
  ghost predicate ShowsSegments(e: Usage.Evidence, segments: seq<Usage.Segment>) {
    if segments == [] then e.NoEvidence?
    else
      && e.Evidence? && e.usageSegments == segments && Usage.WithinOutput(e.usage)
      && (forall f :: Usage.Get(e.usage, f).Some? <==> Usage.AllDefine(segments, f))
      && (forall f :: Usage.Get(e.usage, f).Some? ==> Usage.Get(e.usage, f).value == Usage.Sum(segments, f))
  }

  lemma EvidenceShows(u: Usage.Usages)
    requires Usage.Sound(u) && u.current.None?
    ensures ShowsSegments(Usage.EvidenceOf(u), u.completed)
  {
    Usage.EvidenceWithinOutput(u);
    Usage.EvidenceMeans(u);
    assert u.completed + [] == u.completed;
    hide Usage.EvidenceOf, Usage.WithinOutput, Usage.Sound;
  }

  /**
   The segments are exactly what the calls' usage reports add up to: one for each streamChat
   call that reported anything, in order, with that call's own target and, field by field,
   its last reports. The terminal event shows them and their sums, and never more reasoning
   than output.
   */
  lemma UsageIsConserved(cfg: Config, script: Script, breaker: seq<CB.Call>)
    requires Begins(script)
    ensures var r := Run(cfg, script, breaker); var t := Trace(cfg, script, breaker);
      var segments := SegmentsOf(Measurements(r.state.log));
      && r.state.usage == Usage.Usages(None, segments)
      && (!r.escaped ==> && t != [] && IsTerminal(t[|t| - 1].body)
                         && ShowsSegments(EvidenceIn(t[|t| - 1].body), segments))
  {
    hide Metered, Measurements, SegmentsOf, Run, ShowsSegments, Usage.EvidenceOf, Usage.Sound;
    var r := Run(cfg, script, breaker);
    RunKeeps(cfg, script, breaker);
    MeterMeans(r.state.log);
    EvidenceShows(r.state.usage);
    if !r.escaped {
      LastEvent(r.state.log);
    }
  }

  /** The last entry of an ended run is its last event. */
  lemma LastEvent(log: seq<Entry>)
    requires LastEvidence(log).Some?
    ensures var t := Events(log);
      t != [] && IsTerminal(t[|t| - 1].body) && LastEvidence(log) == Some(EvidenceIn(t[|t| - 1].body))
  {
  }

  /** There is a measurement for each streamChat call, of that call's target. */
  lemma {:induction false} MeasuredCalls(log: seq<Entry>)
    ensures var ms, targets := Measurements(log), StreamTargets(log);
      |ms| == |targets| && forall i :: 0 <= i < |ms| ==> ms[i].target == targets[i]
  {
    if log != [] {
      MeasuredCalls(log[..|log| - 1]);
    }
  }

  /** Tools run at most as often as the budget allows. */
  lemma ToolBudgetHolds(cfg: Config, script: Script, breaker: seq<CB.Call>)
    ensures CountToolRuns(Run(cfg, script, breaker).state.log) <= Max(0, cfg.ToolBudget())
  {
    var log := Run(cfg, script, breaker).state.log;
    if Begins(script) {
      RunKeeps(cfg, script, breaker);
      AcceptedCounts(log);
    } else {
      var s := Begin(cfg, breaker, ParentAbort in script.initial.signals);
      assert CountToolRuns(s.log) == 0;
    }
  }

  /** Every attempt that buffered a summary settles it exactly once, and nothing else is settled. */
  lemma SummariesAreSettled(cfg: Config, script: Script, breaker: seq<CB.Call>)
    ensures SummariesSettledOnce(Run(cfg, script, breaker).state.log)
  {
    if Begins(script) {
      RunKeeps(cfg, script, breaker);
    } else {
      RefusedRun(cfg, script, breaker);
    }
    AcceptedSettles(Run(cfg, script, breaker).state.log);
  }

  // ---------- Single steps a reader would ask about ----------

  /**
   A batch over the budget runs none of its calls, and its failure names the first call
   that does not fit, which is always one of the batch.
   */
  lemma LimitNamesFirstCallPastBudget(cfg: Config, pass: Pass, s: State, a: Attempt, toolCall: ToolCall,
                                      toolCalls: Option<seq<ToolCall>>, at: int)
    requires InAttempt(cfg, s, a) && cfg.hasToolExecutor && cfg.ToolBudget() >= 0
    requires s.reply.toolCalls + |RequestedCalls(toolCall, toolCalls)| > cfg.ToolBudget()
    ensures var i := cfg.ToolBudget() - s.reply.toolCalls;
      var calls := RequestedCalls(toolCall, toolCalls);
      var flow := OnChunk(cfg, pass, s, a, ToolRequest(toolCall, toolCalls), at);
      && 0 <= i < |calls| && s.reply.toolCalls + |calls[..i]| == cfg.ToolBudget()
      && flow.Returned? && Sent(flow.state.log).toolRuns == Sent(s.log).toolRuns
      && flow.state.log != [] && flow.state.log[|flow.state.log| - 1].Yielded?
      && var body := flow.state.log[|flow.state.log| - 1].event.body;
         body.RunFailed? && body.failure
             == ToolFailure("model_tool_call_limit_exceeded", None, RequestOf(cfg, calls[i]))
  {
    hide InAttempt, Requested, RunTools, Note;
    RequestedToolsRunNothing(cfg, pass, s, a, toolCall, toolCalls);
  }

  lemma RequestedToolsRunNothing(cfg: Config, pass: Pass, s: State, a: Attempt, toolCall: ToolCall,
                                 toolCalls: Option<seq<ToolCall>>)
    requires InAttempt(cfg, s, a)
    ensures var s0 := Note(s, Handled(ToolRequest(toolCall, toolCalls)));
      var s1 := Requested(cfg, pass, s0, a, RequestedCalls(toolCall, toolCalls));
      && s1.reply == s.reply && Sent(s1.log).toolRuns == Sent(s.log).toolRuns
      && 0 <= s.reply.toolCalls <= Max(0, cfg.ToolBudget())
  {
    hide InAttempt, Requested, Live;
    var s0, calls := Note(s, Handled(ToolRequest(toolCall, toolCalls))), RequestedCalls(toolCall, toolCalls);
    OnRequestKeeps(cfg, s, a, toolCall, toolCalls);
    RequestedTools(cfg, pass, s0, a, calls);
    assert s.reply.toolCalls <= Max(0, cfg.ToolBudget());
  }

  /** The caller's own bad payloads leave every record of the breaker as it was. */
  lemma PayloadErrorsLeaveRecords(policy: CB.Policy, cfg: Config, pass: Pass, s: State, kind: Option<string>, p: string)
    requires !Retry.CountsAgainstHealth(kind) && cfg.circuit == Some(policy)
    ensures CB.RecordOf(policy, ReportFailure(cfg, pass, s, kind).0.breaker, p)
            == CB.RecordOf(policy, s.breaker + pass.othersAfter, p)
  {
    CB.AfterCall(policy, s.breaker + pass.othersAfter, CB.Inspect(s.route.active.providerId));
  }

  /** Between attempts no usage segment is open. */
  lemma NoSegmentOpenBetweenAttempts(cfg: Config, pass: Pass, s: State)
    requires AtHead(cfg, s)
    ensures TakeTurn(cfg, pass, s).Again? ==> TakeTurn(cfg, pass, s).state.usage.current.None?
  {
    TakeTurnKeeps(cfg, pass, s);
  }
}
