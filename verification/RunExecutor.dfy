/**
 packages/ai-runtime/src/run-executor.ts in its own form: the generator's variables are the
 fields, `yield` appends to `events`, and each piece of the attempt loop is a method whose
 postcondition is the corresponding function of `RunSpec`.
 */
module RunExecutor {
  import opened Wrappers
  import opened RunTypes
  import opened RunLog
  import opened RunSpec
  import opened RunInvariants
  import opened RunTheorems
  import CB = CircuitBreaker
  import Retry = RetryPolicy
  import Usage = UsageTracker
  import Reasoning = ReasoningSummary
  import SR = StreamRuntime

  /** How a method of the attempt loop gives control back. */
  datatype Control = ContinueAttempts | ReturnFromRun | ThrowFromRun

  /** How reading the stream ends. */
  datatype StreamEnd = StreamLooped | StreamReturned | StreamDrained | StreamThrew(error: ProviderError)

  ghost function TurnOf(c: Control, s: State): Turn {
    match c
    case ContinueAttempts => Again(s)
    case ReturnFromRun => Finished(s)
    case ThrowFromRun => Escapes(s)
  }

  ghost function FlowOf(e: StreamEnd, s: State, a: Attempt): Flow {
    match e
    case StreamLooped => Looped(s)
    case StreamReturned => Returned(s)
    case StreamDrained => Drained(s, a)
    case StreamThrew(error) => Threw(s, a, error)
  }

  class Executor {
    const cfg: Config
    const usageTracker: Usage.ProviderUsageTracker
    const breaker: CB.ProviderCircuitBreaker?

    var sequence: nat
    var events: seq<Event>
    var content: string
    var currentAssistantMessageContent: string
    var emittedContent: bool
    var modelToolCallCount: nat
    var messages: seq<Message>
    var retryAttempts: nat
    var active: Target
    var fallback: Option<Target>
    var providerFallback: Option<FallbackSnapshot>
    var retryAttemptsByProvider: map<string, nat>
    var signalAborted: bool
    ghost var log: seq<Entry>

    ghost function Repr(): set<object> {
      {this, usageTracker} + if breaker == null then {} else {breaker}
    }

    ghost predicate Valid()
      reads Repr()
    {
      && events == Events(log)
      && (breaker == null <==> cfg.circuit.None?)
      && (breaker != null ==> breaker.Valid() && breaker.policy == cfg.circuit.value)
    }

    ghost function View(): State
      reads Repr()
    {
      State(sequence, log, Reply(content, currentAssistantMessageContent, emittedContent, messages, modelToolCallCount),
            Route(active, fallback, providerFallback, retryAttemptsByProvider, retryAttempts),
            usageTracker.View(), if breaker == null then [] else breaker.history, signalAborted)
    }

    constructor (cfg: Config, breaker: CB.ProviderCircuitBreaker?, signalAborted: bool)
      requires breaker == null <==> cfg.circuit.None?
      requires breaker != null ==> breaker.Valid() && breaker.policy == cfg.circuit.value
      ensures Valid() && fresh(Repr() - {breaker}) && this.cfg == cfg && this.breaker == breaker && events == []
      ensures View() == Begin(cfg, if breaker == null then [] else breaker.history, signalAborted)
    {
      this.cfg := cfg;
      this.breaker := breaker;
      usageTracker := new Usage.ProviderUsageTracker();
      sequence, events := 0, [];
      content, currentAssistantMessageContent, emittedContent := "", "", false;
      modelToolCallCount, messages, retryAttempts := 0, cfg.messages, 0;
      active, fallback, providerFallback := cfg.primary, cfg.providerFallback, None;
      retryAttemptsByProvider := map[];
      this.signalAborted := signalAborted;
      log := if signalAborted then Logged([], ParentAborted) else [];
    }

    // ---------- The first events ----------

    method StartRun(requested: Option<string>)
      requires Valid()
      modifies this`sequence, this`events, this`log
      ensures Valid() && View() == Start(cfg, old(View()), requested)
    {
      hide Emit, Events, CB.ProviderCircuitBreaker.Valid;
      if cfg.emitRunStarted {
        Yield(RunStarted(cfg.primary.modelId, cfg.primary.providerId, cfg.providerTimeoutMs,
                         cfg.Policy().maxRetries, requested));
      }
      Yield(MessageStarted);
    }

    method RefuseRun(error: ProviderError)
      requires Valid()
      modifies this`sequence, this`events, this`log
      ensures Valid() && View() == RefuseStart(old(View()), error)
    {
      hide Emit, Events, CB.ProviderCircuitBreaker.Valid;
      var (code, kind) := Retry.Classify(error);
      Yield(RunFailed(ProviderFailure(code, kind, None, None, 0), Usage.NoEvidence));
    }

    // ---------- Yielding ----------

    /** The consumer receives one event. */
    method Append(event: Event)
      requires Valid()
      modifies this`events, this`log
      ensures Valid() && View() == Note(old(View()), Yielded(event))
    {
      hide OrderStep, ThinkingStep, SpokenStep, OriginStep, TrafficStep, TalkStep, MeterStep, Events,
        Ordered, Thoughts, Speech, Origins, Gated, Sent, Metered, Logged, CB.ProviderCircuitBreaker.Valid;
      events := events + [event];
      log := Logged(log, Yielded(event));
    }

    method Yield(body: Body)
      requires Valid()
      modifies this`sequence, this`events, this`log
      ensures Valid() && View() == Emit(old(View()), body)
    {
      hide OrderStep, ThinkingStep, SpokenStep, OriginStep, TrafficStep, TalkStep, MeterStep, Events,
        Ordered, Thoughts, Speech, Origins, Gated, Sent, Metered, Logged, CB.ProviderCircuitBreaker.Valid;
      sequence := sequence + 1;
      Append(Event(sequence, body));
    }

    ghost method Record(e: Entry)
      requires Valid() && !e.Yielded?
      modifies this`log
      ensures Valid() && View() == Note(old(View()), e)
    {
      hide OrderStep, ThinkingStep, SpokenStep, OriginStep, TrafficStep, TalkStep, MeterStep, Events,
        Ordered, Thoughts, Speech, Origins, Gated, Sent, Metered, Logged, CB.ProviderCircuitBreaker.Valid;
      log := Logged(log, e);
    }

    /** The parent signal aborts while the run is waiting. */
    method Arrive(aborts: bool)
      requires Valid()
      modifies this`log, this`signalAborted
      ensures Valid() && View() == Abort(old(View()), aborts)
    {
      if aborts && !signalAborted {
        signalAborted := true;
        Record(ParentAborted);
      }
    }

    /** A terminal event with the usage evidence. */
    method CloseWith(withEvidence: Usage.Evidence -> Body)
      requires Valid()
      modifies this`sequence, this`events, this`log, usageTracker
      ensures Valid() && View() == Close(old(View()), withEvidence(Usage.EvidenceOf(old(View()).usage)))
    {
      var evidence := usageTracker.TakeEvidence();
      Yield(withEvidence(evidence));
    }

    method FailWith(failure: Failure)
      requires Valid()
      modifies this`sequence, this`events, this`log, usageTracker
      ensures Valid() && View() == Fail(old(View()), failure)
    {
      CloseWith(e => RunFailed(failure, e));
    }

    method FailProvider(code: string, kind: Option<string>, circuit: Option<CB.Snapshot>)
      requires Valid()
      modifies this`sequence, this`events, this`log, usageTracker
      ensures Valid() && View() == ProviderFails(old(View()), code, kind, circuit)
    {
      FailWith(ProviderFailure(code, kind, Shown(circuit), providerFallback, retryAttempts));
    }

    method CancelRun()
      requires Valid()
      modifies this`sequence, this`events, this`log, usageTracker
      ensures Valid() && View() == Cancel(old(View()))
    {
      CloseWith(e => RunCancelled(e));
    }

    method FinishReasoningSummary(tracker: Reasoning.ReasoningSummaryTracker, keep: bool, now: int, ghost a: Attempt)
      requires Valid() && tracker.Valid() && tracker.View() == a.summary
      modifies this`sequence, this`events, this`log, tracker
      ensures Valid() && tracker.Valid() && tracker.View() == Reasoning.Settled(old(tracker.View()))
      ensures View() == Settle(old(View()), a, keep, now)
    {
      hide Reasoning.Fits, Reasoning.Characters, Reasoning.FinishEvents, Emit, SummaryBody, Events;
      var tokens := usageTracker.CurrentReasoningTokens();
      var summaryEvents := tracker.Finish(keep, tokens, now);
      ghost var before := View();
      for i := 0 to |summaryEvents|
        invariant Valid() && tracker.Valid() && tracker.View() == Reasoning.Settled(old(tracker.View()))
        invariant View() == EmitSummary(before, summaryEvents[..i])
      {
        Yield(SummaryBody(summaryEvents[i]));
        assert summaryEvents[..i + 1][..i] == summaryEvents[..i];
      }
      assert summaryEvents[..|summaryEvents|] == summaryEvents;
    }

    // ---------- Fallback ----------

    method TryFallback(r: Resolution, reason: string) returns (control: Option<Control>)
      requires Valid()
      modifies this`log, this`signalAborted, this`active, this`fallback, this`providerFallback
      ensures Valid()
      ensures match RunSpec.TryFallback(old(View()), r, reason)
        case Unavailable => control == None && View() == old(View())
        case Switched(s) => control == Some(ContinueAttempts) && View() == s
        case Escaped(s) => control == Some(ThrowFromRun) && View() == s
    {
      hide Abort, Events;
      if fallback.None? || emittedContent {
        return None;
      }
      Arrive(SR.ParentAbort in r.signals);
      if r.answer.Refused? {
        return Some(ThrowFromRun);
      }
      var target := fallback.value;
      providerFallback := Some(FallbackSnapshot(active.modelId, active.providerId, r.answer.requested, reason,
                                                target.modelId, target.providerId));
      active := target;
      fallback := None;
      control := Some(ContinueAttempts);
    }

    /** At the head of the attempt loop: fall back, or fail with the reason. */
    method FallBackOrFail(pass: Pass, reason: string, circuit: Option<CB.Snapshot>) returns (control: Control)
      requires Valid()
      modifies this, usageTracker
      ensures Valid()
      ensures TurnOf(control, View()) == FallbackOr(old(View()), pass, reason, circuit)
    {
      hide ProviderFails, RunSpec.TryFallback, Events;
      var fell := TryFallback(pass.fallback, reason);
      if fell.Some? {
        return fell.value;
      }
      FailProvider(reason, None, circuit);
      control := ReturnFromRun;
    }

    // ---------- Tools ----------

    method RequestTools(calls: seq<ToolCall>)
      requires Valid()
      modifies this`sequence, this`events, this`log
      ensures Valid() && View() == EmitRequests(cfg, old(View()), calls)
    {
      hide Emit, RequestOf, Events;
      for i := 0 to |calls|
        invariant Valid() && View() == EmitRequests(cfg, old(View()), calls[..i])
      {
        Yield(ToolRequested(RequestOf(cfg, calls[i])));
        assert calls[..i + 1][..i] == calls[..i];
      }
      assert calls[..|calls|] == calls;
    }

    /** Run the requested tools one after the other; stop the run at the first that does not return. */
    method RunToolCalls(pass: Pass, calls: seq<ToolCall>) returns (ran: bool, answers: seq<Message>)
      requires Valid()
      modifies this`sequence, this`events, this`log, this`signalAborted, usageTracker
      ensures Valid()
      ensures RunTools(cfg, pass, old(View()), calls, 0, []) == if ran then AllRan(View(), answers) else Stopped(View())
    {
      hide Abort, Note, Close, StopBody, RequestOf, Usage.EvidenceOf, Events;
      answers := [];
      for i := 0 to |calls|
        invariant Valid()
        invariant RunTools(cfg, pass, View(), calls, i, answers) == RunTools(cfg, pass, old(View()), calls, 0, [])
      {
        var call, reply := calls[i], pass.tools(i);
        Record(ToolRun(call, reply.outcome));
        Arrive(reply.aborts);
        if !reply.outcome.Returns? {
          var request, outcome := RequestOf(cfg, call), reply.outcome;
          CloseWith(e => StopBody(request, outcome, e));
          return false, answers;
        }
        answers := answers + [ToolAnswer(reply.outcome.content, call.name, call.providerCallId)];
      }
      ran := true;
    }

    /** Extend the conversation by the answered request and start over. */
    method ContinueConversation(calls: seq<ToolCall>, answers: seq<Message>, reasoned: bool)
      requires Valid()
      modifies this`sequence, this`events, this`log, this`messages, this`modelToolCallCount,
        this`currentAssistantMessageContent
      ensures Valid() && View() == Continued(old(View()), calls, answers, reasoned)
    {
      hide Emit, Events;
      modelToolCallCount := modelToolCallCount + |calls|;
      messages := messages + [Assistant(currentAssistantMessageContent, calls)] + answers;
      currentAssistantMessageContent := "";
      if reasoned {
        Yield(MessageStarted);
      }
    }

    method AnnounceTools(pass: Pass, tracker: Reasoning.ReasoningSummaryTracker, calls: seq<ToolCall>, ghost a: Attempt)
      requires Valid() && tracker.Valid() && tracker.View() == a.summary
      modifies this`sequence, this`events, this`log, usageTracker, tracker
      ensures Valid() && View() == Requested(cfg, pass, old(View()), a, calls)
    {
      hide Settle, EmitRequests, Usage.Finished, Events;
      FinishReasoningSummary(tracker, true, pass.settledAt, a);
      usageTracker.FinishAttempt();
      RequestTools(calls);
    }

    method HandleToolCalls(pass: Pass, tracker: Reasoning.ReasoningSummaryTracker, calls: seq<ToolCall>, reasoned: bool,
                           ghost a: Attempt) returns (looped: bool)
      requires Valid() && calls != [] && tracker.Valid() && tracker.View() == a.summary && reasoned == a.reasoned
      modifies this, usageTracker, tracker
      ensures Valid()
      ensures OnToolCalls(cfg, pass, old(View()), a, calls) == if looped then Looped(View()) else Returned(View())
    {
      hide Requested, RunTools, Continued, Fail, RequestOf, Events;
      AnnounceTools(pass, tracker, calls, a);
      if !cfg.hasToolExecutor {
        FailWith(ToolFailure("provider_tool_call_dispatch_unavailable", None, RequestOf(cfg, calls[0])));
        return false;
      }
      if modelToolCallCount + |calls| > cfg.ToolBudget() {
        var limited := LimitedCall(calls, cfg.ToolBudget() - modelToolCallCount);
        FailWith(ToolFailure("model_tool_call_limit_exceeded", None, RequestOf(cfg, limited)));
        return false;
      }
      var ran, answers := RunToolCalls(pass, calls);
      if ran {
        ContinueConversation(calls, answers, reasoned);
      }
      looped := ran;
    }

    // ---------- The stream ----------

    /** The attempt as its objects and local variables have it now. */
    ghost function AttemptView(tracker: Reasoning.ReasoningSummaryTracker, runtime: SR.ProviderStreamRuntime,
                               reasoned: bool, retain: bool): Attempt
      reads tracker, runtime
    {
      Attempt(runtime.outcome, tracker.View(), reasoned, retain)
    }

    method HandleUsage(report: UsageReport)
      requires Valid()
      modifies usageTracker
      ensures Valid() && View() == Measured(old(View()), report)
    {
      hide Usage.Observed, Usage.SanitizedUsage, Events;
      var usage := Usage.SanitizeUsage(report, active.adapterKind);
      usageTracker.Observe(active, usage);
    }

    method HandleToken(text: string)
      requires Valid()
      modifies this`sequence, this`events, this`log, this`emittedContent, this`content,
        this`currentAssistantMessageContent
      ensures Valid() && View() == Said(old(View()), text)
    {
      hide Emit, Events;
      emittedContent := true;
      content := content + text;
      currentAssistantMessageContent := currentAssistantMessageContent + text;
      Yield(MessageDelta(text));
    }

    method HandleReasoning(tracker: Reasoning.ReasoningSummaryTracker, runtime: SR.ProviderStreamRuntime, chunk: Chunk,
                           at: int, reasoned: bool, retain: bool)
      requires Valid() && tracker.Valid()
      modifies this`sequence, this`events, this`log, tracker
      ensures Valid() && tracker.Valid()
      ensures (View(), AttemptView(tracker, runtime, true, retain)) ==
              Thinks(old(View()), old(AttemptView(tracker, runtime, reasoned, retain)), chunk, at)
    {
      hide Emit, Note, Events;
      match ReasoningOf(chunk, reasoned, retain)
      case Summarizes(text) =>
        if tracker.startedAt.None? {
          Record(SummaryBuffered);
        }
        tracker.Observe(text, at);
      case Notice => Yield(MessageReasoning);
      case _ =>
    }

    /** One chunk; `end` is absent when the next pull may start. */
    method HandleChunk(pass: Pass, tracker: Reasoning.ReasoningSummaryTracker, runtime: SR.ProviderStreamRuntime,
                       chunk: Chunk, at: int, reasoned: bool, retain: bool)
      returns (end: Option<StreamEnd>, reasoned': bool)
      requires Valid() && tracker.Valid()
      modifies this, usageTracker, tracker
      ensures Valid()
      ensures end.None? ==> tracker.Valid()
      ensures end != Some(StreamDrained) && (end.Some? ==> !end.value.StreamThrew?)
      ensures OnChunk(cfg, pass, old(View()), old(AttemptView(tracker, runtime, reasoned, retain)), chunk, at) ==
              (if end.None? then Pulling(View(), AttemptView(tracker, runtime, reasoned', retain))
               else FlowOf(end.value, View(), AttemptView(tracker, runtime, reasoned', retain)))
    {
      hide OnToolCalls, Measured, Said, Thinks, Note, Events;
      end, reasoned' := None, reasoned;
      ghost var a := AttemptView(tracker, runtime, reasoned, retain);
      Record(Handled(chunk));
      match chunk
      case UsageChunk(report) => HandleUsage(report);
      case ToolRequest(toolCall, toolCalls) =>
        var looped := HandleToolCalls(pass, tracker, RequestedCalls(toolCall, toolCalls), reasoned, a);
        end := Some(if looped then StreamLooped else StreamReturned);
      case Token(text) => HandleToken(text);
      case _ =>
        HandleReasoning(tracker, runtime, chunk, at, reasoned, retain);
        reasoned' := true;
    }

    /** One pull: its signals and its settled answer. */
    method ReceivePull(runtime: SR.ProviderStreamRuntime, pull: Pull, ghost a: Attempt) returns (next: SR.Next)
      requires Valid() && runtime.Valid() && a.outcome == runtime.outcome
      modifies this`log, this`signalAborted, runtime
      ensures Valid() && runtime.Valid()
      ensures (View(), a.(outcome := runtime.outcome), next) == Receive(old(View()), a, pull)
    {
      hide Abort, Events, CB.ProviderCircuitBreaker.Valid;
      Arrive(SR.ParentAbort in pull.before);
      runtime.Deliver(pull.before);
      var asked := runtime.outcome.None?;
      next := runtime.NextChunk(pull.answer);
      Arrive(asked && SR.ParentAbort in SR.SignalsOf(pull.answer));
    }

    method CancelAttempt(pass: Pass, tracker: Reasoning.ReasoningSummaryTracker, ghost a: Attempt)
      requires Valid() && tracker.Valid() && tracker.View() == a.summary
      modifies this`sequence, this`events, this`log, usageTracker, tracker
      ensures Valid() && View() == Cancel(Settle(old(View()), a, false, pass.settledAt))
    {
      hide Settle, Cancel, Events;
      FinishReasoningSummary(tracker, false, pass.settledAt, a);
      CancelRun();
    }

    /** One pull, and the chunk if one may be used; `end` is absent when the next pull may start. */
    method HandlePull(pass: Pass, tracker: Reasoning.ReasoningSummaryTracker, runtime: SR.ProviderStreamRuntime,
                      pull: Pull, reasoned: bool, retain: bool)
      returns (end: Option<StreamEnd>, reasoned': bool)
      requires Valid() && tracker.Valid() && runtime.Valid()
      modifies this, usageTracker, tracker, runtime
      ensures Valid() && runtime.Valid()
      ensures end.None? || end.value.StreamDrained? || end.value.StreamThrew? ==> tracker.Valid()
      ensures var a' := AttemptView(tracker, runtime, reasoned', retain);
        match OnPull(cfg, pass, old(View()), old(AttemptView(tracker, runtime, reasoned, retain)), pull)
        case Pulling(s, a) => end.None? && s == View() && a == a'
        case flow => end.Some? && flow == FlowOf(end.value, View(), a')
    {
      hide OnChunk, Receive, Settle, Cancel, Events, CB.ProviderCircuitBreaker.Valid;
      reasoned' := reasoned;
      var next := ReceivePull(runtime, pull, AttemptView(tracker, runtime, reasoned, retain));
      match next
      case Done => end := Some(StreamDrained);
      case Rejected(error) => end := Some(StreamThrew(error));
      case Value(chunk) =>
        if runtime.outcome == Some(SR.Cancelled) {
          CancelAttempt(pass, tracker, AttemptView(tracker, runtime, reasoned, retain));
          end := Some(StreamReturned);
        } else if runtime.outcome == Some(SR.TimedOut) {
          end := Some(StreamThrew(Classified("provider_timeout", None)));
        } else {
          end, reasoned' := HandleChunk(pass, tracker, runtime, chunk, pull.at, reasoned, retain);
        }
    }

    /** Read the stream until it ends, fails or the run leaves the attempt. */
    method ConsumeStream(pass: Pass, tracker: Reasoning.ReasoningSummaryTracker, runtime: SR.ProviderStreamRuntime,
                         retain: bool) returns (end: StreamEnd, reasoned: bool)
      requires Valid() && tracker.Valid() && runtime.Valid()
      modifies this, usageTracker, tracker, runtime
      ensures Valid()
      ensures end.StreamDrained? || end.StreamThrew? ==> tracker.Valid() && runtime.Valid()
      ensures Consume(cfg, pass, old(View()), old(AttemptView(tracker, runtime, false, retain)), 0) ==
              FlowOf(end, View(), AttemptView(tracker, runtime, reasoned, retain))
    {
      hide OnPull, Events;
      reasoned := false;
      var i := 0;
      while true
        invariant 0 <= i <= |pass.pulls| && Valid() && tracker.Valid() && runtime.Valid()
        invariant Consume(cfg, pass, View(), AttemptView(tracker, runtime, reasoned, retain), i) ==
                  Consume(cfg, pass, old(View()), old(AttemptView(tracker, runtime, false, retain)), 0)
        decreases |pass.pulls| - i
      {
        var last := i == |pass.pulls|;
        if last {
          NoPullAfterTheEnd(cfg, pass, View(), AttemptView(tracker, runtime, reasoned, retain));
        }
        var step, reasoned' := HandlePull(pass, tracker, runtime, PullAt(pass, i), reasoned, retain);
        reasoned := reasoned';
        if step.Some? {
          return step.value, reasoned;
        }
        i := i + 1;
      }
    }

    // ---------- The circuit breaker ----------

    /** What other runs do to the shared breaker while this one waits. */
    static method Interfere(breaker: CB.ProviderCircuitBreaker, calls: seq<CB.Call>)
      requires breaker.Valid()
      modifies breaker
      ensures breaker.Valid() && breaker.history == old(breaker.history) + calls
    {
      hide CB.ProviderCircuitBreaker.Valid, CB.SnapshotOf;
      for i := 0 to |calls|
        invariant breaker.Valid() && breaker.history == old(breaker.history) + calls[..i]
      {
        match calls[i] {
          case BeforeAttempt(p, at) => var _ := breaker.BeforeAttempt(p, at);
          case RecordSuccess(p) => var _ := breaker.RecordSuccess(p);
          case RecordFailure(p, at) => var _ := breaker.RecordFailure(p, at);
          case Inspect(p) => var _ := breaker.Inspect(p);
        }
        assert calls[..i + 1] == calls[..i] + [calls[i]];
      }
      assert calls[..|calls|] == calls;
    }

    method AskBreaker(pass: Pass) returns (circuit: Option<CB.Snapshot>)
      requires Valid()
      modifies this`log, if breaker == null then {} else {breaker}
      ensures Valid() && (View(), circuit) == AskCircuit(cfg, pass, old(View()))
    {
      hide CB.ProviderCircuitBreaker.Valid, CB.SnapshotOf, Note, Events;
      if breaker == null {
        circuit := None;
      } else {
        Interfere(breaker, pass.othersBefore);
        var snapshot := breaker.BeforeAttempt(active.providerId, pass.askedAt);
        circuit := Some(snapshot);
      }
      Record(Gate(active.providerId, circuit));
    }

    method TellSuccess(pass: Pass)
      requires Valid()
      modifies this`log, if breaker == null then {} else {breaker}
      ensures Valid() && View() == ReportSuccess(cfg, pass, old(View()))
    {
      hide CB.ProviderCircuitBreaker.Valid, CB.SnapshotOf, Note, Events;
      if breaker != null {
        Interfere(breaker, pass.othersAfter);
        var _ := breaker.RecordSuccess(active.providerId);
        Record(HealthSuccess(active.providerId));
      }
    }

    method TellFailure(pass: Pass, kind: Option<string>) returns (circuit: Option<CB.Snapshot>)
      requires Valid()
      modifies this`log, if breaker == null then {} else {breaker}
      ensures Valid() && (View(), circuit) == ReportFailure(cfg, pass, old(View()), kind)
    {
      hide CB.ProviderCircuitBreaker.Valid, CB.SnapshotOf, Note, Events;
      if breaker == null {
        return None;
      }
      Interfere(breaker, pass.othersAfter);
      if Retry.CountsAgainstHealth(kind) {
        var snapshot := breaker.RecordFailure(active.providerId, pass.reportedAt);
        circuit := Some(snapshot);
        Record(HealthFailure(active.providerId, kind));
      } else {
        var snapshot := breaker.Inspect(active.providerId);
        circuit := Some(snapshot);
        Record(HealthInspect(active.providerId));
      }
    }

    // ---------- The end of an attempt ----------

    method CompleteRun(pass: Pass, tracker: Reasoning.ReasoningSummaryTracker, ghost a: Attempt)
      requires Valid() && tracker.Valid() && tracker.View() == a.summary
      modifies this`sequence, this`events, this`log, usageTracker, tracker, if breaker == null then {} else {breaker}
      ensures Valid() && View() == Complete(cfg, pass, old(View()), a)
    {
      hide Settle, ReportSuccess, Emit, Close, Events, CB.ProviderCircuitBreaker.Valid, Usage.EvidenceOf;
      FinishReasoningSummary(tracker, true, pass.settledAt, a);
      TellSuccess(pass);
      Yield(MessageCompleted(content));
      var attempts, snapshot := retryAttempts, providerFallback;
      CloseWith(e => RunCompleted(e, attempts, snapshot));
    }

    /** Wait before the retry; an aborted wait cancels the run. */
    method DelayRetry(pass: Pass, reasoned: bool) returns (control: Control)
      requires Valid()
      modifies this`sequence, this`events, this`log, this`signalAborted, usageTracker
      ensures Valid() && TurnOf(control, View()) == AfterDelay(cfg, pass, old(View()), reasoned)
    {
      hide Abort, Emit, Cancel, Events, CB.ProviderCircuitBreaker.Valid;
      var resolves := Retry.DelayResolves(cfg.Policy().backoffMs, signalAborted, pass.delayAborts);
      Arrive(!signalAborted && pass.delayAborts);
      if !resolves {
        CancelRun();
        return ReturnFromRun;
      }
      if reasoned {
        Yield(MessageStarted);
      }
      control := ContinueAttempts;
    }

    method Retries() returns (used: nat)
      ensures used == RetriesUsed(View())
    {
      used := if active.providerId in retryAttemptsByProvider then retryAttemptsByProvider[active.providerId] else 0;
    }

    method CountThisRetry(used: nat)
      requires Valid() && used == RetriesUsed(View())
      modifies this`retryAttemptsByProvider, this`retryAttempts
      ensures Valid() && View() == CountRetry(old(View()))
    {
      retryAttemptsByProvider := retryAttemptsByProvider[active.providerId := used + 1];
      retryAttempts := retryAttempts + 1;
    }

    method RetryOrFallBack(pass: Pass, reasoned: bool, code: string, kind: Option<string>, circuit: Option<CB.Snapshot>)
      returns (control: Control)
      requires Valid()
      modifies this, usageTracker
      ensures Valid() && TurnOf(control, View()) == Decide(cfg, pass, old(View()), reasoned, code, kind, circuit)
    {
      hide AfterDelay, CountRetry, RetriesUsed, RunSpec.TryFallback, Emit, ProviderFails, Events,
        CB.ProviderCircuitBreaker.Valid;
      var used := Retries();
      if Retry.IsRetryable(code) && !emittedContent && used < cfg.Policy().maxRetries {
        CountThisRetry(used);
        control := DelayRetry(pass, reasoned);
        return;
      }
      var fell := TryFallback(pass.fallback, code);
      if fell == Some(ContinueAttempts) && reasoned {
        Yield(MessageStarted);
      }
      if fell.Some? {
        return fell.value;
      }
      FailProvider(code, kind, circuit);
      control := ReturnFromRun;
    }

    /** Settle a failed attempt's summary; signals may arrive while its events are yielded. */
    method SettleFailure(pass: Pass, tracker: Reasoning.ReasoningSummaryTracker, runtime: SR.ProviderStreamRuntime,
                         ghost a: Attempt)
      requires Valid() && tracker.Valid() && runtime.Valid()
      requires tracker.View() == a.summary && runtime.outcome == a.outcome
      modifies this`sequence, this`events, this`log, this`signalAborted, tracker, runtime
      ensures Valid() && runtime.Valid() && (View(), runtime.outcome) == SettleFailed(pass, old(View()), a)
    {
      hide Settle, Abort, Events, CB.ProviderCircuitBreaker.Valid;
      var waits := tracker.startedAt.Some? && !tracker.finished;
      if waits {
        FinishReasoningSummary(tracker, false, pass.settledAt, a);
        Arrive(SR.ParentAbort in pass.settling);
        runtime.Deliver(pass.settling);
      }
    }

    /** The catch block around an attempt. */
    method CatchFailure(pass: Pass, tracker: Reasoning.ReasoningSummaryTracker, runtime: SR.ProviderStreamRuntime,
                        reasoned: bool, error: ProviderError, ghost a: Attempt) returns (control: Control)
      requires Valid() && tracker.Valid() && runtime.Valid()
      requires tracker.View() == a.summary && runtime.outcome == a.outcome && reasoned == a.reasoned
      modifies this, usageTracker, tracker, runtime, if breaker == null then {} else {breaker}
      ensures Valid() && TurnOf(control, View()) == Catch(cfg, pass, old(View()), a, error)
    {
      hide SettleFailed, ReportFailure, Decide, Cancel, Usage.Finished, Events, CB.ProviderCircuitBreaker.Valid,
        FailureCode;
      SettleFailure(pass, tracker, runtime, a);
      if runtime.outcome == Some(SR.Cancelled) {
        CancelRun();
        return ReturnFromRun;
      }
      var (code, kind) := FailureCode(runtime.outcome, error);
      var circuit := TellFailure(pass, kind);
      usageTracker.FinishAttempt();
      control := RetryOrFallBack(pass, reasoned, code, kind, circuit);
    }

    // ---------- The attempt loop ----------

    /** Read the provider's stream and act on how it ended. */
    method StreamAttempt(pass: Pass, tracker: Reasoning.ReasoningSummaryTracker, runtime: SR.ProviderStreamRuntime,
                         retain: bool) returns (control: Control)
      requires Valid() && tracker.Valid() && runtime.Valid()
      modifies this, usageTracker, tracker, runtime, if breaker == null then {} else {breaker}
      ensures Valid()
      ensures TurnOf(control, View()) ==
              Consumed(cfg, pass, Consume(cfg, pass, old(View()), old(AttemptView(tracker, runtime, false, retain)), 0))
    {
      hide Consume, Catch, Complete, Events, CB.ProviderCircuitBreaker.Valid;
      var end, reasoned := ConsumeStream(pass, tracker, runtime, retain);
      ghost var a := AttemptView(tracker, runtime, reasoned, retain);
      match end
      case StreamLooped => control := ContinueAttempts;
      case StreamReturned => control := ReturnFromRun;
      case StreamThrew(error) => control := CatchFailure(pass, tracker, runtime, reasoned, error, a);
      case StreamDrained =>
        CompleteRun(pass, tracker, a);
        control := ReturnFromRun;
    }

    method CallProvider(pass: Pass) returns (control: Control)
      requires Valid()
      modifies this, usageTracker, if breaker == null then {} else {breaker}
      ensures Valid() && TurnOf(control, View()) == Call(cfg, pass, old(View()))
    {
      hide Abort, Note, Consume, Consumed, Catch, Events, CB.ProviderCircuitBreaker.Valid;
      var tracker := new Reasoning.ReasoningSummaryTracker();
      var runtime := new SR.ProviderStreamRuntime(signalAborted);
      Arrive(SR.ParentAbort in pass.resolution.signals);
      runtime.Deliver(pass.resolution.signals);
      match pass.resolution.answer
      case Refused(error) =>
        control := CatchFailure(pass, tracker, runtime, false, error,
                                AttemptView(tracker, runtime, false, false));
      case Resolved(effective, _, retain) =>
        Record(Stream(active, messages, effective));
        control := StreamAttempt(pass, tracker, runtime, retain);
    }

    method AttemptOnce(pass: Pass) returns (control: Control)
      requires Valid()
      modifies this, usageTracker, if breaker == null then {} else {breaker}
      ensures Valid() && TurnOf(control, View()) == TakeTurn(cfg, pass, old(View()))
    {
      hide Abort, FallbackOr, AskCircuit, Call, Events, CB.ProviderCircuitBreaker.Valid;
      Arrive(SR.ParentAbort in pass.before);
      if cfg.KillSwitched(active.providerId) {
        control := FallBackOrFail(pass, "provider_disabled", None);
        return;
      }
      var circuit := AskBreaker(pass);
      if circuit.Some? && circuit.value.state == CB.Open {
        control := FallBackOrFail(pass, "provider_circuit_open", circuit);
        return;
      }
      control := CallProvider(pass);
    }
  }

  lemma NoPullAfterTheEnd(cfg: Config, pass: Pass, s: State, a: Attempt)
    ensures !OnPull(cfg, pass, s, a, PullAt(pass, |pass.pulls|)).Pulling?
  {
  }

  ghost function Earlier(breaker: CB.ProviderCircuitBreaker?): seq<CB.Call>
    reads breaker
  {
    if breaker == null then [] else breaker.history
  }

  /** The generator, drained: every event it yields, and whether it left by an exception. */
  method StreamRunEvents(cfg: Config, breaker: CB.ProviderCircuitBreaker?, script: Script)
    returns (events: seq<Event>, escaped: bool)
    requires breaker == null <==> cfg.circuit.None?
    requires breaker != null ==> breaker.Valid() && breaker.policy == cfg.circuit.value
    modifies if breaker == null then {} else {breaker}
    ensures breaker != null ==> breaker.Valid()
    ensures var r := Run(cfg, script, old(Earlier(breaker)));
      events == Events(r.state.log) && escaped == r.escaped && Earlier(breaker) == r.state.breaker
    ensures !escaped ==> FinishedTrace(events)
  {
    hide AtHead, TakeTurn, Begin, Start, RefuseStart, Emit, Events, FinishedTrace, CB.ProviderCircuitBreaker.Valid;
    ghost var history := Earlier(breaker);
    var aborted := SR.ParentAbort in script.initial.signals;
    var run := new Executor(cfg, breaker, aborted);
    ghost var r := Run(cfg, script, history);
    if script.initial.answer.Refused? {
      run.RefuseRun(script.initial.answer.error);
      EveryTraceIsFinished(cfg, script, history);
      return run.events, false;
    }
    run.StartRun(script.initial.answer.requested);
    StartIsHead(cfg, history, aborted, script.initial.answer.requested);
    var k := 0;
    while true
      invariant k >= 0 && run.Valid() && run.cfg == cfg && run.breaker == breaker && fresh(run.Repr() - {breaker})
      invariant AtHead(cfg, run.View()) && Attempts(cfg, script, run.View(), k) == r
      decreases Measure(cfg, run.View())
    {
      TakeTurnKeeps(cfg, script.passes(k), run.View());
      MeasureOfHead(cfg, run.View());
      var control := run.AttemptOnce(script.passes(k));
      match control {
        case ReturnFromRun =>
          EveryTraceIsFinished(cfg, script, history);
          return run.events, false;
        case ThrowFromRun => return run.events, true;
        case ContinueAttempts =>
      }
      k := k + 1;
    }
  }

  /** `executeRun`: the events and the text of all their deltas. */
  method ExecuteRun(cfg: Config, breaker: CB.ProviderCircuitBreaker?, script: Script)
    returns (content: string, events: seq<Event>, escaped: bool)
    requires breaker == null <==> cfg.circuit.None?
    requires breaker != null ==> breaker.Valid() && breaker.policy == cfg.circuit.value
    modifies if breaker == null then {} else {breaker}
    ensures events == Events(Run(cfg, script, old(Earlier(breaker))).state.log)
    ensures content == DeltaText(events) == Run(cfg, script, old(Earlier(breaker))).state.reply.content
    ensures !escaped && events != [] && events[|events| - 1].body.RunCompleted? ==>
            |events| > 1 && events[|events| - 2].body == MessageCompleted(content)
  {
    hide Run, FinishedTrace, Events, CB.ProviderCircuitBreaker.Valid;
    ghost var history := Earlier(breaker);
    events, escaped := StreamRunEvents(cfg, breaker, script);
    content := "";
    for i := 0 to |events|
      invariant content == DeltaText(events[..i])
    {
      assert events[..i + 1][..i] == events[..i];
      if events[i].body.MessageDelta? {
        content := content + events[i].body.text;
      }
    }
    assert events[..|events|] == events;
    OneTargetSpeaks(cfg, script, history);
  }
}
