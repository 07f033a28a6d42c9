/**
 packages/ai-runtime/src/run-executor.ts as a function: what one run does against a given
 environment. `RunExecutor` is the imperative form proved equal to it, and `RunTheorems`
 holds what is true of every run.

 The environment is a script. For each pass of the attempt loop it says what the breaker's
 other users do, what parameter resolution, the adapter's stream, the tool executor and
 the retry delay answer, and when the parent signal aborts or the idle timer fires.
 */
module RunSpec {
  import opened Wrappers
  import opened RunTypes
  import opened RunLog
  import CB = CircuitBreaker
  import Retry = RetryPolicy
  import Usage = UsageTracker
  import Reasoning = ReasoningSummary
  import opened StreamRuntime

  // ---------- Inputs ----------

  datatype Config = Config(
    primary: Target,
    providerFallback: Option<Target>,
    messages: seq<Message>,
    emitRunStarted: bool,
    maxModelToolCalls: Option<int>,
    hasToolExecutor: bool,
    providerDisabled: bool,
    circuit: Option<CB.Policy>,
    retryPolicy: Option<Retry.RawPolicy>,
    providerTimeoutMs: Option<int>,
    redact: string -> string)
  {
    function Policy(): Retry.Policy {
      Retry.Normalize(retryPolicy)
    }

    function ToolBudget(): int {
      maxModelToolCalls.GetOr(4)
    }

    /** The provider the kill switch keeps this run from calling. */
    predicate KillSwitched(provider: string) {
      providerDisabled && provider == primary.providerId
    }
  }

  datatype ResolvedParameters =
    | Resolved(effective: string, requested: Option<string>, retainSummary: bool)
    | Refused(error: ProviderError)

  datatype Resolution = Resolution(answer: ResolvedParameters, signals: seq<Signal>)

  datatype ToolReply = ToolReply(outcome: ToolOutcome, aborts: bool)

  /** One pull on the adapter's stream: signals before it, the clock at it, and the answer. */
  datatype Pull = Pull(before: seq<Signal>, at: int, answer: Answer)

  const END_OF_STREAM := Pull([], 0, Ends([]))

  /** The environment of one pass of the attempt loop. */
  datatype Pass = Pass(
    before: seq<Signal>,
    othersBefore: seq<CB.Call>,     // breaker calls of other runs
    askedAt: int,
    resolution: Resolution,
    pulls: seq<Pull>,
    tools: nat -> ToolReply,
    settledAt: int,
    settling: seq<Signal>,          // while a failed attempt's summary is being yielded
    othersAfter: seq<CB.Call>,
    reportedAt: int,
    delayAborts: bool,
    fallback: Resolution)

  datatype Script = Script(initial: Resolution, passes: nat -> Pass)

  // ---------- State ----------

  datatype Reply = Reply(content: string, current: string, emitted: bool, messages: seq<Message>, toolCalls: nat)

  datatype Route = Route(active: Target, fallback: Option<Target>, snapshot: Option<FallbackSnapshot>,
                         retries: map<string, nat>, retryAttempts: nat)

  datatype State = State(sequence: nat, log: seq<Entry>, reply: Reply, route: Route,
                         usage: Usage.Usages, breaker: seq<CB.Call>, aborted: bool)

  /** One attempt's own state. */
  datatype Attempt = Attempt(outcome: Option<Outcome>, summary: Reasoning.Summary, reasoned: bool, retain: bool)

  function Note(s: State, e: Entry): State {
    s.(log := Logged(s.log, e))
  }

  function Emit(s: State, body: Body): State {
    s.(sequence := s.sequence + 1, log := Logged(s.log, Yielded(Event(s.sequence + 1, body))))
  }

  function Abort(s: State, happens: bool): State {
    if happens && !s.aborted then Note(s.(aborted := true), ParentAborted) else s
  }

  /** Yield a terminal event with the usage evidence, which closes the open segment. */
  function Close(s: State, body: Body): State {
    Emit(s.(usage := Usage.Finished(s.usage)), body)
  }

  function Cancel(s: State): State {
    Close(s, RunCancelled(Usage.EvidenceOf(s.usage)))
  }

  function Fail(s: State, failure: Failure): State {
    Close(s, RunFailed(failure, Usage.EvidenceOf(s.usage)))
  }

  function Shown(circuit: Option<CB.Snapshot>): Option<CB.Snapshot> {
    if circuit.Some? && circuit.value.state != CB.Closed then circuit else None
  }

  function ProviderFails(s: State, code: string, kind: Option<string>, circuit: Option<CB.Snapshot>): State {
    Fail(s, ProviderFailure(code, kind, Shown(circuit), s.route.snapshot, s.route.retryAttempts))
  }

  // ---------- Summaries ----------

  function SummaryBody(e: Reasoning.SummaryEvent): Body {
    match e
    case SummaryText(text) => SummaryDelta(text)
    case SummaryKept(n, metadata) => SummaryCompleted(Some(n), metadata)
    case SummaryDiscarded(metadata) => SummaryCompleted(None, metadata)
  }

  function EmitSummary(s: State, events: seq<Reasoning.SummaryEvent>): State {
    if events == [] then s
    else Emit(EmitSummary(s, events[..|events| - 1]), SummaryBody(events[|events| - 1]))
  }

  function Settle(s: State, a: Attempt, keep: bool, now: int): State {
    EmitSummary(s, Reasoning.FinishEvents(a.summary, keep, Usage.CurrentReasoning(s.usage), now))
  }

  // ---------- Fallback ----------

  datatype Fell = Unavailable | Switched(state: State) | Escaped(state: State)

  function TryFallback(s: State, r: Resolution, reason: string): Fell {
    if s.route.fallback.None? || s.reply.emitted then Unavailable
    else
      var s1 := Abort(s, ParentAbort in r.signals);
      match r.answer
      case Refused(_) => Escaped(s1)
      case Resolved(_, requested, _) =>
        var from, to := s.route.active, s.route.fallback.value;
        Switched(s1.(route := s.route.(
          active := to, fallback := None,
          snapshot := Some(FallbackSnapshot(from.modelId, from.providerId, requested, reason, to.modelId,
              to.providerId)))))
  }

  // ---------- Tools ----------

  function RequestOf(cfg: Config, call: ToolCall): RequestedTool {
    RequestedTool(call.name, cfg.redact("provider.tool_call.event.v1\0" + call.providerCallId))
  }

  function EmitRequests(cfg: Config, s: State, calls: seq<ToolCall>): State {
    if calls == [] then s
    else Emit(EmitRequests(cfg, s, calls[..|calls| - 1]), ToolRequested(RequestOf(cfg, calls[|calls| - 1])))
  }

  /** The call a limit failure names: the one at the index, or the last when there is none there. */
  function LimitedCall(calls: seq<ToolCall>, index: int): ToolCall
    requires calls != []
  {
    if 0 <= index < |calls| then calls[index] else calls[|calls| - 1]
  }

  const KNOWN_TOOL_ERRORS: set<string> := {
    "invalid_request",
    "invalid_tool_approval_request",
    "not_found",
    "tool_approval_request_expired",
    "tool_approval_request_required",
    "tool_approval_required",
    "tool_execution_error",
    "tool_execution_replayed",
    "tool_not_bound"
  }

  function ToolErrorCode(e: ToolError): string {
    var code := if e.errorCode.Some? then e.errorCode else e.code;
    if code.None? || code.value !in KNOWN_TOOL_ERRORS then "model_tool_execution_failed" else code.value
  }

  function ToolFailureData(e: ToolError, request: RequestedTool): Failure {
    var id := if e.approvalRequestId.Some? && 0 < |e.approvalRequestId.value| <= 200 then e.approvalRequestId else None;
    ToolFailure(ToolErrorCode(e), id, request)
  }

  /** Of what a tool threw, only known codes and short approval ids are shown. */
  lemma ToolFailureIsSanitized(e: ToolError, request: RequestedTool)
    ensures var f := ToolFailureData(e, request);
      && f.ToolFailure? && f.tool == request
      && (f.errorCode in KNOWN_TOOL_ERRORS || f.errorCode == "model_tool_execution_failed")
      && (e.errorCode.Some? && e.errorCode.value in KNOWN_TOOL_ERRORS ==> f.errorCode == e.errorCode.value)
      && (e.errorCode.None? && e.code.Some? && e.code.value in KNOWN_TOOL_ERRORS ==> f.errorCode == e.code.value)
      && (f.approvalRequestId.Some? ==> f.approvalRequestId == e.approvalRequestId)
      && (f.approvalRequestId.Some? ==> 0 < |f.approvalRequestId.value| <= 200)
  {
  }

  /** The terminal event of a tool call that does not return. */
  function StopBody(request: RequestedTool, outcome: ToolOutcome, evidence: Usage.Evidence): (b: Body)
    requires !outcome.Returns?
    ensures IsTerminal(b) && !b.RunCompleted? && EvidenceIn(b) == evidence
  {
    match outcome
    case Suspends(dispatch) => WaitingToolDispatch(dispatch, request, evidence)
    case Throws(error) =>
      var failure := ToolFailureData(error, request);
      if failure.errorCode == "tool_approval_required" then WaitingToolApproval(failure, evidence)
      else RunFailed(failure, evidence)
  }

  datatype ToolFlow = Stopped(state: State) | AllRan(state: State, answers: seq<Message>)

  function RunTools(cfg: Config, pass: Pass, s: State, calls: seq<ToolCall>, i: nat, answers: seq<Message>): ToolFlow
    requires i <= |calls|
    decreases |calls| - i
  {
    if i == |calls| then AllRan(s, answers)
    else
      var call, request := calls[i], RequestOf(cfg, calls[i]);
      var reply := pass.tools(i);
      var s1 := Abort(Note(s, ToolRun(call, reply.outcome)), reply.aborts);
      match reply.outcome
      case Returns(content) =>
        RunTools(cfg, pass, s1, calls, i + 1, answers + [ToolAnswer(content, call.name, call.providerCallId)])
      case _ => Stopped(Close(s1, StopBody(request, reply.outcome, Usage.EvidenceOf(s1.usage))))
  }

  /** How the handling of a pull, or of the whole stream, ends. */
  datatype Flow =
    | Pulling(state: State, attempt: Attempt)
    | Looped(state: State)
    | Returned(state: State)
    | Drained(state: State, attempt: Attempt)
    | Threw(state: State, attempt: Attempt, error: ProviderError)

  function Continued(s: State, calls: seq<ToolCall>, answers: seq<Message>, reasoned: bool): State {
    var r := s.reply;
    var s1 := s.(reply := Reply(r.content, "", r.emitted,
                                r.messages + [Assistant(r.current, calls)] + answers, r.toolCalls + |calls|));
    if reasoned then Emit(s1, MessageStarted) else s1
  }

  /** The attempt's summary settled and its usage closed, each requested tool is announced. */
  function Requested(cfg: Config, pass: Pass, s: State, a: Attempt, calls: seq<ToolCall>): State {
    var settled := Settle(s, a, true, pass.settledAt);
    EmitRequests(cfg, settled.(usage := Usage.Finished(settled.usage)), calls)
  }

  /** A batch that is announced is refused, or past the budget, or run. */
  function Dispatch(cfg: Config, pass: Pass, s: State, calls: seq<ToolCall>, reasoned: bool): (flow: Flow)
    requires calls != []
    ensures flow.Looped? || flow.Returned?
  {
    if !cfg.hasToolExecutor then
      Returned(Fail(s, ToolFailure("provider_tool_call_dispatch_unavailable", None, RequestOf(cfg, calls[0]))))
    else if s.reply.toolCalls + |calls| > cfg.ToolBudget() then
      var limited := LimitedCall(calls, cfg.ToolBudget() - s.reply.toolCalls);
      Returned(Fail(s, ToolFailure("model_tool_call_limit_exceeded", None, RequestOf(cfg, limited))))
    else
      match RunTools(cfg, pass, s, calls, 0, [])
      case Stopped(s1) => Returned(s1)
      case AllRan(s1, answers) => Looped(Continued(s1, calls, answers, reasoned))
  }

  function OnToolCalls(cfg: Config, pass: Pass, s: State, a: Attempt, calls: seq<ToolCall>): (flow: Flow)
    requires calls != []
    ensures flow.Looped? || flow.Returned?
  {
    Dispatch(cfg, pass, Requested(cfg, pass, s, a, calls), calls, a.reasoned)
  }

  // ---------- Chunks ----------

  function Slice(text: string, n: nat): string {
    if |text| <= n then text else text[..n]
  }

  datatype Thought = NotReasoning | Silent | Notice | Summarizes(text: string)

  function ReasoningOf(chunk: Chunk, alreadyObserved: bool, retain: bool): Thought {
    match chunk
    case PrivateReasoning(_) => if alreadyObserved then Silent else Notice
    case SafeSummary(text) =>
      if retain then Summarizes(Slice(text, Reasoning.MAX_DELTA_CHARACTERS))
      else if alreadyObserved then Silent else Notice
    case _ => NotReasoning
  }

  /** The history remembers when an attempt starts to buffer a summary. */
  function Buffer(s: State, a: Attempt): State {
    if a.summary.startedAt.None? then Note(s, SummaryBuffered) else s
  }

  function Measured(s: State, report: UsageReport): State {
    var usage := Usage.SanitizedUsage(report, s.route.active.adapterKind);
    s.(usage := Usage.Observed(s.usage, s.route.active, usage))
  }

  function Said(s: State, text: string): State {
    var r := s.reply;
    Emit(s.(reply := Reply(r.content + text, r.current + text, true, r.messages, r.toolCalls)), MessageDelta(text))
  }

  function Thinks(s: State, a: Attempt, chunk: Chunk, at: int): (State, Attempt) {
    var reasoned := a.(reasoned := true);
    match ReasoningOf(chunk, a.reasoned, a.retain)
    case Summarizes(text) => (Buffer(s, a), reasoned.(summary := Reasoning.Observed(a.summary, text, at)))
    case Notice => (Emit(s, MessageReasoning), reasoned)
    case _ => (s, reasoned)
  }

  /** A chunk that may be used; the history remembers every one of them. */
  function OnChunk(cfg: Config, pass: Pass, s: State, a: Attempt, chunk: Chunk, at: int): Flow {
    var s1 := Note(s, Handled(chunk));
    match chunk
    case UsageChunk(report) => Pulling(Measured(s1, report), a)
    case ToolRequest(toolCall, toolCalls) => OnToolCalls(cfg, pass, s1, a, RequestedCalls(toolCall, toolCalls))
    case Token(text) => Pulling(Said(s1, text), a)
    case _ => var (s2, a2) := Thinks(s1, a, chunk, at); Pulling(s2, a2)
  }

  function PullAt(pass: Pass, i: nat): Pull {
    if i < |pass.pulls| then pass.pulls[i] else END_OF_STREAM
  }

  /** A pull's signals and its settled answer. */
  function Receive(s: State, a: Attempt, pull: Pull): (State, Attempt, Next) {
    var latched := Latched(a.outcome, pull.before);
    var (next, outcome) := NextOf(latched, pull.answer);
    var s1 := Abort(s, ParentAbort in pull.before);
    (Abort(s1, latched.None? && ParentAbort in SignalsOf(pull.answer)), a.(outcome := outcome), next)
  }

  /** One pull, up to the point where the next pull would start. */
  function OnPull(cfg: Config, pass: Pass, s: State, a: Attempt, pull: Pull): Flow {
    var (s1, a1, next) := Receive(s, a, pull);
    match next
    case Done => Drained(s1, a1)
    case Rejected(error) => Threw(s1, a1, error)
    case Value(chunk) =>
      if a1.outcome == Some(Cancelled) then Returned(Cancel(Settle(s1, a1, false, pass.settledAt)))
      else if a1.outcome == Some(TimedOut) then Threw(s1, a1, Classified("provider_timeout", None))
      else OnChunk(cfg, pass, s1, a1, chunk, pull.at)
  }

  function Consume(cfg: Config, pass: Pass, s: State, a: Attempt, i: nat): (r: Flow)
    ensures !r.Pulling?
    decreases |pass.pulls| - i
  {
    var flow := OnPull(cfg, pass, s, a, PullAt(pass, i));
    if flow.Pulling? && i < |pass.pulls| then Consume(cfg, pass, flow.state, flow.attempt, i + 1) else flow
  }

  // ---------- One pass of the attempt loop ----------

  datatype Turn = Again(state: State) | Finished(state: State) | Escapes(state: State)

  ghost function AskCircuit(cfg: Config, pass: Pass, s: State): (State, Option<CB.Snapshot>) {
    var p := s.route.active.providerId;
    if cfg.circuit.None? then (Note(s, Gate(p, None)), None)
    else
      var history := s.breaker + pass.othersBefore + [CB.BeforeAttempt(p, pass.askedAt)];
      var answer := CB.SnapshotOf(cfg.circuit.value, history, p);
      (Note(s.(breaker := history), Gate(p, Some(answer))), Some(answer))
  }

  ghost function ReportSuccess(cfg: Config, pass: Pass, s: State): State {
    var p := s.route.active.providerId;
    if cfg.circuit.None? then s
    else Note(s.(breaker := s.breaker + pass.othersAfter + [CB.RecordSuccess(p)]), HealthSuccess(p))
  }

  ghost function ReportFailure(cfg: Config, pass: Pass, s: State, kind: Option<string>): (State, Option<CB.Snapshot>) {
    var p := s.route.active.providerId;
    if cfg.circuit.None? then (s, None)
    else
      var counts := Retry.CountsAgainstHealth(kind);
      var call := if counts then CB.RecordFailure(p, pass.reportedAt) else CB.Inspect(p);
      var history := s.breaker + pass.othersAfter + [call];
      (Note(s.(breaker := history), if counts then HealthFailure(p, kind) else HealthInspect(p)),
       Some(CB.SnapshotOf(cfg.circuit.value, history, p)))
  }

  ghost function Complete(cfg: Config, pass: Pass, s: State, a: Attempt): State {
    var s1 := ReportSuccess(cfg, pass, Settle(s, a, true, pass.settledAt));
    var s2 := Emit(s1, MessageCompleted(s1.reply.content));
    Close(s2, RunCompleted(Usage.EvidenceOf(s2.usage), s2.route.retryAttempts, s2.route.snapshot))
  }

  function RetriesUsed(s: State): nat {
    if s.route.active.providerId in s.route.retries then s.route.retries[s.route.active.providerId] else 0
  }

  function CountRetry(s: State): State {
    s.(route := s.route.(retries := s.route.retries[s.route.active.providerId := RetriesUsed(s) + 1],
                         retryAttempts := s.route.retryAttempts + 1))
  }

  function Announce(s: State, reasoned: bool): State {
    if reasoned then Emit(s, MessageStarted) else s
  }

  function AfterDelay(cfg: Config, pass: Pass, s: State, reasoned: bool): Turn {
    var waited := Abort(s, !s.aborted && pass.delayAborts);
    if Retry.DelayResolves(cfg.Policy().backoffMs, s.aborted, pass.delayAborts)
    then Again(Announce(waited, reasoned)) else Finished(Cancel(waited))
  }

  /** Retry, fall back or fail, once the failed attempt is settled, reported and closed. */
  function Decide(cfg: Config, pass: Pass, s: State, reasoned: bool, code: string, kind: Option<string>,
                  circuit: Option<CB.Snapshot>): Turn {
    if Retry.IsRetryable(code) && !s.reply.emitted && RetriesUsed(s) < cfg.Policy().maxRetries
    then AfterDelay(cfg, pass, CountRetry(s), reasoned)
    else
      match TryFallback(s, pass.fallback, code)
      case Switched(s1) => Again(Announce(s1, reasoned))
      case Escaped(s1) => Escapes(s1)
      case Unavailable => Finished(ProviderFails(s, code, kind, circuit))
  }

  /** A timed-out attempt fails as a timeout whatever was thrown. */
  function FailureCode(outcome: Option<Outcome>, error: ProviderError): (string, Option<string>) {
    if outcome == Some(TimedOut) then ("provider_timeout", Some("timeout")) else Retry.Classify(error)
  }

  /** The summary of a failed attempt; while its events are yielded, signals may still decide the outcome. */
  function SettleFailed(pass: Pass, s: State, a: Attempt): (State, Option<Outcome>) {
    if !Reasoning.Pending(a.summary) then (s, a.outcome)
    else (Abort(Settle(s, a, false, pass.settledAt), ParentAbort in pass.settling), Latched(a.outcome, pass.settling))
  }

  ghost function Catch(cfg: Config, pass: Pass, s: State, a: Attempt, error: ProviderError): Turn {
    var (s1, outcome) := SettleFailed(pass, s, a);
    if outcome == Some(Cancelled) then Finished(Cancel(s1))
    else
      var (code, kind) := FailureCode(outcome, error);
      var (s2, circuit) := ReportFailure(cfg, pass, s1, kind);
      Decide(cfg, pass, s2.(usage := Usage.Finished(s2.usage)), a.reasoned, code, kind, circuit)
  }

  function FallbackOr(s: State, pass: Pass, reason: string, circuit: Option<CB.Snapshot>): Turn {
    match TryFallback(s, pass.fallback, reason)
    case Switched(s1) => Again(s1)
    case Escaped(s1) => Escapes(s1)
    case Unavailable => Finished(ProviderFails(s, reason, None, circuit))
  }

  /** What the attempt loop makes of a stream that has been consumed. */
  ghost function Consumed(cfg: Config, pass: Pass, flow: Flow): Turn
    requires !flow.Pulling?
  {
    match flow
    case Looped(s) => Again(s)
    case Returned(s) => Finished(s)
    case Threw(s, a, error) => Catch(cfg, pass, s, a, error)
    case Drained(s, a) => Finished(Complete(cfg, pass, s, a))
  }

  /** The attempt itself, once its provider may be called. */
  ghost function Call(cfg: Config, pass: Pass, s: State): Turn {
    var born := if s.aborted then Some(Cancelled) else None;
    var s1 := Abort(s, ParentAbort in pass.resolution.signals);
    var outcome := Latched(born, pass.resolution.signals);
    match pass.resolution.answer
    case Refused(error) => Catch(cfg, pass, s1, Attempt(outcome, Reasoning.NO_SUMMARY, false, false), error)
    case Resolved(effective, _, retain) =>
      var s2 := Note(s1, Stream(s1.route.active, s1.reply.messages, effective));
      Consumed(cfg, pass, Consume(cfg, pass, s2, Attempt(outcome, Reasoning.NO_SUMMARY, false, retain), 0))
  }

  ghost function TakeTurn(cfg: Config, pass: Pass, s: State): Turn {
    var s1 := Abort(s, ParentAbort in pass.before);
    if cfg.KillSwitched(s1.route.active.providerId) then FallbackOr(s1, pass, "provider_disabled", None)
    else
      var (s2, circuit) := AskCircuit(cfg, pass, s1);
      if circuit.Some? && circuit.value.state == CB.Open then FallbackOr(s2, pass, "provider_circuit_open", circuit)
      else Call(cfg, pass, s2)
  }

  // ---------- The run ----------

  function Begin(cfg: Config, breaker: seq<CB.Call>, aborted: bool): State {
    Abort(State(0, [], Reply("", "", false, cfg.messages, 0), Route(cfg.primary, cfg.providerFallback, None, map[], 0),
                Usage.NOTHING_USED, breaker, false), aborted)
  }

  function Start(cfg: Config, s: State, requested: Option<string>): State {
    var s1 := if cfg.emitRunStarted
      then Emit(s, RunStarted(cfg.primary.modelId, cfg.primary.providerId, cfg.providerTimeoutMs,
                              cfg.Policy().maxRetries, requested))
      else s;
    Emit(s1, MessageStarted)
  }

  function RefuseStart(s: State, error: ProviderError): State {
    var (code, kind) := Retry.Classify(error);
    Emit(s, RunFailed(ProviderFailure(code, kind, None, None, 0), Usage.NoEvidence))
  }
}
