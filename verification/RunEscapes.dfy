/**
 How a run can end without a terminal event, and when a retry or a fallback is possible at
 all. `tryFallback` awaits the fallback's parameters outside every handler
 (packages/ai-runtime/src/run-executor.ts:465, called from 114, 134 and 435), so a
 resolution that throws there leaves the generator by an exception.
 */
module RunEscapes {
  import opened Wrappers
  import opened RunTypes
  import opened RunLog
  import opened RunSpec
  import opened RunInvariants
  import opened RunTheorems
  import CB = CircuitBreaker
  import Retry = RetryPolicy
  import Usage = UsageTracker
  import Reasoning = ReasoningSummary
  import opened StreamRuntime

  // ---------- Before tryFallback a pass does not depend on the fallback ----------

  /** The same pass with another answer to the fallback's resolution. */
  function Answering(pass: Pass, answer: ResolvedParameters): Pass {
    pass.(fallback := Resolution(answer, pass.fallback.signals))
  }

  lemma {:induction false} ToolsIgnoreFallback(
    cfg: Config, pass: Pass, answer: ResolvedParameters, s: State, calls: seq<ToolCall>, i: nat, answers: seq<Message>)
    requires i <= |calls|
    ensures RunTools(cfg, Answering(pass, answer), s, calls, i, answers) == RunTools(cfg, pass, s, calls, i, answers)
    decreases |calls| - i
  {
    hide Close, Note, Abort, StopBody, RequestOf, Usage.EvidenceOf;
    if i < |calls| && pass.tools(i).outcome.Returns? {
      var s1 := Abort(Note(s, ToolRun(calls[i], pass.tools(i).outcome)), pass.tools(i).aborts);
      var answered := ToolAnswer(pass.tools(i).outcome.content, calls[i].name, calls[i].providerCallId);
      ToolsIgnoreFallback(cfg, pass, answer, s1, calls, i + 1, answers + [answered]);
    }
  }

  lemma PullIgnoresFallback(cfg: Config, pass: Pass, answer: ResolvedParameters, s: State, a: Attempt, pull: Pull)
    ensures OnPull(cfg, Answering(pass, answer), s, a, pull) == OnPull(cfg, pass, s, a, pull)
  {
    hide Receive, Settle, Cancel, Fail, EmitRequests, RunTools, Continued, Measured, Said, Thinks, RequestOf,
      Usage.Finished;
    var (s1, a1, next) := Receive(s, a, pull);
    if next.Value? && next.chunk.ToolRequest? {
      var calls := RequestedCalls(next.chunk.toolCall, next.chunk.toolCalls);
      var asked := Note(s1, Handled(next.chunk));
      ToolsIgnoreFallback(cfg, pass, answer, Requested(cfg, pass, asked, a1, calls), calls, 0, []);
    }
  }

  lemma {:induction false} StreamIgnoresFallback(
    cfg: Config, pass: Pass, answer: ResolvedParameters, s: State, a: Attempt, i: nat)
    ensures Consume(cfg, Answering(pass, answer), s, a, i) == Consume(cfg, pass, s, a, i)
    decreases |pass.pulls| - i
  {
    hide OnPull;
    PullIgnoresFallback(cfg, pass, answer, s, a, PullAt(pass, i));
    var flow := OnPull(cfg, pass, s, a, PullAt(pass, i));
    if flow.Pulling? && i < |pass.pulls| {
      StreamIgnoresFallback(cfg, pass, answer, flow.state, flow.attempt, i + 1);
    }
  }

  // ---------- A pass escapes exactly when its fallback is refused ----------

  /** The pass goes on with the fallback as its target. */
  ghost predicate Switches(s: State, turn: Turn) {
    turn.Again? && s.route.fallback.Some? && turn.state.route.fallback.None?
  }

  /** What a turn that may fall back does with a refused, and with a resolved, answer. */
  ghost predicate EscapesIffSwitches(s: State, refused: Turn, resolved: Turn) {
    && !resolved.Escapes?
    && (refused.Escapes? <==> Switches(s, resolved))
    && (!refused.Escapes? ==> refused == resolved)
    && (resolved.Again? ==> resolved.state.route.fallback == None || resolved.state.route.fallback == s.route.fallback)
  }

  lemma FallingBack(s: State, s1: State, pass: Pass, error: ProviderError, to: ResolvedParameters, reason: string)
    requires to.Resolved? && s1.route.fallback == s.route.fallback
    ensures match TryFallback(s1, Answering(pass, to).fallback, reason)
      case Switched(t) => t.route.fallback.None? && s.route.fallback.Some?
                          && TryFallback(s1, Answering(pass, Refused(error)).fallback, reason).Escaped?
      case Unavailable => TryFallback(s1, Answering(pass, Refused(error)).fallback, reason).Unavailable?
      case Escaped(_) => false
  {
    hide Abort;
    AbortRoute(s1, ParentAbort in pass.fallback.signals);
  }

  lemma AbortRoute(s: State, happens: bool)
    ensures Abort(s, happens).route == s.route && Abort(s, happens).reply == s.reply
  {
  }

  lemma DecidingEscapes(cfg: Config, pass: Pass, error: ProviderError, to: ResolvedParameters, s: State, s1: State,
                      reasoned: bool, code: string, kind: Option<string>, circuit: Option<CB.Snapshot>)
    requires to.Resolved? && s1.route.fallback == s.route.fallback
    ensures EscapesIffSwitches(s, Decide(cfg, Answering(pass, Refused(error)), s1, reasoned, code, kind, circuit),
                       Decide(cfg, Answering(pass, to), s1, reasoned, code, kind, circuit))
  {
    hide TryFallback, ProviderFails, Emit, Abort, RetriesUsed, Retry.IsRetryable, Cancel;
    FallingBack(s, s1, pass, error, to, code);
    if Retry.IsRetryable(code) && !s1.reply.emitted && RetriesUsed(s1) < cfg.Policy().maxRetries {
      var waited := Abort(CountRetry(s1), !s1.aborted && pass.delayAborts);
      AbortRoute(CountRetry(s1), !s1.aborted && pass.delayAborts);
      AnnounceRoute(waited, reasoned);
    } else {
      match TryFallback(s1, Answering(pass, to).fallback, code)
      case Switched(t) => AnnounceRoute(t, reasoned);
      case _ =>
    }
  }

  lemma AnnounceRoute(s: State, reasoned: bool)
    ensures Announce(s, reasoned).route == s.route && Announce(s, reasoned).reply == s.reply
  {
  }

  lemma CatchingEscapes(cfg: Config, pass: Pass, error: ProviderError, to: ResolvedParameters, s: State, s1: State,
                      a: Attempt, thrown: ProviderError)
    requires to.Resolved? && InFailableAttempt(cfg, s1, a) && s1.route == s.route
    ensures EscapesIffSwitches(s, Catch(cfg, Answering(pass, Refused(error)), s1, a, thrown),
                       Catch(cfg, Answering(pass, to), s1, a, thrown))
  {
    hide InFailableAttempt, EscapesIffSwitches, Decide, SettleFailed, Cancel, Usage.Finished, Live, NothingWaits,
      CB.SnapshotOf,
      FailureCode;
    SettlingIgnoresFallback(pass, Refused(error), s1, a);
    SettlingIgnoresFallback(pass, to, s1, a);
    var (settled, outcome) := SettleFailed(pass, s1, a);
    if outcome == Some(Cancelled) {
      SameTurn(s, Finished(Cancel(settled)));
    } else {
      var (code, kind) := FailureCode(outcome, thrown);
      CatchPrepares(cfg, pass, s1, a, kind);
      var (s2, circuit) := ReportFailure(cfg, pass, settled, kind);
      DecidingEscapes(cfg, pass, error, to, s, s2.(usage := Usage.Finished(s2.usage)), a.reasoned, code, kind, circuit);
    }
  }

  lemma SettlingIgnoresFallback(pass: Pass, answer: ResolvedParameters, s: State, a: Attempt)
    ensures SettleFailed(Answering(pass, answer), s, a) == SettleFailed(pass, s, a)
  {
    hide Settle, Abort;
  }

  lemma SameTurn(s: State, turn: Turn)
    requires turn.Finished? || (turn.Again? && turn.state.route == s.route)
    ensures EscapesIffSwitches(s, turn, turn)
  {
  }

  lemma FallingBackEscapes(cfg: Config, pass: Pass, error: ProviderError, to: ResolvedParameters, s: State, s1: State,
                         reason: string, circuit: Option<CB.Snapshot>)
    requires to.Resolved? && s1.route == s.route
    ensures EscapesIffSwitches(s, FallbackOr(s1, Answering(pass, Refused(error)), reason, circuit),
                       FallbackOr(s1, Answering(pass, to), reason, circuit))
  {
    hide TryFallback, ProviderFails;
    FallingBack(s, s1, pass, error, to, reason);
  }

  lemma CallingEscapes(cfg: Config, pass: Pass, error: ProviderError, to: ResolvedParameters, s: State)
    requires AtHead(cfg, s) && Gated(s.log).gate == Some(s.route.active.providerId)
    requires !cfg.KillSwitched(s.route.active.providerId) && to.Resolved?
    ensures EscapesIffSwitches(s, Call(cfg, Answering(pass, Refused(error)), s), Call(cfg, Answering(pass, to), s))
  {
    hide EscapesIffSwitches, Catch, Complete, Consume, Abort, Note, Live, InAttempt, Over, Ordered, Thoughts,
      Speech, Origins,
      Gated, Sent, Metered, InStep, AtHead;
    var happens := ParentAbort in pass.resolution.signals;
    var s1 := Abort(s, happens);
    AbortingHead(cfg, s, happens);
    var outcome := Latched(if s.aborted then Some(Cancelled) else None, pass.resolution.signals);
    match pass.resolution.answer
    case Refused(thrown) =>
      var a := Attempt(outcome, Reasoning.NO_SUMMARY, false, false);
      FreshAttempt(cfg, s, happens, a);
      CatchingEscapes(cfg, pass, error, to, s, s1, a, thrown);
    case Resolved(effective, _, retain) =>
      var a := Attempt(outcome, Reasoning.NO_SUMMARY, false, retain);
      StreamKeeps(cfg, pass, s1, effective, a);
      ConsumingEscapes(cfg, pass, error, to, s, Note(s1, Stream(s1.route.active, s1.reply.messages, effective)), a);
  }

  /** An abort leaves the head of the loop where it is. */
  lemma AbortingHead(cfg: Config, s: State, happens: bool)
    requires AtHead(cfg, s)
    ensures var s1 := Abort(s, happens);
      AtHead(cfg, s1) && s1.route == s.route && s1.reply == s.reply && s1.aborted == (s.aborted || happens)
      && Gated(s1.log) == Gated(s.log)
  {
    hide Ordered, Thoughts, Speech, Origins, Gated, Sent, Metered, Live;
    Aborting(cfg, s, happens);
  }

  lemma FreshAttempt(cfg: Config, s: State, happens: bool, a: Attempt)
    requires AtHead(cfg, s) && a.summary == Reasoning.NO_SUMMARY && !a.reasoned
    requires s.aborted || happens ==> a.outcome.Some?
    ensures InFailableAttempt(cfg, Abort(s, happens), a)
  {
    hide Ordered, Thoughts, Speech, Origins, Gated, Sent, Metered, Live, Abort;
    AbortingHead(cfg, s, happens);
  }

  lemma ConsumingEscapes(cfg: Config, pass: Pass, error: ProviderError, to: ResolvedParameters, s: State, s2: State,
      a: Attempt)
    requires InAttempt(cfg, s2, a) && s2.route == s.route && to.Resolved?
    ensures var refused, resolved := Answering(pass, Refused(error)), Answering(pass, to);
      EscapesIffSwitches(s, Consumed(cfg, refused, Consume(cfg, refused, s2, a, 0)),
                 Consumed(cfg, resolved, Consume(cfg, resolved, s2, a, 0)))
  {
    hide EscapesIffSwitches, Catch, Consume, Live, Over, Ordered, Thoughts, Speech, Origins, Gated, Sent, Metered,
      InStep,
      AtHead, Complete;
    StreamIgnoresFallback(cfg, pass, Refused(error), s2, a, 0);
    StreamIgnoresFallback(cfg, pass, to, s2, a, 0);
    ConsumeKeeps(cfg, pass, s2, a, 0);
    match Consume(cfg, pass, s2, a, 0)
    case Looped(s3) => SameTurn(s, Again(s3));
    case Returned(s3) => SameTurn(s, Finished(s3));
    case Threw(s3, a3, thrown) => CatchingEscapes(cfg, pass, error, to, s, s3, a3, thrown);
    case Drained(s3, a3) =>
      CompletingIgnoresFallback(cfg, pass, error, to, s3, a3);
      SameTurn(s, Finished(Complete(cfg, pass, s3, a3)));
  }

  lemma CompletingIgnoresFallback(cfg: Config, pass: Pass, error: ProviderError, to: ResolvedParameters, s: State,
      a: Attempt)
    ensures Complete(cfg, Answering(pass, Refused(error)), s, a) == Complete(cfg, pass, s, a)
    ensures Complete(cfg, Answering(pass, to), s, a) == Complete(cfg, pass, s, a)
  {
    hide Settle, Close, Emit, Note, Usage.EvidenceOf;
  }

  /**
   A pass whose fallback is refused escapes exactly when the same pass, with a fallback whose
   parameters resolve, would have switched to it; otherwise the answer makes no difference.
   */
  lemma TurnEscapesExactly(cfg: Config, pass: Pass, s: State, error: ProviderError, to: ResolvedParameters)
    requires AtHead(cfg, s) && to.Resolved?
    ensures EscapesIffSwitches(s, TakeTurn(cfg, Answering(pass, Refused(error)), s),
        TakeTurn(cfg, Answering(pass, to), s))
  {
    hide EscapesIffSwitches, FallbackOr, Call, Abort, AskCircuit, AtHead, Gated, Sent, Metered, Origins;
    var s1 := Abort(s, ParentAbort in pass.before);
    AbortingHead(cfg, s, ParentAbort in pass.before);
    if cfg.KillSwitched(s1.route.active.providerId) {
      FallingBackEscapes(cfg, pass, error, to, s, s1, "provider_disabled", None);
    } else {
      AskingCircuit(cfg, pass, s1);
      var (s2, circuit) := AskCircuit(cfg, pass, s1);
      AskingIgnoresFallback(cfg, pass, Refused(error), s1);
      AskingIgnoresFallback(cfg, pass, to, s1);
      if circuit.Some? && circuit.value.state == CB.Open {
        FallingBackEscapes(cfg, pass, error, to, s, s2, "provider_circuit_open", circuit);
      } else {
        CallingEscapes(cfg, pass, error, to, s2);
        SameRoute(s, s2, Call(cfg, Answering(pass, Refused(error)), s2), Call(cfg, Answering(pass, to), s2));
      }
    }
  }

  lemma SameRoute(s: State, s2: State, refused: Turn, resolved: Turn)
    requires EscapesIffSwitches(s2, refused, resolved) && s2.route == s.route
    ensures EscapesIffSwitches(s, refused, resolved)
  {
  }

  lemma AskingIgnoresFallback(cfg: Config, pass: Pass, answer: ResolvedParameters, s: State)
    ensures AskCircuit(cfg, Answering(pass, answer), s) == AskCircuit(cfg, pass, s)
  {
    hide Note, CB.SnapshotOf;
  }

  // ---------- The guard in plain terms ----------

  /** How an attempt fails: its parameters are refused, or reading its stream throws. */
  datatype Failed = NotFailed | FailedWith(state: State, attempt: Attempt, error: ProviderError)

  function AttemptFailure(cfg: Config, pass: Pass, s: State): Failed {
    var s1 := Abort(s, ParentAbort in pass.resolution.signals);
    var outcome := Latched(if s.aborted then Some(Cancelled) else None, pass.resolution.signals);
    match pass.resolution.answer
    case Refused(error) => FailedWith(s1, Attempt(outcome, Reasoning.NO_SUMMARY, false, false), error)
    case Resolved(effective, _, retain) =>
      var s2 := Note(s1, Stream(s1.route.active, s1.reply.messages, effective));
      match Consume(cfg, pass, s2, Attempt(outcome, Reasoning.NO_SUMMARY, false, retain), 0)
      case Threw(s3, a, error) => FailedWith(s3, a, error)
      case _ => NotFailed
  }

  /** No retry is left for this failure. */
  predicate BeyondRetry(cfg: Config, s: State, code: string) {
    !Retry.IsRetryable(code) || RetriesUsed(s) >= cfg.Policy().maxRetries
  }

  /** The attempt failed, was not cancelled, has said nothing, and cannot be retried. */
  predicate FailsForGood(cfg: Config, pass: Pass, failed: Failed) {
    failed.FailedWith? &&
    var (f, a, error) := (failed.state, failed.attempt, failed.error);
    var outcome := SettleFailed(pass, f, a).1;
    outcome != Some(Cancelled) && !f.reply.emitted && BeyondRetry(cfg, f, FailureCode(outcome, error).0)
  }

  /**
   The pass awaits the fallback's parameters: there is a fallback, nothing has been said, and the
   active provider is switched off, its circuit is open, or its attempt fails for good.
   */
  ghost predicate AsksFallback(cfg: Config, pass: Pass, s: State) {
    var (s2, circuit) := AskCircuit(cfg, pass, Abort(s, ParentAbort in pass.before));
    s.route.fallback.Some?
    && if cfg.KillSwitched(s.route.active.providerId) || (circuit.Some? && circuit.value.state == CB.Open)
       then !s.reply.emitted
       else FailsForGood(cfg, pass, AttemptFailure(cfg, pass, s2))
  }

  /** What a pass that asks, or does not ask, for its fallback does. */
  ghost predicate FallsBackIf(s: State, turn: Turn, asks: bool, pass: Pass) {
    && (turn.Escapes? <==> asks && pass.fallback.answer.Refused?)
    && (Switches(s, turn) <==> asks && pass.fallback.answer.Resolved?)
  }

  lemma TryingFallback(s: State, s1: State, pass: Pass, reason: string)
    requires s1.route.fallback == s.route.fallback
    ensures var asks := s.route.fallback.Some? && !s1.reply.emitted;
      match TryFallback(s1, pass.fallback, reason)
      case Switched(t) => asks && pass.fallback.answer.Resolved? && t.route.fallback.None?
      case Escaped(_) => asks && pass.fallback.answer.Refused?
      case Unavailable => !asks
  {
    hide Abort;
    AbortRoute(s1, ParentAbort in pass.fallback.signals);
  }

  lemma DecidingFallsBack(cfg: Config, pass: Pass, s: State, s1: State, reasoned: bool, code: string,
                          kind: Option<string>, circuit: Option<CB.Snapshot>)
    requires s1.route == s.route
    ensures FallsBackIf(s, Decide(cfg, pass, s1, reasoned, code, kind, circuit),
                        s.route.fallback.Some? && !s1.reply.emitted && BeyondRetry(cfg, s1, code), pass)
  {
    hide TryFallback, ProviderFails, Emit, Abort, RetriesUsed, Retry.IsRetryable, Cancel;
    TryingFallback(s, s1, pass, code);
    if !BeyondRetry(cfg, s1, code) && !s1.reply.emitted {
      var happens := !s1.aborted && pass.delayAborts;
      AbortRoute(CountRetry(s1), happens);
      AnnounceRoute(Abort(CountRetry(s1), happens), reasoned);
    } else {
      match TryFallback(s1, pass.fallback, code)
      case Switched(t) => AnnounceRoute(t, reasoned);
      case _ =>
    }
  }

  lemma CatchingFallsBack(cfg: Config, pass: Pass, s: State, f: State, a: Attempt, error: ProviderError)
    requires InFailableAttempt(cfg, f, a) && f.route == s.route
    ensures FallsBackIf(s, Catch(cfg, pass, f, a, error),
                        s.route.fallback.Some? && FailsForGood(cfg, pass, FailedWith(f, a, error)), pass)
  {
    hide InFailableAttempt, FallsBackIf, Decide, SettleFailed, Cancel, Usage.Finished, Live, NothingWaits,
      CB.SnapshotOf, FailureCode;
    var (settled, outcome) := SettleFailed(pass, f, a);
    if outcome == Some(Cancelled) {
      FinishedFallsNowhere(s, Cancel(settled), pass);
    } else {
      var (code, kind) := FailureCode(outcome, error);
      CatchPrepares(cfg, pass, f, a, kind);
      var (s2, circuit) := ReportFailure(cfg, pass, settled, kind);
      DecidingFallsBack(cfg, pass, s, s2.(usage := Usage.Finished(s2.usage)), a.reasoned, code, kind, circuit);
    }
  }

  lemma FinishedFallsNowhere(s: State, s': State, pass: Pass)
    ensures FallsBackIf(s, Finished(s'), false, pass)
  {
  }

  lemma LoopedFallsNowhere(s: State, s': State, pass: Pass)
    requires s'.route == s.route
    ensures FallsBackIf(s, Again(s'), false, pass)
  {
  }

  lemma CallingFallsBack(cfg: Config, pass: Pass, s: State)
    requires AtHead(cfg, s) && Gated(s.log).gate == Some(s.route.active.providerId)
    requires !cfg.KillSwitched(s.route.active.providerId)
    ensures FallsBackIf(s, Call(cfg, pass, s),
                        s.route.fallback.Some? && FailsForGood(cfg, pass, AttemptFailure(cfg, pass, s)), pass)
  {
    hide FallsBackIf, FailsForGood, Catch, Complete, Consume, Abort, Note, Live, Over, Ordered, Thoughts, Speech,
      Origins,
      Gated, Sent, Metered, InStep, AtHead, InAttempt;
    var happens := ParentAbort in pass.resolution.signals;
    var s1 := Abort(s, happens);
    AbortingHead(cfg, s, happens);
    var outcome := Latched(if s.aborted then Some(Cancelled) else None, pass.resolution.signals);
    match pass.resolution.answer
    case Refused(error) =>
      var a := Attempt(outcome, Reasoning.NO_SUMMARY, false, false);
      FreshAttempt(cfg, s, happens, a);
      CatchingFallsBack(cfg, pass, s, s1, a, error);
    case Resolved(effective, _, retain) =>
      var a := Attempt(outcome, Reasoning.NO_SUMMARY, false, retain);
      StreamKeeps(cfg, pass, s1, effective, a);
      ConsumingFallsBack(cfg, pass, s, Note(s1, Stream(s1.route.active, s1.reply.messages, effective)), a);
  }

  /** The failure of a stream, if reading it throws. */
  function Thrown(flow: Flow): Failed {
    if flow.Threw? then FailedWith(flow.state, flow.attempt, flow.error) else NotFailed
  }

  lemma ConsumingFallsBack(cfg: Config, pass: Pass, s: State, s2: State, a: Attempt)
    requires InAttempt(cfg, s2, a) && s2.route == s.route
    ensures var flow := Consume(cfg, pass, s2, a, 0);
      FallsBackIf(s, Consumed(cfg, pass, flow), s.route.fallback.Some? && FailsForGood(cfg, pass, Thrown(flow)), pass)
  {
    hide FallsBackIf, Catch, Consume, Live, Over, Ordered, Thoughts, Speech, Origins, Gated, Sent, Metered, InStep,
      AtHead,
      Complete;
    ConsumeKeeps(cfg, pass, s2, a, 0);
    match Consume(cfg, pass, s2, a, 0)
    case Looped(s3) => LoopedFallsNowhere(s, s3, pass);
    case Returned(s3) => FinishedFallsNowhere(s, s3, pass);
    case Threw(s3, a3, error) => CatchingFallsBack(cfg, pass, s, s3, a3, error);
    case Drained(s3, a3) => FinishedFallsNowhere(s, Complete(cfg, pass, s3, a3), pass);
  }

  /** A pass escapes exactly when it asks for its fallback and is refused, and switches exactly when it is not. */
  lemma PassEscapesExactly(cfg: Config, pass: Pass, s: State)
    requires AtHead(cfg, s)
    ensures var turn := TakeTurn(cfg, pass, s);
      && (turn.Escapes? <==> AsksFallback(cfg, pass, s) && pass.fallback.answer.Refused?)
      && (Switches(s, turn) <==> AsksFallback(cfg, pass, s) && pass.fallback.answer.Resolved?)
  {
    hide Call, Abort, AskCircuit, AtHead, Gated, Sent, Metered, Origins, TryFallback, ProviderFails, AttemptFailure,
      FailsForGood;
    var s1 := Abort(s, ParentAbort in pass.before);
    AbortingHead(cfg, s, ParentAbort in pass.before);
    AskingCircuit(cfg, pass, s1);
    var (s2, circuit) := AskCircuit(cfg, pass, s1);
    TryingFallback(s, s1, pass, "provider_disabled");
    TryingFallback(s, s2, pass, "provider_circuit_open");
    if !cfg.KillSwitched(s1.route.active.providerId) && !(circuit.Some? && circuit.value.state == CB.Open) {
      CallingFallsBack(cfg, pass, s2);
    }
  }

  // ---------- Whole runs ----------

  /** The loop, from this state on, comes to a pass that asks for its fallback and is refused. */
  ghost predicate LoopIsRefused(cfg: Config, script: Script, s: State, k: nat)
    requires AtHead(cfg, s)
    decreases Measure(cfg, s)
  {
    TakeTurnKeeps(cfg, script.passes(k), s);
    MeasureIsNatural(cfg, s);
    || (AsksFallback(cfg, script.passes(k), s) && script.passes(k).fallback.answer.Refused?)
    || match TakeTurn(cfg, script.passes(k), s)
       case Again(s') => MeasureIsNatural(cfg, s'); LoopIsRefused(cfg, script, s', k + 1)
       case _ => false
  }

  lemma {:induction false} LoopEscapesExactly(cfg: Config, script: Script, s: State, k: nat)
    requires AtHead(cfg, s)
    ensures Attempts(cfg, script, s, k).escaped <==> LoopIsRefused(cfg, script, s, k)
    decreases Measure(cfg, s)
  {
    hide TakeTurn, AtHead, Measure, AsksFallback;
    TakeTurnKeeps(cfg, script.passes(k), s);
    MeasureOfHead(cfg, s);
    PassEscapesExactly(cfg, script.passes(k), s);
    match TakeTurn(cfg, script.passes(k), s)
    case Again(s') =>
      MeasureOfHead(cfg, s');
      LoopEscapesExactly(cfg, script, s', k + 1);
    case _ =>
  }

  /** The state in which a run whose initial parameters resolve enters the attempt loop. */
  function Entered(cfg: Config, script: Script, breaker: seq<CB.Call>): State
    requires Begins(script)
  {
    Start(cfg, Begin(cfg, breaker, ParentAbort in script.initial.signals), script.initial.answer.requested)
  }

  lemma EnteredIsHead(cfg: Config, script: Script, breaker: seq<CB.Call>)
    requires Begins(script)
    ensures var s := Entered(cfg, script, breaker);
      && AtHead(cfg, s) && s.route.fallback == cfg.providerFallback
      && Run(cfg, script, breaker) == Attempts(cfg, script, s, 0)
      && s.aborted == (ParentAbort in script.initial.signals) && !s.reply.emitted
  {
    hide AtHead, Attempts, Emit;
    StartIsHead(cfg, breaker, ParentAbort in script.initial.signals, script.initial.answer.requested);
    EnteredSilently(cfg, script, breaker);
  }

  lemma EnteredSilently(cfg: Config, script: Script, breaker: seq<CB.Call>)
    requires Begins(script)
    ensures var s := Entered(cfg, script, breaker);
      !s.reply.emitted && s.aborted == (ParentAbort in script.initial.signals)
  {
    hide Events, Ordered, Thoughts, Speech, Origins, Gated, Sent, Metered;
  }

  /** A run escapes exactly when it enters the loop and comes to a pass that asks for its fallback and is refused. */
  lemma RunEscapesExactly(cfg: Config, script: Script, breaker: seq<CB.Call>)
    ensures Run(cfg, script, breaker).escaped <==>
            Begins(script)
            && (EnteredIsHead(cfg, script, breaker); LoopIsRefused(cfg, script, Entered(cfg, script, breaker), 0))
  {
    if Begins(script) {
      EnteredIsHead(cfg, script, breaker);
      hide AtHead, Attempts, Run, LoopIsRefused;
      LoopEscapesExactly(cfg, script, Entered(cfg, script, breaker), 0);
    }
  }

  lemma PassAsItIs(pass: Pass)
    ensures Answering(pass, pass.fallback.answer) == pass
  {
  }

  /** The loop escapes only in a pass whose fallback is refused. */
  lemma {:induction false} EscapeHasRefusal(cfg: Config, script: Script, s: State, k: nat)
    requires AtHead(cfg, s)
    ensures var r := Attempts(cfg, script, s, k);
      r.turns > k && (r.escaped ==> script.passes(r.turns - 1).fallback.answer.Refused?)
    decreases Measure(cfg, s)
  {
    hide TakeTurn, AtHead, Measure;
    TakeTurnKeeps(cfg, script.passes(k), s);
    MeasureOfHead(cfg, s);
    match TakeTurn(cfg, script.passes(k), s)
    case Again(s') =>
      MeasureOfHead(cfg, s');
      EscapeHasRefusal(cfg, script, s', k + 1);
    case Finished(_) =>
    case Escapes(_) =>
      PassAsItIs(script.passes(k));
      if script.passes(k).fallback.answer.Resolved? {
        TurnEscapesExactly(cfg, script.passes(k), s, Unclassified, script.passes(k).fallback.answer);
      }
  }

  /** A run whose fallback's parameters always resolve never escapes. */
  lemma ResolvedFallbacksNeverEscape(cfg: Config, script: Script, breaker: seq<CB.Call>)
    requires forall k :: script.passes(k).fallback.answer.Resolved?
    ensures !Run(cfg, script, breaker).escaped
  {
    var r := Run(cfg, script, breaker);
    if Begins(script) && r.escaped {
      var aborted := ParentAbort in script.initial.signals;
      StartIsHead(cfg, breaker, aborted, script.initial.answer.requested);
      hide AtHead, Attempts;
      EscapeHasRefusal(cfg, script, Start(cfg, Begin(cfg, breaker, aborted), script.initial.answer.requested), 0);
    }
  }

  /** Without a fallback left a pass neither escapes nor finds a new one. */
  lemma NoFallbackLeft(cfg: Config, pass: Pass, s: State)
    requires AtHead(cfg, s) && s.route.fallback.None?
    ensures var turn := TakeTurn(cfg, pass, s); !turn.Escapes? && (turn.Again? ==> turn.state.route.fallback.None?)
  {
    hide TakeTurn, AtHead;
    PassAsItIs(pass);
    var error := if pass.fallback.answer.Refused? then pass.fallback.answer.error else Unclassified;
    var to := if pass.fallback.answer.Resolved? then pass.fallback.answer else Resolved("", None, false);
    TurnEscapesExactly(cfg, pass, s, error, to);
  }

  lemma {:induction false} NoFallbackNeverEscapes(cfg: Config, script: Script, s: State, k: nat)
    requires AtHead(cfg, s) && s.route.fallback.None?
    ensures !Attempts(cfg, script, s, k).escaped
    decreases Measure(cfg, s)
  {
    hide TakeTurn, AtHead, Measure;
    TakeTurnKeeps(cfg, script.passes(k), s);
    MeasureOfHead(cfg, s);
    NoFallbackLeft(cfg, script.passes(k), s);
    match TakeTurn(cfg, script.passes(k), s)
    case Again(s') =>
      MeasureOfHead(cfg, s');
      NoFallbackNeverEscapes(cfg, script, s', k + 1);
    case _ =>
  }

  /** A run without a fallback never escapes. */
  lemma NoFallbackRunNeverEscapes(cfg: Config, script: Script, breaker: seq<CB.Call>)
    requires cfg.providerFallback.None?
    ensures !Run(cfg, script, breaker).escaped
  {
    if Begins(script) {
      EnteredIsHead(cfg, script, breaker);
      hide AtHead, Attempts, Run;
      NoFallbackNeverEscapes(cfg, script, Entered(cfg, script, breaker), 0);
    }
  }

  /** An attempt that fails at once and for good, and a fallback whose parameters do not resolve. */
  function FatalPass(): Pass {
    Pass([], [], 0, Resolution(Refused(Classified("fatal", None)), []), [], (_: nat) => ToolReply(Returns(""), false),
         0, [], [], 0, false, Resolution(Refused(Unclassified), []))
  }

  function FatalScript(): Script {
    Script(Resolution(Resolved("", None, false), []), (_: nat) => FatalPass())
  }

  lemma FatalPassAsks(cfg: Config, s: State)
    requires s.route.fallback.Some? && !s.reply.emitted && !s.aborted
    ensures AsksFallback(cfg, FatalPass(), s)
  {
    hide Note, CB.SnapshotOf, RetriesUsed;
    var (s2, circuit) := AskCircuit(cfg, FatalPass(), s);
    AskingChangesLittle(cfg, FatalPass(), s);
    var failed := FailedWith(s2, Attempt(None, Reasoning.NO_SUMMARY, false, false), Classified("fatal", None));
    assert AttemptFailure(cfg, FatalPass(), s2) == failed;
    assert !Retry.IsRetryable("fatal");
  }

  lemma AskingChangesLittle(cfg: Config, pass: Pass, s: State)
    ensures var s2 := AskCircuit(cfg, pass, s).0; s2.reply == s.reply && s2.aborted == s.aborted && s2.route == s.route
  {
    hide Logged, CB.SnapshotOf;
  }

  /** Every configuration with a fallback has a run that escapes, whatever the breaker has seen. */
  lemma FatalRunEscapes(cfg: Config, breaker: seq<CB.Call>)
    requires cfg.providerFallback.Some?
    ensures Run(cfg, FatalScript(), breaker).escaped
  {
    hide AtHead, Attempts, Run, AsksFallback, FatalPass;
    var script := FatalScript();
    EnteredIsHead(cfg, script, breaker);
    var s := Entered(cfg, script, breaker);
    FatalPassAsks(cfg, s);
    FatalPassIsRefused();
    RunEscapesExactly(cfg, script, breaker);
  }

  lemma FatalPassIsRefused()
    ensures FatalPass().fallback.answer.Refused?
  {
  }

  /** Some run of a configuration escapes exactly when it has a fallback, whose parameters may be refused. */
  lemma EscapePossibleExactly(cfg: Config, breaker: seq<CB.Call>)
    ensures (exists script :: Run(cfg, script, breaker).escaped) <==> cfg.providerFallback.Some?
  {
    hide Run, FatalScript;
    if cfg.providerFallback.Some? {
      FatalRunEscapes(cfg, breaker);
    } else {
      forall script ensures !Run(cfg, script, breaker).escaped {
        NoFallbackRunNeverEscapes(cfg, script, breaker);
      }
    }
  }

  /** The same script, with every fallback answered alike. */
  function AnsweringAll(script: Script, answer: ResolvedParameters): Script {
    Script(script.initial, (k: nat) => Answering(script.passes(k), answer))
  }

  /** The loop comes to a pass that goes on with the fallback. */
  ghost predicate LoopSwitches(cfg: Config, script: Script, s: State, k: nat)
    requires AtHead(cfg, s)
    decreases Measure(cfg, s)
  {
    TakeTurnKeeps(cfg, script.passes(k), s);
    MeasureIsNatural(cfg, s);
    match TakeTurn(cfg, script.passes(k), s)
    case Again(s') => MeasureIsNatural(cfg, s'); Switches(s, Again(s')) || LoopSwitches(cfg, script, s', k + 1)
    case _ => false
  }

  /** Refusing every fallback makes exactly those runs escape that resolving it would have switched. */
  lemma {:induction false} RefusedLoopEscapes(
    cfg: Config, script: Script, s: State, k: nat, error: ProviderError, to: ResolvedParameters)
    requires AtHead(cfg, s) && to.Resolved?
    ensures Attempts(cfg, AnsweringAll(script, Refused(error)), s, k).escaped
            <==> LoopSwitches(cfg, AnsweringAll(script, to), s, k)
    decreases Measure(cfg, s)
  {
    hide TakeTurn, AtHead, Measure;
    var refused, resolved := AnsweringAll(script, Refused(error)), AnsweringAll(script, to);
    assert refused.passes(k) == Answering(script.passes(k), Refused(error));
    assert resolved.passes(k) == Answering(script.passes(k), to);
    TakeTurnKeeps(cfg, refused.passes(k), s);
    TakeTurnKeeps(cfg, resolved.passes(k), s);
    MeasureOfHead(cfg, s);
    TurnEscapesExactly(cfg, script.passes(k), s, error, to);
    match TakeTurn(cfg, resolved.passes(k), s)
    case Again(s') =>
      MeasureOfHead(cfg, s');
      if !Switches(s, Again(s')) {
        RefusedLoopEscapes(cfg, script, s', k + 1, error, to);
      }
    case _ =>
  }

  /**
   With the primary provider switched off and a fallback at hand, the run escapes exactly
   when the parameters for that fallback do not resolve; its trace then stops at message.started.
   */
  lemma SwitchedOffRunEscapes(cfg: Config, script: Script, breaker: seq<CB.Call>)
    requires Begins(script) && cfg.providerDisabled && cfg.providerFallback.Some?
    ensures Run(cfg, script, breaker).escaped <==> script.passes(0).fallback.answer.Refused?
    ensures Run(cfg, script, breaker).escaped ==>
              var t := Trace(cfg, script, breaker); t != [] && t[|t| - 1].body.MessageStarted?
  {
    var aborted := ParentAbort in script.initial.signals;
    StartIsHead(cfg, breaker, aborted, script.initial.answer.requested);
    StartsSilent(cfg, breaker, aborted, script.initial.answer.requested);
    hide AtHead, Start, Begin, Events, Attempts;
    SwitchedOffAttempts(cfg, script, Start(cfg, Begin(cfg, breaker, aborted), script.initial.answer.requested));
  }

  lemma SwitchedOffAttempts(cfg: Config, script: Script, s: State)
    requires AtHead(cfg, s) && cfg.KillSwitched(s.route.active.providerId) && s.route.fallback.Some? && !s.reply.emitted
    ensures var r := Attempts(cfg, script, s, 0);
      && (r.escaped <==> script.passes(0).fallback.answer.Refused?)
      && (r.escaped ==> Events(r.state.log) == Events(s.log))
  {
    hide AtHead, Measure, TakeTurn, Events;
    SwitchedOffTurn(cfg, script.passes(0), s);
    TakeTurnKeeps(cfg, script.passes(0), s);
    MeasureOfHead(cfg, s);
    match TakeTurn(cfg, script.passes(0), s)
    case Again(s') =>
      MeasureOfHead(cfg, s');
      NoFallbackNeverEscapes(cfg, script, s', 1);
    case Escapes(_) =>
  }

  lemma SwitchedOffTurn(cfg: Config, pass: Pass, s: State)
    requires cfg.KillSwitched(s.route.active.providerId) && s.route.fallback.Some? && !s.reply.emitted
    ensures var turn := TakeTurn(cfg, pass, s);
      if pass.fallback.answer.Refused? then turn.Escapes? && Events(turn.state.log) == Events(s.log)
      else turn.Again? && turn.state.route.fallback.None?
  {
    hide Ordered, Thoughts, Speech, Origins, Gated, Sent, Metered;
  }

  lemma EmitShows(s: State, body: Body)
    ensures var s' := Emit(s, body);
      && Events(s'.log) == Events(s.log) + [Event(s.sequence + 1, body)]
      && s'.route == s.route && s'.reply == s.reply
  {
    hide Ordered, Thoughts, Speech, Origins, Gated, Sent, Metered, Events;
  }

  lemma StartsSilent(cfg: Config, breaker: seq<CB.Call>, aborted: bool, requested: Option<string>)
    ensures var s := Start(cfg, Begin(cfg, breaker, aborted), requested);
      && s.route.active == cfg.primary && !s.reply.emitted
      && Events(s.log) != [] && Events(s.log)[|Events(s.log)| - 1].body.MessageStarted?
  {
    hide Events, Emit, Ordered, Thoughts, Speech, Origins, Gated, Sent, Metered;
    var s0 := Begin(cfg, breaker, aborted);
    var opening := RunStarted(cfg.primary.modelId, cfg.primary.providerId, cfg.providerTimeoutMs,
                              cfg.Policy().maxRetries, requested);
    EmitShows(s0, opening);
    EmitShows(if cfg.emitRunStarted then Emit(s0, opening) else s0, MessageStarted);
  }

  // ---------- Once a delta is out ----------

  /**
   The loop turns again after a failure only while nothing has been said, and then it sends
   the same conversation; with something said, only answered tools bring it back.
   */
  ghost predicate RepeatsOnlyUnsaid(s: State, turn: Turn) {
    turn.Again? ==>
      && (turn.state.reply.emitted ==> turn.state.route == s.route && turn.state.reply.toolCalls > s.reply.toolCalls)
      && (turn.state.reply.toolCalls == s.reply.toolCalls ==> turn.state.reply.messages == s.reply.messages)
  }

  lemma DecidingRepeatsUnsaid(cfg: Config, pass: Pass, s: State, s1: State, reasoned: bool, code: string,
      kind: Option<string>,
                         circuit: Option<CB.Snapshot>)
    requires s1.reply.messages == s.reply.messages && s1.reply.toolCalls == s.reply.toolCalls
    ensures RepeatsOnlyUnsaid(s, Decide(cfg, pass, s1, reasoned, code, kind, circuit))
  {
    hide ProviderFails, Emit, Abort, RetriesUsed, Retry.IsRetryable, Cancel;
    if Retry.IsRetryable(code) && !s1.reply.emitted && RetriesUsed(s1) < cfg.Policy().maxRetries {
      var happens := !s1.aborted && pass.delayAborts;
      AbortRoute(CountRetry(s1), happens);
      AnnounceRoute(Abort(CountRetry(s1), happens), reasoned);
    } else {
      AbortRoute(s1, ParentAbort in pass.fallback.signals);
      match TryFallback(s1, pass.fallback, code)
      case Switched(t) => AnnounceRoute(t, reasoned);
      case _ =>
    }
  }

  lemma CatchingRepeatsUnsaid(cfg: Config, pass: Pass, s: State, s1: State, a: Attempt, thrown: ProviderError)
    requires InFailableAttempt(cfg, s1, a)
    requires s1.reply.messages == s.reply.messages && s1.reply.toolCalls == s.reply.toolCalls
    ensures RepeatsOnlyUnsaid(s, Catch(cfg, pass, s1, a, thrown))
  {
    hide InFailableAttempt, Decide, SettleFailed, Cancel, Usage.Finished, Live, NothingWaits, CB.SnapshotOf,
      FailureCode;
    var (settled, outcome) := SettleFailed(pass, s1, a);
    if outcome != Some(Cancelled) {
      var (code, kind) := FailureCode(outcome, thrown);
      CatchPrepares(cfg, pass, s1, a, kind);
      var (s2, circuit) := ReportFailure(cfg, pass, settled, kind);
      DecidingRepeatsUnsaid(cfg, pass, s, s2.(usage := Usage.Finished(s2.usage)), a.reasoned, code, kind, circuit);
    }
  }

  lemma CallingRepeatsUnsaid(cfg: Config, pass: Pass, s: State)
    requires AtHead(cfg, s) && Gated(s.log).gate == Some(s.route.active.providerId)
    requires !cfg.KillSwitched(s.route.active.providerId)
    ensures RepeatsOnlyUnsaid(s, Call(cfg, pass, s))
  {
    hide Catch, Complete, Consume, Abort, Note, Live, Over, Ordered, Thoughts, Speech, Origins,
      Gated, Sent, Metered, InStep, AtHead;
    var happens := ParentAbort in pass.resolution.signals;
    var s1 := Abort(s, happens);
    AbortingHead(cfg, s, happens);
    var outcome := Latched(if s.aborted then Some(Cancelled) else None, pass.resolution.signals);
    match pass.resolution.answer
    case Refused(thrown) =>
      var a := Attempt(outcome, Reasoning.NO_SUMMARY, false, false);
      FreshAttempt(cfg, s, happens, a);
      CatchingRepeatsUnsaid(cfg, pass, s, s1, a, thrown);
    case Resolved(effective, _, retain) =>
      var a := Attempt(outcome, Reasoning.NO_SUMMARY, false, retain);
      var s2 := Note(s1, Stream(s1.route.active, s1.reply.messages, effective));
      StreamKeeps(cfg, pass, s1, effective, a);
      ConsumeKeeps(cfg, pass, s2, a, 0);
      match Consume(cfg, pass, s2, a, 0) {
        case Threw(s3, a3, error) => CatchingRepeatsUnsaid(cfg, pass, s, s3, a3, error);
        case _ =>
      }
  }

  /** Once a delta is out no retry and no fallback can happen; before that, the same messages are sent again. */
  lemma NoRetryAfterDelta(cfg: Config, pass: Pass, s: State)
    requires AtHead(cfg, s)
    ensures RepeatsOnlyUnsaid(s, TakeTurn(cfg, pass, s))
  {
    hide Call, Abort, AskCircuit, AtHead, Gated, Sent, Metered, Origins, ProviderFails;
    var s1 := Abort(s, ParentAbort in pass.before);
    AbortingHead(cfg, s, ParentAbort in pass.before);
    AskingCircuit(cfg, pass, s1);
    var (s2, circuit) := AskCircuit(cfg, pass, s1);
    AbortRoute(s1, ParentAbort in pass.fallback.signals);
    AbortRoute(s2, ParentAbort in pass.fallback.signals);
    if !cfg.KillSwitched(s1.route.active.providerId) && !(circuit.Some? && circuit.value.state == CB.Open) {
      CallingRepeatsUnsaid(cfg, pass, s2);
    }
  }
}
