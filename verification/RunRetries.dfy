/**
 How often a failing attempt is tried: the retry policy of
 packages/ai-runtime/src/provider-retry-policy.ts as a whole run shows it.
 */
module RunRetries {
  import opened Wrappers
  import opened RunTypes
  import opened RunLog
  import opened RunSpec
  import opened RunInvariants
  import opened RunTheorems
  import opened RunEscapes
  import CB = CircuitBreaker
  import Retry = RetryPolicy
  import Usage = UsageTracker
  import Reasoning = ReasoningSummary
  import opened StreamRuntime

  /** Nothing is signalled, and the attempt fails with this error before it says anything. */
  predicate FailsAtOnce(pass: Pass, error: ProviderError) {
    && pass.before == [] && pass.resolution.signals == [] && !pass.delayAborts
    && (|| pass.resolution.answer == Refused(error)
        || (pass.resolution.answer.Resolved? && pass.pulls != []
            && pass.pulls[0].before == [] && pass.pulls[0].answer == Fails(error, [])))
  }

  /** One provider, always called: no fallback, no kill switch, no circuit breaker. */
  predicate Alone(cfg: Config) {
    cfg.providerFallback.None? && !cfg.providerDisabled && cfg.circuit.None?
  }

  /** A run that has neither said nor heard anything yet. */
  predicate Untouched(s: State) {
    s.route.fallback.None? && s.route.snapshot.None? && !s.reply.emitted && !s.aborted && s.usage == Usage.NOTHING_USED
  }

  predicate Retries(cfg: Config, s: State, error: ProviderError) {
    Retry.IsRetryable(Retry.Classify(error).0) && RetriesUsed(s) < cfg.Policy().maxRetries
  }

  function FailureOf(error: ProviderError, retryAttempts: nat): Body {
    var (code, kind) := Retry.Classify(error);
    RunFailed(ProviderFailure(code, kind, None, None, retryAttempts), Usage.NoEvidence)
  }

  /** What one failing attempt makes of the state: nothing but entries of the history. */
  lemma FailingCall(cfg: Config, pass: Pass, s: State, error: ProviderError) returns (s3: State, a: Attempt)
    requires Alone(cfg) && Untouched(s) && FailsAtOnce(pass, error)
    ensures TakeTurn(cfg, pass, s) == Catch(cfg, pass, s3, a, error)
    ensures s3 == s.(log := s3.log) && a.outcome.None? && a.summary == Reasoning.NO_SUMMARY && !a.reasoned
  {
    hide Catch, Consume, Note;
    var s2 := AskCircuit(cfg, pass, s).0;
    AloneAsks(cfg, pass, s);
    assert TakeTurn(cfg, pass, s) == Call(cfg, pass, s2);
    s3, a := s2, Attempt(None, Reasoning.NO_SUMMARY, false, false);
    match pass.resolution.answer
    case Refused(_) =>
      assert Call(cfg, pass, s2) == Catch(cfg, pass, s3, a, error);
    case Resolved(effective, _, retain) =>
      s3 := Note(s2, Stream(s2.route.active, s2.reply.messages, effective));
      a := Attempt(None, Reasoning.NO_SUMMARY, false, retain);
      NoteAlone(s2, Stream(s2.route.active, s2.reply.messages, effective));
      FailingStream(cfg, pass, s3, a, error);
      assert Call(cfg, pass, s2) == Catch(cfg, pass, s3, a, error);
  }

  lemma NoteAlone(s: State, e: Entry)
    ensures var s' := Note(s, e); s' == s.(log := s'.log)
  {
    hide Logged;
  }

  lemma AloneAsks(cfg: Config, pass: Pass, s: State)
    requires cfg.circuit.None?
    ensures var (s2, circuit) := AskCircuit(cfg, pass, s); circuit.None? && s2 == s.(log := s2.log)
  {
    hide Logged;
  }

  lemma FailingStream(cfg: Config, pass: Pass, s: State, a: Attempt, error: ProviderError)
    requires FailsAtOnce(pass, error) && pass.resolution.answer.Resolved? && a.outcome.None?
    ensures Consume(cfg, pass, s, a, 0) == Threw(s, a, error)
  {
    hide OnChunk, Settle, Cancel;
    assert OnPull(cfg, pass, s, a, PullAt(pass, 0)) == Threw(s, a, error);
  }

  lemma FailingCatch(cfg: Config, pass: Pass, s: State, a: Attempt, error: ProviderError)
    requires Alone(cfg) && Untouched(s) && FailsAtOnce(pass, error)
    requires a.outcome.None? && a.summary == Reasoning.NO_SUMMARY && !a.reasoned
    ensures var turn := Catch(cfg, pass, s, a, error);
      if Retries(cfg, s, error) then turn == Again(CountRetry(s))
      else turn.Finished? && turn.state == Emit(s, FailureOf(error, s.route.retryAttempts))
  {
    hide Logged, Retry.IsRetryable, RetriesUsed;
    assert s.(usage := Usage.Finished(s.usage)) == s;
  }

  /** A failing pass is tried again while retries are left, and then fails the run with its own error. */
  lemma FailingTurn(cfg: Config, pass: Pass, s: State, error: ProviderError)
    requires Alone(cfg) && Untouched(s) && FailsAtOnce(pass, error)
    ensures var turn := TakeTurn(cfg, pass, s);
      if Retries(cfg, s, error) then
        && turn.Again? && Untouched(turn.state) && RetriesUsed(turn.state) == RetriesUsed(s) + 1
        && turn.state.route.retryAttempts == s.route.retryAttempts + 1
      else turn.Finished? && Events(turn.state.log) != []
           && Events(turn.state.log)[|Events(turn.state.log)| - 1].body == FailureOf(error, s.route.retryAttempts)
  {
    hide Catch, TakeTurn, Retry.IsRetryable, Events, Emit, FailsAtOnce, Alone, FailureOf;
    var s3, a := FailingCall(cfg, pass, s, error);
    FailingCatch(cfg, pass, s3, a, error);
    EmitShows(s3, FailureOf(error, s.route.retryAttempts));
  }

  /** How many tries are left, this one included. */
  function TriesLeft(cfg: Config, s: State, error: ProviderError): int {
    if Retry.IsRetryable(Retry.Classify(error).0) then 1 + Max(0, cfg.Policy().maxRetries - RetriesUsed(s)) else 1
  }

  lemma AttemptsUnfold(cfg: Config, script: Script, s: State, k: nat)
    requires AtHead(cfg, s)
    ensures match TakeTurn(cfg, script.passes(k), s)
      case Again(s') =>
        && AtHead(cfg, s') && 0 <= Measure(cfg, s') < Measure(cfg, s)
        && Attempts(cfg, script, s, k) == Attempts(cfg, script, s', k + 1)
      case Finished(s') => Attempts(cfg, script, s, k) == Outcome(s', false, k + 1)
      case Escapes(s') => Attempts(cfg, script, s, k) == Outcome(s', true, k + 1)
  {
    hide TakeTurn, AtHead, Measure;
    TakeTurnKeeps(cfg, script.passes(k), s);
    MeasureOfHead(cfg, s);
    match TakeTurn(cfg, script.passes(k), s)
    case Again(s') => MeasureOfHead(cfg, s');
    case _ =>
  }

  lemma {:induction false} FailingLoop(cfg: Config, script: Script, s: State, k: nat, error: ProviderError)
    requires AtHead(cfg, s) && Alone(cfg) && Untouched(s) && forall j :: FailsAtOnce(script.passes(j), error)
    ensures var r := Attempts(cfg, script, s, k); var n := TriesLeft(cfg, s, error);
      && !r.escaped && r.turns == k + n && Events(r.state.log) != []
      && s.route.retryAttempts + n >= 1
      && Events(r.state.log)[|Events(r.state.log)| - 1].body == FailureOf(error, s.route.retryAttempts + n - 1)
    decreases Measure(cfg, s)
  {
    hide TakeTurn, AtHead, Measure, Untouched, FailsAtOnce, Retry.IsRetryable, Retry.Classify, Events, FailureOf, Alone,
      RetriesUsed;
    AttemptsUnfold(cfg, script, s, k);
    hide Attempts;
    FailingTurn(cfg, script.passes(k), s, error);
    match TakeTurn(cfg, script.passes(k), s)
    case Again(s') =>
      FailingLoop(cfg, script, s', k + 1, error);
    case _ =>
  }

  /**
   A provider alone whose attempts all fail with the same error is tried maxRetries + 1 times if
   that error may be retried and once if not, and the run then fails with exactly that error and
   the number of retries.
   */
  lemma PersistentFailure(cfg: Config, script: Script, breaker: seq<CB.Call>, error: ProviderError)
    requires Alone(cfg) && Begins(script) && script.initial.signals == []
    requires forall j :: FailsAtOnce(script.passes(j), error)
    ensures var r := Run(cfg, script, breaker); var t := Trace(cfg, script, breaker);
      && !r.escaped && t != []
      && r.turns == (if Retry.IsRetryable(Retry.Classify(error).0) then cfg.Policy().maxRetries + 1 else 1)
      && t[|t| - 1].body == FailureOf(error, r.turns - 1)
  {
    hide AtHead, Attempts, Run, FailsAtOnce, Retry.IsRetryable, Events;
    EnteredIsHead(cfg, script, breaker);
    EnteredUntouched(cfg, script, breaker);
    FailingLoop(cfg, script, Entered(cfg, script, breaker), 0, error);
  }

  lemma EnteredUntouched(cfg: Config, script: Script, breaker: seq<CB.Call>)
    requires Alone(cfg) && Begins(script) && script.initial.signals == []
    ensures var s := Entered(cfg, script, breaker);
      Untouched(s) && RetriesUsed(s) == 0 && s.route.retryAttempts == 0
  {
    hide Events, Ordered, Thoughts, Speech, Origins, Gated, Sent, Metered;
  }

  /** So a broken stream is tried maxRetries + 1 times, and a stream the provider aborted only once. */
  lemma BrokenAndAbortedStreams(cfg: Config, script: Script, breaker: seq<CB.Call>, error: ProviderError)
    requires Alone(cfg) && Begins(script) && script.initial.signals == []
    requires (error.Unclassified? || error.NamedAbort?) && forall j :: FailsAtOnce(script.passes(j), error)
    ensures Run(cfg, script, breaker).turns == if error.Unclassified? then cfg.Policy().maxRetries + 1 else 1
  {
    hide Run, Alone, FailsAtOnce, Retry.IsRetryable;
    PersistentFailure(cfg, script, breaker, error);
    Retry.OwnFailures();
  }

  /** Of the codes an adapter can name, exactly these are tried again. */
  lemma NamedCodesAreTriedAgain(cfg: Config, script: Script, breaker: seq<CB.Call>, code: string, kind: Option<string>)
    requires Alone(cfg) && Begins(script) && script.initial.signals == []
    requires forall j :: FailsAtOnce(script.passes(j), Classified(code, kind))
    ensures Run(cfg, script, breaker).turns ==
            if || code == "provider_timeout" || code == "provider_rate_limited" || code == "provider_unavailable"
               || code == "provider_quota_exceeded" || code == "provider_stream_error"
               || code == "provider_unexpected_failure"
            then cfg.Policy().maxRetries + 1 else 1
  {
    hide Run, Alone, FailsAtOnce, Retry.IsRetryable;
    PersistentFailure(cfg, script, breaker, Classified(code, kind));
    Retry.RetriedCodes(code);
  }
}
