/** What the table of passes in `RunAnswers` says about whole runs. */
module RunPasses {
  import opened Wrappers
  import opened RunTypes
  import opened RunLog
  import opened RunSpec
  import opened RunInvariants
  import opened RunTheorems
  import opened RunEscapes
  import opened RunRetries
  import opened RunConversations
  import opened RunReading
  import A = RunAnswers
  import CB = CircuitBreaker
  import Retry = RetryPolicy
  import Usage = UsageTracker
  import StreamRuntime

  // ---------- The loop's first state ----------

  /** The events before the first pass: run.started, if it is wanted, and message.started. */
  function Opening(cfg: Config, requested: Option<string>): seq<Body> {
    (if cfg.emitRunStarted
     then [RunStarted(cfg.primary.modelId, cfg.primary.providerId, cfg.providerTimeoutMs, cfg.Policy().maxRetries,
                      requested)]
     else [])
    + [MessageStarted]
  }

  lemma EnteredTells(cfg: Config, script: Script, breaker: seq<CB.Call>)
    requires Begins(script)
    ensures var s := Entered(cfg, script, breaker);
      && Bodies(s.log) == Opening(cfg, script.initial.answer.requested) && Chunks(s.log) == []
      && s == State(s.sequence, s.log, Reply("", "", false, cfg.messages, 0),
                    Route(cfg.primary, cfg.providerFallback, None, map[], 0), Usage.NOTHING_USED, breaker,
                    StreamRuntime.ParentAbort in script.initial.signals)
  {
    hide Bodies, Chunks, Calls, Emit, Abort, Note;
    var aborted, requested := StreamRuntime.ParentAbort in script.initial.signals, script.initial.answer.requested;
    var s0 := State(0, [], Reply("", "", false, cfg.messages, 0),
                    Route(cfg.primary, cfg.providerFallback, None, map[], 0), Usage.NOTHING_USED, breaker, false);
    AbortStep(s0, aborted);
    NothingLogged();
    var s1 := Begin(cfg, breaker, aborted);
    var started := RunStarted(cfg.primary.modelId, cfg.primary.providerId, cfg.providerTimeoutMs,
                              cfg.Policy().maxRetries, requested);
    if cfg.emitRunStarted {
      EmitStep(s1, started);
      EmitStep(Emit(s1, started), MessageStarted);
      assert ([] + [started]) + [MessageStarted] == [started] + [MessageStarted];
    } else {
      EmitStep(s1, MessageStarted);
    }
  }

  lemma NothingLogged()
    ensures Bodies([]) == [] && Chunks([]) == [] && Calls([]) == []
  {
  }

  // ---------- The chunks of a run are its script's ----------

  /** The chunks a pass uses: those its stream delivers, once streamChat is called and nothing is signalled. */
  ghost function UsedBy(cfg: Config, pass: Pass, s: State): seq<Chunk> {
    if A.Attempted(cfg, pass, s) && A.Streams(pass, s) then Delivered(pass) else []
  }

  ghost function CalledBy(cfg: Config, pass: Pass, s: State): seq<StreamCall> {
    if A.Attempted(cfg, pass, s) then A.CallBy(pass, s) else []
  }

  lemma DeliveredAtEnd(pass: Pass, s: State)
    ensures A.EndOf(pass, s).AsksForTools? ==>
              && A.Streams(pass, s)
              && A.HeardBy(pass, s) + [ToolRequest(A.EndOf(pass, s).toolCall, A.EndOf(pass, s).toolCalls)]
                 == Delivered(pass)
    ensures !A.EndOf(pass, s).AsksForTools? && A.Streams(pass, s) ==> A.HeardBy(pass, s) == Delivered(pass)
    ensures !A.Streams(pass, s) ==> A.HeardBy(pass, s) == []
  {
    hide ChunksOf, ReadLength;
    assert ChunksOf(Read(pass)) + [] == ChunksOf(Read(pass));
    assert ChunksOf([]) == [] by {
      EmptyRead();
    }
  }

  lemma EmptyRead()
    ensures ChunksOf([]) == []
  {
  }

  /**
   Every pass uses exactly the chunks of its script, whatever becomes of it, and calls its target at
   most once: with the conversation as it stood and the parameters it has just resolved.
   */
  lemma PassUses(cfg: Config, pass: Pass, s: State)
    ensures Chunks(TakeTurn(cfg, pass, s).state.log) == Chunks(s.log) + UsedBy(cfg, pass, s)
    ensures Calls(TakeTurn(cfg, pass, s).state.log) == Calls(s.log) + CalledBy(cfg, pass, s)
  {
    hide TakeTurn, Chunks, Calls, Bodies, Delivered, A.HeardBy, A.ShownBy, A.Attempted, A.EndOf, A.Streams,
      A.SettledBy, A.Announced, A.FinalOutcome, A.MayRetry, A.Refusal, A.FirstStop, A.ReplyAfter, A.UsageAfter,
      A.Asking, A.Telling, A.FailureCall, A.FailureBy, A.CircuitAfter, A.Reannounced, A.StoppedBy, A.Barred,
      A.AskingIfOn, A.SwitchedRoute, A.CallBy;
    DeliveredAtEnd(pass, s);
    assert Chunks(s.log) + [] == Chunks(s.log) && Calls(s.log) + [] == Calls(s.log);
    if !A.Attempted(cfg, pass, s) {
      A.BarredPass(cfg, pass, s);
    } else {
      match A.EndOf(pass, s)
      case Completes => A.CompletedPass(cfg, pass, s);
      case CutOff => A.CancelledPass(cfg, pass, s);
      case Breaks(_) => BrokenPassUses(cfg, pass, s);
      case AsksForTools(call, calls) =>
        ToolsPassUses(cfg, pass, s);
        assert (Chunks(s.log) + A.HeardBy(pass, s)) + [ToolRequest(call, calls)]
            == Chunks(s.log) + (A.HeardBy(pass, s) + [ToolRequest(call, calls)]);
    }
  }

  lemma BrokenPassUses(cfg: Config, pass: Pass, s: State)
    requires A.Attempted(cfg, pass, s) && A.EndOf(pass, s).Breaks?
    ensures Chunks(TakeTurn(cfg, pass, s).state.log) == Chunks(s.log) + A.HeardBy(pass, s)
    ensures Calls(TakeTurn(cfg, pass, s).state.log) == Calls(s.log) + A.CallBy(pass, s)
  {
    hide TakeTurn, Chunks, Calls, Bodies, A.HeardBy, A.ShownBy, A.Attempted, A.EndOf, A.SettledBy, A.FinalOutcome,
      A.MayRetry, A.ReplyAfter, A.UsageAfter, A.Asking, A.Telling, A.FailureCall, A.FailureBy, A.CircuitAfter,
      A.Reannounced, A.SwitchedRoute;
    if A.FinalOutcome(pass, s) == Some(StreamRuntime.Cancelled) {
      A.CancelledPass(cfg, pass, s);
    } else if A.MayRetry(cfg, pass, s) {
      A.RetriedPass(cfg, pass, s);
    } else if s.route.fallback.Some? && !A.ReplyAfter(pass, s).emitted {
      A.SwitchedPass(cfg, pass, s);
    } else {
      A.FailedPass(cfg, pass, s);
    }
  }

  lemma ToolsPassUses(cfg: Config, pass: Pass, s: State)
    requires A.Attempted(cfg, pass, s) && A.EndOf(pass, s).AsksForTools?
    ensures Chunks(TakeTurn(cfg, pass, s).state.log) == Chunks(s.log) + A.HeardBy(pass, s)
                              + [ToolRequest(A.EndOf(pass, s).toolCall, A.EndOf(pass, s).toolCalls)]
    ensures Calls(TakeTurn(cfg, pass, s).state.log) == Calls(s.log) + A.CallBy(pass, s)
  {
    hide TakeTurn, Chunks, Calls, Bodies, A.HeardBy, A.ShownBy, A.Attempted, A.EndOf, A.SettledBy, A.Announced,
      A.Refusal, A.ReplyAfter, A.UsageAfter, A.Asking, A.Reannounced, A.StoppedBy;
    var calls := A.BatchOf(pass, s);
    if A.Refusal(cfg, pass, s).Some? {
      A.RefusedToolsPass(cfg, pass, s);
    } else if A.FirstStop(pass, calls, 0) < |calls| {
      A.StoppedToolsPass(cfg, pass, s);
    } else {
      A.AnsweredToolsPass(cfg, pass, s);
    }
  }

  function Flat(parts: seq<seq<Chunk>>): seq<Chunk> {
    if parts == [] then [] else parts[0] + Flat(parts[1..])
  }

  lemma {:induction false} AttemptsUse(cfg: Config, script: Script, s: State, k: nat) returns (used: seq<seq<Chunk>>)
    requires AtHead(cfg, s)
    ensures var r := Attempts(cfg, script, s, k);
      && k + |used| == r.turns && Chunks(r.state.log) == Chunks(s.log) + Flat(used)
      && forall j :: 0 <= j < |used| ==> used[j] == [] || used[j] == Delivered(script.passes(k + j))
    decreases Measure(cfg, s)
  {
    hide TakeTurn, AtHead, Measure, Chunks, Delivered, A.Attempted, A.Streams;
    AttemptsUnfold(cfg, script, s, k);
    hide Attempts;
    var pass := script.passes(k);
    PassUses(cfg, pass, s);
    var first := UsedBy(cfg, pass, s);
    assert Flat([first]) == first by {
      assert [first][1..] == [];
      assert first + [] == first;
    }
    match TakeTurn(cfg, pass, s)
    case Again(s') =>
      var rest := AttemptsUse(cfg, script, s', k + 1);
      used := [first] + rest;
      assert used[1..] == rest;
      assert (Chunks(s.log) + first) + Flat(rest) == Chunks(s.log) + Flat(used);
      assert forall j :: 0 < j < |used| ==> used[j] == rest[j - 1] && k + j == (k + 1) + (j - 1);
    case Finished(_) => used := [first];
    case Escapes(_) => used := [first];
  }

  /**
   The chunks a run uses are, pass by pass, nothing or exactly what that pass's stream delivers up
   to its first end, failure, signal or tool request; so the text of all its deltas is the text
   of those chunks' tokens.
   */
  lemma RunSaysItsScript(cfg: Config, script: Script, breaker: seq<CB.Call>) returns (used: seq<seq<Chunk>>)
    requires Begins(script)
    ensures var r := Run(cfg, script, breaker);
      && |used| == r.turns
      && (forall j :: 0 <= j < |used| ==> used[j] == [] || used[j] == Delivered(script.passes(j)))
      && Chunks(r.state.log) == Flat(used)
      && DeltaTexts(Trace(cfg, script, breaker)) == TokenTexts(Flat(used))
  {
    hide AtHead, Attempts, Delivered, DeltaTexts, TokenTexts, Events;
    EnteredIsHead(cfg, script, breaker);
    EnteredTells(cfg, script, breaker);
    used := AttemptsUse(cfg, script, Entered(cfg, script, breaker), 0);
    EveryTokenIsSaid(cfg, script, breaker);
    assert [] + Flat(used) == Flat(used);
  }

  // ---------- What a run reports about its route ----------

  /** The retries of every provider the run may call. */
  function AllRetries(cfg: Config, route: Route): nat {
    A.UsedRetries(route, cfg.primary.providerId)
    + if cfg.providerFallback.Some? && cfg.providerFallback.value.providerId != cfg.primary.providerId
      then A.UsedRetries(route, cfg.providerFallback.value.providerId) else 0
  }

  /**
   The run calls its primary and reports no fallback; or it has changed over to the configured
   fallback and reports that: from the primary, to the fallback. It reports every retry.
   */
  ghost predicate Routed(cfg: Config, route: Route) {
    && route.retryAttempts == AllRetries(cfg, route)
    && match route.snapshot
       case None => route.active == cfg.primary && route.fallback == cfg.providerFallback
       case Some(f) =>
         && cfg.providerFallback == Some(route.active) && route.fallback.None?
         && f.fromModelId == cfg.primary.modelId && f.fromProviderId == cfg.primary.providerId
         && f.toModelId == route.active.modelId && f.toProviderId == route.active.providerId
  }

  /** The event says what the route says. */
  predicate Reports(b: Body, route: Route) {
    && (b.RunCompleted? ==> b.fallback == route.snapshot && b.retryAttempts == route.retryAttempts)
    && (b.RunFailed? && b.failure.ProviderFailure? ==>
          b.failure.fallback == route.snapshot && b.failure.retryAttempts == route.retryAttempts)
  }

  ghost predicate EndReports(turn: Turn) {
    turn.Finished? ==>
      var bodies := Bodies(turn.state.log);
      bodies != [] && Reports(bodies[|bodies| - 1], turn.state.route)
  }

  lemma LastBody(earlier: seq<Body>, more: seq<Body>, b: Body)
    ensures (earlier + (more + [b]))[|earlier + (more + [b])| - 1] == b
  {
  }

  lemma SwitchingIsRouted(cfg: Config, route: Route, requested: Option<string>, reason: string)
    requires Routed(cfg, route) && route.fallback.Some?
    ensures Routed(cfg, A.SwitchedRoute(route, requested, reason))
  {
  }

  lemma RetryingIsRouted(cfg: Config, route: Route, n: nat)
    requires Routed(cfg, route) && n == A.UsedRetries(route, route.active.providerId) + 1
    ensures Routed(cfg, route.(retries := route.retries[route.active.providerId := n],
                               retryAttempts := route.retryAttempts + 1))
  {
  }

  lemma PassReports(cfg: Config, pass: Pass, s: State)
    requires Routed(cfg, s.route)
    ensures Routed(cfg, TakeTurn(cfg, pass, s).state.route) && EndReports(TakeTurn(cfg, pass, s))
  {
    hide TakeTurn, Chunks, Calls, Bodies, Routed, A.HeardBy, A.ShownBy, A.Attempted, A.EndOf, A.SettledBy,
      A.ReplyAfter, A.UsageAfter, A.Asking, A.Telling, A.Barred, A.AskingIfOn, A.SwitchedRoute;
    var turn := TakeTurn(cfg, pass, s);
    if !A.Attempted(cfg, pass, s) {
      A.BarredPass(cfg, pass, s);
      if turn.Again? {
        SwitchingIsRouted(cfg, s.route, pass.fallback.answer.requested, A.Barred(cfg, pass, s).0);
      }
    } else {
      match A.EndOf(pass, s)
      case Completes => CompletedReports(cfg, pass, s);
      case CutOff => CancelledReports(cfg, pass, s);
      case Breaks(_) => BrokenReports(cfg, pass, s);
      case AsksForTools(_, _) => ToolsReport(cfg, pass, s);
    }
  }

  lemma CompletedReports(cfg: Config, pass: Pass, s: State)
    requires A.Attempted(cfg, pass, s) && A.EndOf(pass, s).Completes?
    ensures TakeTurn(cfg, pass, s).state.route == s.route && EndReports(TakeTurn(cfg, pass, s))
  {
    hide TakeTurn, Chunks, Calls, Bodies, A.HeardBy, A.ShownBy, A.Attempted, A.EndOf, A.SettledBy, A.ReplyAfter,
      A.UsageAfter, A.Asking, A.Telling, TokenText;
    A.CompletedPass(cfg, pass, s);
    var completed := MessageCompleted(s.reply.content + TokenText(A.HeardBy(pass, s)));
    var last := RunCompleted(A.EvidenceAfter(pass, s), s.route.retryAttempts, s.route.snapshot);
    var settled := A.SettledBy(pass, s, true);
    assert settled + [completed, last] == (settled + [completed]) + [last];
    LastBody(Bodies(s.log) + A.ShownBy(pass, s), settled + [completed], last);
  }

  lemma CancelledReports(cfg: Config, pass: Pass, s: State)
    requires A.Attempted(cfg, pass, s)
    requires A.EndOf(pass, s).CutOff?
             || (A.EndOf(pass, s).Breaks? && A.FinalOutcome(pass, s) == Some(StreamRuntime.Cancelled))
    ensures TakeTurn(cfg, pass, s).state.route == s.route && EndReports(TakeTurn(cfg, pass, s))
  {
    hide TakeTurn, Chunks, Calls, Bodies, A.HeardBy, A.ShownBy, A.Attempted, A.EndOf, A.SettledBy, A.ReplyAfter,
      A.UsageAfter, A.Asking, A.FinalOutcome;
    A.CancelledPass(cfg, pass, s);
    LastBody(Bodies(s.log) + A.ShownBy(pass, s), A.SettledBy(pass, s, false), RunCancelled(A.EvidenceAfter(pass, s)));
  }

  lemma BrokenReports(cfg: Config, pass: Pass, s: State)
    requires Routed(cfg, s.route) && A.Attempted(cfg, pass, s) && A.EndOf(pass, s).Breaks?
    ensures Routed(cfg, TakeTurn(cfg, pass, s).state.route) && EndReports(TakeTurn(cfg, pass, s))
  {
    hide TakeTurn, Chunks, Calls, Bodies, Routed, A.HeardBy, A.ShownBy, A.Attempted, A.EndOf, A.SettledBy, A.ReplyAfter,
      A.UsageAfter, A.Asking, A.Telling, A.FinalOutcome, A.MayRetry, A.FailureBy, A.FailureCall, A.SwitchedRoute,
      A.AbortedAfter, A.Reannounced, Reports;
    if A.FinalOutcome(pass, s) == Some(StreamRuntime.Cancelled) {
      CancelledReports(cfg, pass, s);
    } else if A.MayRetry(cfg, pass, s) {
      RetriedReports(cfg, pass, s);
    } else if s.route.fallback.Some? && !A.ReplyAfter(pass, s).emitted {
      A.SwitchedPass(cfg, pass, s);
      if pass.fallback.answer.Resolved? {
        SwitchingIsRouted(cfg, s.route, pass.fallback.answer.requested, A.FailureBy(pass, s).0);
      }
    } else {
      FailedReports(cfg, pass, s);
    }
  }

  lemma RetriedReports(cfg: Config, pass: Pass, s: State)
    requires Routed(cfg, s.route) && A.Attempted(cfg, pass, s) && A.Failed(pass, s) && A.MayRetry(cfg, pass, s)
    ensures Routed(cfg, TakeTurn(cfg, pass, s).state.route) && EndReports(TakeTurn(cfg, pass, s))
  {
    hide TakeTurn, Chunks, Calls, Bodies, Routed, A.HeardBy, A.ShownBy, A.Attempted, A.EndOf, A.SettledBy, A.ReplyAfter,
      A.UsageAfter, A.Asking, A.Telling, A.FinalOutcome, A.MayRetry, A.FailureBy, A.FailureCall, A.CircuitAfter,
      A.AbortedAfter, A.Reannounced, A.Failed;
    A.RetriedPass(cfg, pass, s);
    RetryingIsRouted(cfg, s.route, A.UsedRetries(s.route, s.route.active.providerId) + 1);
    LastBody(Bodies(s.log) + A.ShownBy(pass, s), A.SettledBy(pass, s, false), RunCancelled(A.EvidenceAfter(pass, s)));
  }

  lemma FailedReports(cfg: Config, pass: Pass, s: State)
    requires A.Attempted(cfg, pass, s) && A.Failed(pass, s) && !A.MayRetry(cfg, pass, s)
    requires s.route.fallback.None? || A.ReplyAfter(pass, s).emitted
    ensures TakeTurn(cfg, pass, s).state.route == s.route && EndReports(TakeTurn(cfg, pass, s))
  {
    hide TakeTurn, Chunks, Calls, Bodies, A.HeardBy, A.ShownBy, A.Attempted, A.EndOf, A.SettledBy, A.ReplyAfter,
      A.UsageAfter, A.Asking, A.Telling, A.FinalOutcome, A.MayRetry, A.FailureBy, A.FailureCall, A.CircuitAfter;
    A.FailedPass(cfg, pass, s);
    var (code, kind) := A.FailureBy(pass, s);
    var circuit := A.CircuitAfter(cfg, pass, s);
    var shown := if circuit.Some? && circuit.value.state == CB.Closed then None else circuit;
    var failure := ProviderFailure(code, kind, shown, s.route.snapshot, s.route.retryAttempts);
    LastBody(Bodies(s.log) + A.ShownBy(pass, s), A.SettledBy(pass, s, false),
             RunFailed(failure, A.EvidenceAfter(pass, s)));
  }

  lemma ToolsReport(cfg: Config, pass: Pass, s: State)
    requires A.Attempted(cfg, pass, s) && A.EndOf(pass, s).AsksForTools?
    ensures TakeTurn(cfg, pass, s).state.route == s.route && EndReports(TakeTurn(cfg, pass, s))
  {
    hide TakeTurn, Chunks, Calls, Bodies, A.HeardBy, A.ShownBy, A.Attempted, A.EndOf, A.SettledBy, A.ReplyAfter,
      A.UsageAfter, A.Asking, A.Announced, A.BatchOf;
    var calls, turn := A.BatchOf(pass, s), TakeTurn(cfg, pass, s);
    var before := Bodies(s.log) + A.ShownBy(pass, s) + A.SettledBy(pass, s, true) + A.Announced(cfg, calls);
    if A.Refusal(cfg, pass, s).Some? {
      A.RefusedToolsPass(cfg, pass, s);
      var last := RunFailed(A.Refusal(cfg, pass, s).value, A.EvidenceAfter(pass, s));
      assert Bodies(turn.state.log) == before + [last];
    } else if A.FirstStop(pass, calls, 0) < |calls| {
      A.StoppedToolsPass(cfg, pass, s);
      var k := A.FirstStop(pass, calls, 0);
      var last := A.StoppedBy(RequestOf(cfg, calls[k]), pass.tools(k).outcome, A.EvidenceAfter(pass, s));
      assert Bodies(turn.state.log) == before + [last];
    } else {
      A.AnsweredToolsPass(cfg, pass, s);
    }
  }

  lemma {:induction false} AttemptsReport(cfg: Config, script: Script, s: State, k: nat)
    requires AtHead(cfg, s) && Routed(cfg, s.route)
    ensures var r := Attempts(cfg, script, s, k); var bodies := Bodies(r.state.log);
      && Routed(cfg, r.state.route)
      && (!r.escaped ==> bodies != [] && Reports(bodies[|bodies| - 1], r.state.route))
    decreases Measure(cfg, s)
  {
    hide TakeTurn, AtHead, Measure, Routed, Bodies, Reports;
    AttemptsUnfold(cfg, script, s, k);
    hide Attempts;
    PassReports(cfg, script.passes(k), s);
    match TakeTurn(cfg, script.passes(k), s)
    case Again(s') => AttemptsReport(cfg, script, s', k + 1);
    case _ =>
  }

  lemma {:induction false} BodiesOfEvents(log: seq<Entry>)
    ensures |Bodies(log)| == |Events(log)|
    ensures forall i :: 0 <= i < |Bodies(log)| ==> Bodies(log)[i] == Events(log)[i].body
  {
    if log != [] {
      BodiesOfEvents(log[..|log| - 1]);
    }
  }

  /**
   A finished run reports how often it was retried and whether it changed over: none, or exactly
   from the primary to the configured fallback, which is then the target that answered.
   */
  lemma RouteIsReported(cfg: Config, script: Script, breaker: seq<CB.Call>)
    requires Begins(script)
    ensures var r := Run(cfg, script, breaker); var t := Trace(cfg, script, breaker);
      && Routed(cfg, r.state.route)
      && (!r.escaped ==> t != [] && Reports(t[|t| - 1].body, r.state.route))
  {
    hide AtHead, Attempts, Bodies, Events, Reports;
    EnteredIsHead(cfg, script, breaker);
    EnteredTells(cfg, script, breaker);
    AttemptsReport(cfg, script, Entered(cfg, script, breaker), 0);
    BodiesOfEvents(Run(cfg, script, breaker).state.log);
  }

  // ---------- A run that completes at once ----------

  /**
   A first pass whose stream ends without a signal is the whole run: its events are the opening, a
   delta for each token and at most one reasoning notice, the kept summary, the completed
   message with all the tokens' text, and the completed run.
   */
  lemma CompletesAtOnce(cfg: Config, script: Script, breaker: seq<CB.Call>)
    requires Begins(script) && A.Attempted(cfg, script.passes(0), Entered(cfg, script, breaker))
    requires A.EndOf(script.passes(0), Entered(cfg, script, breaker)).Completes?
    ensures var r := Run(cfg, script, breaker); var pass := script.passes(0);
      var chunks, retain := ChunksOf(Read(pass)), pass.resolution.answer.retainSummary;
      var reports := ReportsIn(chunks, cfg.primary.adapterKind);
      var usage := Usage.ObservedAll(Usage.NOTHING_USED, cfg.primary, reports);
      && !r.escaped && r.turns == 1
      && Bodies(r.state.log) == Opening(cfg, script.initial.answer.requested) + BodiesFor(chunks, retain)
         + (A.SettledBodies(SummaryOf(Read(pass), retain), true, Usage.CurrentReasoning(usage), pass.settledAt)
            + [MessageCompleted(TokenText(chunks)), RunCompleted(Usage.EvidenceOf(usage), 0, None)])
  {
    hide AtHead, Attempts, Bodies, Chunks, Calls, A.Attempted, Opening, ChunksOf, Read, BodiesFor, TokenText,
      A.SettledBodies, Usage.EvidenceOf, Usage.ObservedAll, ReportsIn, SummaryOf, TakeTurn, Entered, LastPull;
    var s, pass := Entered(cfg, script, breaker), script.passes(0);
    EnteredIsHead(cfg, script, breaker);
    EnteredTells(cfg, script, breaker);
    AttemptsUnfold(cfg, script, s, 0);
    A.CompletedPass(cfg, pass, s);
    assert "" + TokenText(A.HeardBy(pass, s)) == TokenText(A.HeardBy(pass, s));
  }

  // ---------- A run that cannot start ----------

  /** Refused initial parameters give exactly one event: the failure, as what was thrown tells it. */
  lemma RefusedRunTells(cfg: Config, script: Script, breaker: seq<CB.Call>)
    requires !Begins(script)
    ensures var r := Run(cfg, script, breaker); var (code, kind) := Retry.Classify(script.initial.answer.error);
      && Bodies(r.state.log) == [RunFailed(ProviderFailure(code, kind, None, None, 0), Usage.NoEvidence)]
      && Chunks(r.state.log) == [] && Calls(r.state.log) == []
  {
    hide Bodies, Chunks, Calls, Emit, Abort, Note;
    var aborted, error := StreamRuntime.ParentAbort in script.initial.signals, script.initial.answer.error;
    var s0 := State(0, [], Reply("", "", false, cfg.messages, 0),
                    Route(cfg.primary, cfg.providerFallback, None, map[], 0), Usage.NOTHING_USED, breaker, false);
    AbortStep(s0, aborted);
    NothingLogged();
    var (code, kind) := Retry.Classify(error);
    var failed := RunFailed(ProviderFailure(code, kind, None, None, 0), Usage.NoEvidence);
    EmitStep(Begin(cfg, breaker, aborted), failed);
    assert [] + [failed] == [failed];
  }

  /** Without a configured limit a run calls at most four tools; without a retry policy it takes six passes at most. */
  lemma DefaultBudgets(cfg: Config, script: Script, breaker: seq<CB.Call>)
    ensures cfg.maxModelToolCalls.None? ==> CountToolRuns(Run(cfg, script, breaker).state.log) <= 4
    ensures cfg.maxModelToolCalls.None? && cfg.retryPolicy.None? ==> Run(cfg, script, breaker).turns <= 6
  {
    hide Run, CountToolRuns;
    ToolBudgetHolds(cfg, script, breaker);
    RunsAreBounded(cfg, script, breaker);
  }
}
